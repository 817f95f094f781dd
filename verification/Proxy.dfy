/** Proxy settings and the trusted CA bundle, added in place to every container of a pod. */
module Proxy {
  import opened Wrappers
  import opened KeyedLists
  import opened Pods

  const HTTP_PROXY := "HTTP_PROXY"
  const HTTPS_PROXY := "HTTPS_PROXY"
  const NO_PROXY := "NO_PROXY"
  const CA_VOLUME := "trusted-ca-bundle"
  const CA_PATH := "/etc/pki/ca-trust/extracted/pem"

  /** The operator's own environment, as far as it is read. */
  datatype Env = Env(httpProxy: string, httpsProxy: string, noProxy: string, caConfigMap: string) {
    predicate ProxyEnabled() { httpProxy != "" || httpsProxy != "" }
    predicate CaConfigured() { caConfigMap != "" }

    /** A proxy without a CA bundle is refused by the validation. */
    predicate ProxyConfigurationValid() { ProxyEnabled() ==> CaConfigured() }
  }

  function NonEmpty(entries: seq<string>): seq<string> {
    Filtered(entries, (e: string) => e != "")
  }

  function CommaJoined(entries: seq<string>): string {
    if entries == [] then ""
    else if |entries| == 1 then entries[0]
    else CommaJoined(entries[..|entries| - 1]) + "," + entries[|entries| - 1]
  }

  lemma NonEmptyFacts(entries: seq<string>)
    ensures forall e :: e in NonEmpty(entries) <==> e in entries && e != ""
    ensures CommaJoined(NonEmpty(entries)) == "" <==> NonEmpty(entries) == []
  {
    FilteredMembers(entries, (e: string) => e != "");
    var kept := NonEmpty(entries);
    if |kept| == 1 {
      assert kept[0] in kept;
    }
  }

  /** The parts of a text between its commas. */
  function Split(s: string): seq<string> {
    if ',' !in s then [s]
    else
      var k := LastComma(s);
      Split(s[..k]) + [s[k + 1..]]
  }

  function LastComma(s: string): (k: nat)
    requires ',' in s
    ensures k < |s| && s[k] == ',' && forall i :: k < i < |s| ==> s[i] != ','
  {
    if s[|s| - 1] == ',' then |s| - 1 else LastComma(s[..|s| - 1])
  }

  lemma SplitLast(head: string, last: string)
    requires ',' !in last
    ensures Split(head + "," + last) == Split(head) + [last]
  {
    var joined := head + "," + last;
    assert joined[|head|] == ',' && forall i :: |head| < i < |joined| ==> joined[i] == last[i - |head| - 1];
    var k := LastComma(joined);
    assert k == |head|;
    assert joined[..k] == head && joined[k + 1..] == last;
  }

  /** Entries without commas are read back from the joined text. */
  lemma {:induction false} JoinedSplits(entries: seq<string>)
    requires entries != [] && forall e :: e in entries ==> ',' !in e
    ensures Split(CommaJoined(entries)) == entries
  {
    var n := |entries| - 1;
    assert entries[n] in entries;
    if n > 0 {
      JoinedSplits(entries[..n]);
      SplitLast(CommaJoined(entries[..n]), entries[n]);
    }
  }

  lemma NonEmptyStep(entries: seq<string>, x: string)
    ensures NonEmpty(entries + [x]) == if x == "" then NonEmpty(entries) else NonEmpty(entries) + [x]
  {
    assert (entries + [x])[..|entries|] == entries;
  }

  lemma CommaStep(kept: seq<string>, x: string)
    ensures CommaJoined(kept + [x]) == if kept == [] then x else CommaJoined(kept) + "," + x
  {
    assert (kept + [x])[..|kept|] == kept;
  }

  lemma JoinStep(entries: seq<string>, x: string)
    ensures var j := CommaJoined(NonEmpty(entries));
            CommaJoined(NonEmpty(entries + [x])) == if x == "" then j else if j != "" then j + "," + x else x
  {
    NonEmptyStep(entries, x);
    NonEmptyFacts(entries);
    CommaStep(NonEmpty(entries), x);
  }

  method ExtendNoProxy(base: string, additions: seq<string>) returns (noProxy: string)
    ensures noProxy == CommaJoined(NonEmpty([base] + additions))
  {
    noProxy := base;
    ghost var done := [base];
    JoinStep([], base);
    assert [] + [base] == done;
    for i := 0 to |additions|
      invariant done == [base] + additions[..i]
      invariant noProxy == CommaJoined(NonEmpty(done))
    {
      JoinStep(done, additions[i]);
      assert additions[..i + 1] == additions[..i] + [additions[i]];
      if additions[i] != "" {
        noProxy := if noProxy != "" then noProxy + "," + additions[i] else additions[i];
      }
      done := done + [additions[i]];
    }
    assert additions[..|additions|] == additions;
  }

  function ProxyVars(env: Env, additions: seq<string>): seq<EnvVar> {
    var noProxy := CommaJoined(NonEmpty([env.noProxy] + additions));
    (if env.httpProxy != "" then [EnvVar(HTTP_PROXY, env.httpProxy)] else []) +
    (if env.httpsProxy != "" then [EnvVar(HTTPS_PROXY, env.httpsProxy)] else []) +
    (if noProxy != "" then [EnvVar(NO_PROXY, noProxy)] else [])
  }

  /** The variables to inject; NO_PROXY is the comma-separated list of the non-empty entries, the
      configured ones first. */
  method GetProxyEnvVars(env: Env, additions: seq<string>) returns (vars: seq<EnvVar>)
    ensures vars == ProxyVars(env, additions)
  {
    vars := [];
    if env.httpProxy != "" {
      vars := vars + [EnvVar(HTTP_PROXY, env.httpProxy)];
    }
    if env.httpsProxy != "" {
      vars := vars + [EnvVar(HTTPS_PROXY, env.httpsProxy)];
    }
    var noProxy := ExtendNoProxy(env.noProxy, additions);
    if noProxy != "" {
      vars := vars + [EnvVar(NO_PROXY, noProxy)];
    }
  }

  /** Which variables are injected, and with which values. */
  lemma ProxyValues(env: Env, additions: seq<string>, e: EnvVar)
    ensures e in ProxyVars(env, additions) <==>
              && e.value != ""
              && (|| (e.name == "HTTP_PROXY" && e.value == env.httpProxy)
                  || (e.name == "HTTPS_PROXY" && e.value == env.httpsProxy)
                  || (e.name == "NO_PROXY" && e.value == CommaJoined(NonEmpty([env.noProxy] + additions))))
  {
  }

  function EnvName(e: EnvVar): string { e.name }

  function Missing(env: seq<EnvVar>, vars: seq<EnvVar>): seq<EnvVar> {
    if vars == [] then []
    else Missing(env, vars[..|vars| - 1]) +
         (if vars[|vars| - 1].name in Elements(Keys(env, EnvName)) then [] else [vars[|vars| - 1]])
  }

  const CA_MOUNT := Mount(CA_VOLUME, CA_PATH, "", true)

  function CaVolume(env: Env): Volume {
    Volume(CA_VOLUME, Some(FileSource(env.caConfigMap, None, [("ca-bundle.crt", "tls-ca-bundle.pem")])),
           None, None, None, None, None, None)
  }

  predicate HasMount(mounts: seq<Mount>, name: string) {
    exists i :: 0 <= i < |mounts| && mounts[i].name == name
  }

  predicate HasVolume(volumes: seq<Volume>, name: string) {
    exists i :: 0 <= i < |volumes| && volumes[i].name == name
  }

  function ProxiedContainer(c: Container, env: Env, additions: seq<string>): Container {
    Equipped(c, env, ProxyVars(env, additions))
  }

  /** A container given the variables and the CA bundle mount it lacks, as far as they are wanted. */
  function Equipped(c: Container, env: Env, vars: seq<EnvVar>): Container {
    c.(env := if env.ProxyEnabled() then c.env + Missing(c.env, vars) else c.env,
       mounts := if env.CaConfigured() && !HasMount(c.mounts, CA_VOLUME) then c.mounts + [CA_MOUNT] else c.mounts)
  }

  function AllProxied(cs: seq<Container>, env: Env, additions: seq<string>): (r: seq<Container>)
    ensures |r| == |cs| && forall i :: 0 <= i < |cs| ==> r[i] == ProxiedContainer(cs[i], env, additions)
  {
    seq(|cs|, i requires 0 <= i < |cs| => ProxiedContainer(cs[i], env, additions))
  }

  function ProxiedPod(p: PodSpec, env: Env, additions: seq<string>): PodSpec {
    p.(containers := AllProxied(p.containers, env, additions),
       initContainers := AllProxied(p.initContainers, env, additions),
       volumes := if env.CaConfigured() && !HasVolume(p.volumes, CA_VOLUME) then p.volumes + [CaVolume(env)]
                  else p.volumes)
  }

  /** A pod template that is edited in place. */
  class PodTemplate {
    var pod: PodSpec

    constructor (pod: PodSpec)
      ensures this.pod == pod
    {
      this.pod := pod;
    }

    method AddProxyConfig(env: Env, additions: seq<string>)
      modifies this
      ensures pod == ProxiedPod(old(pod), env, additions)
    {
      if !env.ProxyEnabled() && !env.CaConfigured() {
        assert AllProxied(pod.containers, env, additions) == pod.containers;
        assert AllProxied(pod.initContainers, env, additions) == pod.initContainers;
        return;
      }
      var containers := AddToAll(pod.containers, env, additions);
      pod := pod.(containers := containers);
      var initContainers := AddToAll(pod.initContainers, env, additions);
      pod := pod.(initContainers := initContainers);
      if env.CaConfigured() {
        var volumeExists := false;
        for i := 0 to |pod.volumes|
          invariant volumeExists <==> exists j :: 0 <= j < i && pod.volumes[j].name == CA_VOLUME
        {
          if pod.volumes[i].name == CA_VOLUME {
            volumeExists := true;
            break;
          }
        }
        if !volumeExists {
          pod := pod.(volumes := pod.volumes + [CaVolume(env)]);
        }
      }
    }
  }

  method AddToAll(cs: seq<Container>, env: Env, additions: seq<string>) returns (r: seq<Container>)
    ensures r == AllProxied(cs, env, additions)
  {
    r := cs;
    for i := 0 to |cs|
      invariant |r| == |cs|
      invariant forall j :: 0 <= j < i ==> r[j] == ProxiedContainer(cs[j], env, additions)
      invariant forall j :: i <= j < |cs| ==> r[j] == cs[j]
    {
      var c := r[i];
      if env.ProxyEnabled() {
        c := InjectProxyEnvVars(c, env, additions);
      }
      if env.CaConfigured() {
        c := AddTrustedCaBundle(c, env);
      }
      r := r[i := c];
    }
  }

  method InjectProxyEnvVars(c: Container, env: Env, additions: seq<string>) returns (r: Container)
    ensures r == c.(env := c.env + Missing(c.env, ProxyVars(env, additions)))
  {
    var vars := GetProxyEnvVars(env, additions);
    if |vars| == 0 {
      assert c.env + [] == c.env;
      return c;
    }
    var existing := NamesIn(c.env);
    var out := AppendMissing(c.env, existing, vars);
    return c.(env := out);
  }

  method NamesIn(env: seq<EnvVar>) returns (names: set<string>)
    ensures names == Elements(Keys(env, EnvName))
  {
    names := {};
    for i := 0 to |env|
      invariant names == Elements(Keys(env[..i], EnvName))
    {
      assert Keys(env[..i + 1], EnvName) == Keys(env[..i], EnvName) + [env[i].name];
      names := names + {env[i].name};
    }
    assert env[..|env|] == env;
  }

  method AppendMissing(env: seq<EnvVar>, existing: set<string>, vars: seq<EnvVar>) returns (out: seq<EnvVar>)
    requires existing == Elements(Keys(env, EnvName))
    ensures out == env + Missing(env, vars)
  {
    out := env;
    for i := 0 to |vars|
      invariant out == env + Missing(env, vars[..i])
    {
      assert vars[..i + 1][..i] == vars[..i];
      if vars[i].name !in existing {
        out := out + [vars[i]];
      }
    }
    assert vars[..|vars|] == vars;
  }

  method AddTrustedCaBundle(c: Container, env: Env) returns (r: Container)
    ensures r == if env.CaConfigured() && !HasMount(c.mounts, CA_VOLUME) then c.(mounts := c.mounts + [CA_MOUNT]) else c
  {
    if !env.CaConfigured() {
      return c;
    }
    for i := 0 to |c.mounts|
      invariant forall j :: 0 <= j < i ==> c.mounts[j].name != CA_VOLUME
    {
      if c.mounts[i].name == CA_VOLUME {
        return c;
      }
    }
    return c.(mounts := c.mounts + [CA_MOUNT]);
  }

  // ---------- what injection guarantees ----------

  ghost predicate Defines(env: seq<EnvVar>, name: string) {
    name in Elements(Keys(env, EnvName))
  }

  lemma DefinesIn(env: seq<EnvVar>, name: string)
    ensures Defines(env, name) <==> exists e :: e in env && e.name == name
  {
    if Defines(env, name) {
      var i :| 0 <= i < |env| && Keys(env, EnvName)[i] == name;
      assert env[i] in env;
    }
    if e :| e in env && e.name == name {
      var i :| 0 <= i < |env| && env[i] == e;
      assert Keys(env, EnvName)[i] == name;
    }
  }

  lemma DistinctVars(env: Env, additions: seq<string>)
    ensures DistinctKeys(ProxyVars(env, additions), EnvName)
  {
    assert |HTTP_PROXY| == 10 && |HTTPS_PROXY| == 11 && |NO_PROXY| == 8;
  }

  lemma {:induction false} MissingFacts(env: seq<EnvVar>, vars: seq<EnvVar>)
    requires DistinctKeys(vars, EnvName)
    ensures forall v :: v in Missing(env, vars) <==> v in vars && !Defines(env, v.name)
    ensures DistinctKeys(Missing(env, vars), EnvName)
  {
    if vars != [] {
      var init, last := vars[..|vars| - 1], vars[|vars| - 1];
      assert vars == init + [last];
      MissingFacts(env, init);
      var m := Missing(env, vars);
      forall i, j | 0 <= i < j < |m| ensures EnvName(m[i]) != EnvName(m[j]) {
        if m[j] == last && i < |Missing(env, init)| {
          assert m[i] in Missing(env, init);
          var k :| 0 <= k < |init| && init[k] == m[i];
          assert EnvName(vars[k]) != EnvName(vars[|vars| - 1]);
        }
      }
    }
  }

  lemma HeadIsElement<T>(s: seq<T>)
    ensures s == [] || s[0] in s
  {
  }

  /** Per container: the old variables stay in front, names stay distinct, and every set proxy
      variable ends up defined; a second injection finds nothing missing. */
  lemma InjectionFacts(env: seq<EnvVar>, vars: seq<EnvVar>)
    requires DistinctKeys(vars, EnvName)
    ensures var out := env + Missing(env, vars);
            && env <= out && Missing(out, vars) == []
            && (forall v :: v in vars ==> Defines(out, v.name))
            && (DistinctKeys(env, EnvName) ==> DistinctKeys(out, EnvName))
  {
    var out := env + Missing(env, vars);
    MissingFacts(env, vars);
    MissingFacts(out, vars);
    forall v | v in vars ensures Defines(out, v.name) {
      DefinesIn(env, v.name);
      DefinesIn(out, v.name);
      if Defines(env, v.name) {
        var e :| e in env && e.name == v.name;
        assert e in out;
      } else {
        assert v in out;
      }
    }
    HeadIsElement(Missing(out, vars));
    if DistinctKeys(env, EnvName) {
      forall i, j | 0 <= i < j < |out| ensures EnvName(out[i]) != EnvName(out[j]) {
        if i < |env| <= j {
          assert out[j] in Missing(env, vars) && out[i] in env;
          DefinesIn(env, out[j].name);
        } else if |env| <= i {
          assert out[i] == Missing(env, vars)[i - |env|] && out[j] == Missing(env, vars)[j - |env|];
        } else {
          assert out[i] == env[i] && out[j] == env[j];
        }
      }
    }
  }

  lemma ContainerFacts(c: Container, env: Env, additions: seq<string>)
    ensures var p := ProxiedContainer(c, env, additions);
            && ProxiedContainer(p, env, additions) == p
            && c.env <= p.env && c.mounts <= p.mounts && p.(env := c.env, mounts := c.mounts) == c
            && (DistinctKeys(c.env, EnvName) ==> DistinctKeys(p.env, EnvName))
            && (env.httpProxy != "" || env.httpsProxy != "" ==>
                  forall v :: v in ProxyVars(env, additions) ==> Defines(p.env, v.name))
            && (env.httpProxy == "" && env.httpsProxy == "" ==> p.env == c.env)
            && (forall e :: e in p.env ==> e in c.env || e in ProxyVars(env, additions))
            && (env.caConfigMap != "" ==> HasMount(p.mounts, "trusted-ca-bundle"))
            && (forall n :: n in p.mounts ==>
                  n in c.mounts || (env.caConfigMap != ""
                                    && n == Mount("trusted-ca-bundle", "/etc/pki/ca-trust/extracted/pem", "", true)))
  {
    DistinctVars(env, additions);
    EquippedFacts(c, env, ProxyVars(env, additions));
  }

  lemma EquippedFacts(c: Container, env: Env, vars: seq<EnvVar>)
    requires DistinctKeys(vars, EnvName)
    ensures var p := Equipped(c, env, vars);
            && Equipped(p, env, vars) == p
            && c.env <= p.env && c.mounts <= p.mounts && p.(env := c.env, mounts := c.mounts) == c
            && (DistinctKeys(c.env, EnvName) ==> DistinctKeys(p.env, EnvName))
            && (env.ProxyEnabled() ==> forall v :: v in vars ==> Defines(p.env, v.name))
            && (forall e :: e in p.env ==> e in c.env || (env.ProxyEnabled() && e in vars))
            && (env.CaConfigured() ==> HasMount(p.mounts, CA_VOLUME))
            && (forall n :: n in p.mounts ==> n in c.mounts || (env.CaConfigured() && n == CA_MOUNT))
  {
    var p := Equipped(c, env, vars);
    InjectionFacts(c.env, vars);
    MissingFacts(c.env, vars);
    assert p.env + [] == p.env;
    if env.CaConfigured() && !HasMount(c.mounts, CA_VOLUME) {
      assert p.mounts[|c.mounts|].name == CA_VOLUME;
    }
  }

  /** Injecting into a pod twice is injecting once. */
  lemma InjectionIdempotent(p: PodSpec, env: Env, additions: seq<string>)
    ensures ProxiedPod(ProxiedPod(p, env, additions), env, additions) == ProxiedPod(p, env, additions)
  {
    var q := ProxiedPod(p, env, additions);
    forall i | 0 <= i < |p.containers| { ContainerFacts(p.containers[i], env, additions); }
    forall i | 0 <= i < |p.initContainers| { ContainerFacts(p.initContainers[i], env, additions); }
    assert AllProxied(q.containers, env, additions) == q.containers;
    assert AllProxied(q.initContainers, env, additions) == q.initContainers;
    if env.CaConfigured() && !HasVolume(p.volumes, CA_VOLUME) {
      assert q.volumes[|p.volumes|].name == CA_VOLUME;
    }
  }

  lemma VolumeThere(volumes: seq<Volume>, name: string)
    ensures HasVolume(volumes, name) <==> exists v :: v in volumes && v.name == name
  {
    if i :| 0 <= i < |volumes| && volumes[i].name == name {
      assert volumes[i] in volumes;
    }
    if v :| v in volumes && v.name == name {
      var i :| 0 <= i < |volumes| && volumes[i] == v;
    }
  }

  /** The volume of the CA bundle is declared iff one is configured, and is there once; nothing else of the pod
      changes but the containers, and those are proxied each for itself. */
  lemma InjectionExactly(p: PodSpec, env: Env, additions: seq<string>)
    ensures var q := ProxiedPod(p, env, additions);
            && q.(containers := p.containers, initContainers := p.initContainers, volumes := p.volumes) == p
            && q.volumes == p.volumes +
                 (if env.caConfigMap == "" || exists v :: v in p.volumes && v.name == "trusted-ca-bundle" then []
                  else [Volume("trusted-ca-bundle",
                               Some(FileSource(env.caConfigMap, None, [("ca-bundle.crt", "tls-ca-bundle.pem")])),
                               None, None, None, None, None, None)])
            && |q.containers| == |p.containers| && |q.initContainers| == |p.initContainers|
            && (forall i :: 0 <= i < |p.containers| ==>
                  q.containers[i] == ProxiedContainer(p.containers[i], env, additions))
            && (forall i :: 0 <= i < |p.initContainers| ==>
                  q.initContainers[i] == ProxiedContainer(p.initContainers[i], env, additions))
  {
    VolumeThere(p.volumes, CA_VOLUME);
  }

  ghost predicate MountsNamed(c: Container, names: set<string>) {
    forall m :: m in c.mounts ==> m.name in names
  }

  ghost function VolumeNames(p: PodSpec): set<string> {
    Elements(Keys(p.volumes, VolumeName))
  }

  /** Every mount names a declared volume, or a volume claim of the workload. */
  ghost predicate MountsDeclared(p: PodSpec, claims: set<string>) {
    && (forall c :: c in p.containers ==> MountsNamed(c, VolumeNames(p) + claims))
    && (forall c :: c in p.initContainers ==> MountsNamed(c, VolumeNames(p) + claims))
  }

  lemma ProxiedNames(p: PodSpec, env: Env, additions: seq<string>)
    ensures VolumeNames(p) <= VolumeNames(ProxiedPod(p, env, additions))
    ensures env.CaConfigured() ==> CA_VOLUME in VolumeNames(ProxiedPod(p, env, additions))
  {
    var q := ProxiedPod(p, env, additions);
    var ps, qs := Keys(p.volumes, VolumeName), Keys(q.volumes, VolumeName);
    forall n | n in ps ensures n in qs {
      var i :| 0 <= i < |ps| && ps[i] == n;
      assert qs[i] == n;
    }
    if env.CaConfigured() {
      if HasVolume(p.volumes, CA_VOLUME) {
        var i :| 0 <= i < |p.volumes| && p.volumes[i].name == CA_VOLUME;
        assert qs[i] == CA_VOLUME;
      } else {
        assert qs[|p.volumes|] == CA_VOLUME;
      }
    }
  }

  /** Injection leaves no mount dangling. */
  lemma InjectionKeepsMountsDeclared(p: PodSpec, env: Env, additions: seq<string>, claims: set<string>)
    requires MountsDeclared(p, claims)
    ensures MountsDeclared(ProxiedPod(p, env, additions), claims)
  {
    ProxiedNames(p, env, additions);
    var q := ProxiedPod(p, env, additions);
    MountsStayNamed(p.containers, env, additions, VolumeNames(p) + claims, VolumeNames(q) + claims);
    MountsStayNamed(p.initContainers, env, additions, VolumeNames(p) + claims, VolumeNames(q) + claims);
  }

  lemma MountsStayNamed(cs: seq<Container>, env: Env, additions: seq<string>, names: set<string>, more: set<string>)
    requires forall c :: c in cs ==> MountsNamed(c, names)
    requires names <= more && (env.CaConfigured() ==> CA_VOLUME in more)
    ensures forall c :: c in AllProxied(cs, env, additions) ==> MountsNamed(c, more)
  {
    var out := AllProxied(cs, env, additions);
    forall c | c in out ensures MountsNamed(c, more) {
      var i :| 0 <= i < |out| && out[i] == c;
      assert cs[i] in cs && MountsNamed(cs[i], names);
    }
  }

  /** Injection gives no two volumes one name, and keeps the container names. */
  lemma InjectionKeepsNamesDistinct(p: PodSpec, env: Env, additions: seq<string>)
    requires DistinctKeys(p.volumes, VolumeName)
    ensures var q := ProxiedPod(p, env, additions);
            && DistinctKeys(q.volumes, VolumeName)
            && Keys(q.containers, ContainerName) == Keys(p.containers, ContainerName)
            && Keys(q.initContainers, ContainerName) == Keys(p.initContainers, ContainerName)
  {
  }
}
