/** Pod templates and StatefulSets, as far as the operator sets or compares them. */
module Pods {
  import opened Wrappers

  datatype EnvVar = EnvVar(name: string, value: string)
  datatype Port = Port(name: string, number: int, protocol: string)
  datatype Mount = Mount(name: string, path: string, subPath: string, readOnly: bool)
  datatype HttpGet = HttpGet(path: string, port: string, scheme: string)
  datatype Probe = Probe(httpGet: Option<HttpGet>, timing: string)

  datatype Container = Container(
    name: string, image: string, pullPolicy: string, command: seq<string>, args: seq<string>,
    env: seq<EnvVar>, ports: seq<Port>, readiness: Option<Probe>, liveness: Option<Probe>,
    security: Option<string>, mounts: seq<Mount>, resources: string)

  datatype FileSource = FileSource(name: string, mode: Option<int>, items: seq<(string, string)>)

  datatype Volume = Volume(
    name: string, configMap: Option<FileSource>, secret: Option<FileSource>, emptyDir: Option<string>,
    hostPath: Option<string>, claim: Option<string>, projected: Option<string>, csi: Option<string>)

  datatype PodSpec = PodSpec(
    serviceAccount: string, shareProcessNamespace: Option<bool>, dnsPolicy: string,
    nodeSelector: map<string, string>, affinity: Option<string>, tolerations: seq<string>,
    volumes: seq<Volume>, containers: seq<Container>, initContainers: seq<Container>)

  datatype Claim = Claim(name: string, accessModes: seq<string>, requests: map<string, string>,
                         storageClass: Option<string>)

  datatype StatefulSet = StatefulSet(
    replicas: Option<int>, serviceName: string, selector: map<string, string>, labels: map<string, string>,
    annotations: map<string, string>, pod: PodSpec, claims: seq<Claim>)

  function ContainerName(c: Container): string { c.name }
  function VolumeName(v: Volume): string { v.name }

  /** Ports are indexed by the text "number/protocol"; digits never contain the slash, so the text
      stands for this pair. */
  function PortKey(p: Port): (int, string) { (p.number, p.protocol) }

  const DEFAULT_CONTAINER_KEY := "kubectl.kubernetes.io/default-container"
  const SERVER_HASH_KEY := "ztwim.openshift.io/spire-server-config-hash"
  const MANAGER_HASH_KEY := "ztwim.openshift.io/spire-controller-manager-config-hash"

  /** A missing key reads as the empty string. */
  function Lookup(m: map<string, string>, k: string): string {
    if k in m then m[k] else ""
  }
}

/** The comparison engine: decides by lengths and lookups whether a stored object must be rewritten. */
module Comparison {
  import opened Wrappers
  import opened KeyedLists
  import opened Pods

  // ---------- order-independent list comparison ----------

  /** The length-plus-membership test on two lists of strings, volume types or reference names. */
  method StringSlicesEqual<T(==)>(existing: seq<T>, desired: seq<T>) returns (equal: bool)
    ensures equal <==> SlicesEqual(existing, desired)
  {
    if |existing| != |desired| {
      return false;
    }
    var existingSet := {};
    for i := 0 to |existing|
      invariant existingSet == Elements(existing[..i])
    {
      assert existing[..i + 1] == existing[..i] + [existing[i]];
      existingSet := existingSet + {existing[i]};
    }
    assert existing[..|existing|] == existing;
    for i := 0 to |desired|
      invariant forall x :: x in desired[..i] ==> x in existing
    {
      assert desired[..i + 1] == desired[..i] + [desired[i]];
      if desired[i] !in existingSet {
        assert desired[i] in desired;
        return false;
      }
    }
    assert desired[..|desired|] == desired;
    return true;
  }

  ghost predicate SlicesEqual<T>(existing: seq<T>, desired: seq<T>) {
    |existing| == |desired| && forall x :: x in desired ==> x in existing
  }

  lemma SlicesEqualIsPermutation<T>(existing: seq<T>, desired: seq<T>)
    requires Distinct(desired)
    ensures SlicesEqual(existing, desired) <==> Permutation(existing, desired)
  {
    if SlicesEqual(existing, desired) {
      CoverIsPermutation(existing, desired);
    }
    if Permutation(existing, desired) {
      PermutationElements(existing, desired);
    }
  }

  /** The test decides permutation for every existing list exactly when the desired list has no
      duplicate; with one, replacing a copy by anything else goes unnoticed. */
  lemma SlicesEqualExactlyForDistinct(desired: seq<string>)
    ensures (forall existing: seq<string> :: SlicesEqual(existing, desired) <==> Permutation(existing, desired))
            <==> Distinct(desired)
  {
    if Distinct(desired) {
      forall existing: seq<string> { SlicesEqualIsPermutation(existing, desired); }
    } else {
      var i, j :| 0 <= i < j < |desired| && desired[i] == desired[j];
      var other := desired[j] + "x";
      assert |other| != |desired[j]|;
      ReplacingADuplicate(desired, i, j, other);
      assert SlicesEqual(desired[j := other], desired) && !Permutation(desired[j := other], desired);
    }
  }

  // ---------- lookups by name ----------

  method Index<K(==), V>(s: seq<V>, key: V -> K) returns (m: map<K, V>)
    ensures m == ByKey(s, key)
  {
    m := map[];
    for i := 0 to |s|
      invariant m == ByKey(s[..i], key)
    {
      assert s[..i + 1][..i] == s[..i];
      m := m[key(s[i]) := s[i]];
    }
    assert s[..|s|] == s;
  }

  /** Every desired element is found under its key with a matching value. */
  ghost predicate ListMatches<K, V>(fetched: seq<V>, desired: seq<V>, key: V -> K, matches: (V, V) -> bool) {
    && |fetched| == |desired|
    && forall d :: d in desired ==> key(d) in ByKey(fetched, key) && matches(ByKey(fetched, key)[key(d)], d)
  }

  /** The same test driven by the map of the desired list, which forgets all but the last of a key. */
  ghost predicate MapMatches<K, V>(fetched: seq<V>, desired: seq<V>, key: V -> K, matches: (V, V) -> bool) {
    |fetched| == |desired| && LookupMatches(ByKey(fetched, key), ByKey(desired, key), matches)
  }

  lemma ListIsMap<K, V>(fetched: seq<V>, desired: seq<V>, key: V -> K, matches: (V, V) -> bool)
    requires DistinctKeys(desired, key)
    ensures ListMatches(fetched, desired, key, matches) <==> MapMatches(fetched, desired, key, matches)
  {
    ByKeyExact(desired, key);
    ByKeySound(desired, key);
    if MapMatches(fetched, desired, key, matches) {
      forall d | d in desired
        ensures key(d) in ByKey(fetched, key) && matches(ByKey(fetched, key)[key(d)], d)
      {
        assert ByKey(desired, key)[key(d)] == d;
      }
    }
  }

  /** Neither list's order matters when both have distinct keys. */
  lemma MapMatchesPermuted<K, V>(f: seq<V>, d: seq<V>, f': seq<V>, d': seq<V>, key: V -> K, matches: (V, V) -> bool)
    requires DistinctKeys(f, key) && DistinctKeys(d, key)
    requires Permutation(f, f') && Permutation(d, d')
    ensures MapMatches(f, d, key, matches) <==> MapMatches(f', d', key, matches)
    ensures DistinctKeys(d', key)
  {
    ByKeyPermutation(f, f', key);
    ByKeyPermutation(d, d', key);
    PermutationElements(f, f');
    PermutationElements(d, d');
  }

  // ---------- containers ----------

  ghost predicate ProbeMatches(f: Option<Probe>, d: Option<Probe>) {
    f.Some? == d.Some? && (d.Some? ==> f.value.httpGet == d.value.httpGet)
  }

  predicate SamePort(f: Port, d: Port) { f == d }

  /** All fields a container comparison looks at agree. */
  ghost predicate ContainerMatches(f: Container, d: Container) {
    && f.name == d.name && f.image == d.image && f.pullPolicy == d.pullPolicy
    && f.command == d.command && f.args == d.args && f.env == d.env
    && ListMatches(f.ports, d.ports, PortKey, SamePort)
    && ProbeMatches(f.readiness, d.readiness) && ProbeMatches(f.liveness, d.liveness)
    && f.security == d.security && f.mounts == d.mounts && f.resources == d.resources
  }

  /** The probe that is wanted, at the times of the fetched one. */
  function Timed(d: Option<Probe>, f: Option<Probe>): Option<Probe> {
    if d.Some? && f.Some? then Some(Probe(d.value.httpGet, f.value.timing)) else d
  }

  /** The container that is wanted, with the ports and the probe times of the fetched one. */
  function WithPortsOf(d: Container, f: Container): Container {
    d.(ports := f.ports, readiness := Timed(d.readiness, f.readiness), liveness := Timed(d.liveness, f.liveness))
  }

  method PortsEqual(fetched: seq<Port>, desired: seq<Port>) returns (equal: bool)
    ensures equal <==> ListMatches(fetched, desired, PortKey, SamePort)
  {
    if |desired| != |fetched| {
      return false;
    }
    var fetchedByKey := Index(fetched, PortKey);
    for i := 0 to |desired|
      invariant forall d :: d in desired[..i] ==> PortKey(d) in fetchedByKey && fetchedByKey[PortKey(d)] == d
    {
      assert desired[..i + 1] == desired[..i] + [desired[i]] && desired[i] in desired;
      if PortKey(desired[i]) !in fetchedByKey || fetchedByKey[PortKey(desired[i])] != desired[i] {
        return false;
      }
    }
    assert desired[..|desired|] == desired;
    return true;
  }

  method ContainerSpecModified(fetched: Container, desired: Container) returns (modified: bool)
    ensures modified <==> !ContainerMatches(fetched, desired)
    // No field but the ports and the probe times may differ, and of the ports only their order.
    ensures modified <==> fetched != WithPortsOf(desired, fetched)
                          || !ListMatches(fetched.ports, desired.ports, PortKey, SamePort)
  {
    if desired.name != fetched.name || desired.image != fetched.image || desired.pullPolicy != fetched.pullPolicy {
      return true;
    }
    if desired.command != fetched.command || desired.args != fetched.args || desired.env != fetched.env {
      return true;
    }
    var portsEqual := PortsEqual(fetched.ports, desired.ports);
    if !portsEqual {
      return true;
    }
    if desired.readiness.None? != fetched.readiness.None? {
      return true;
    }
    if desired.readiness.Some? && fetched.readiness.Some? &&
       desired.readiness.value.httpGet != fetched.readiness.value.httpGet {
      return true;
    }
    if desired.liveness.None? != fetched.liveness.None? {
      return true;
    }
    if desired.liveness.Some? && fetched.liveness.Some? &&
       desired.liveness.value.httpGet != fetched.liveness.value.httpGet {
      return true;
    }
    if desired.security.None? != fetched.security.None? {
      return true;
    }
    if desired.security.Some? && desired.security != fetched.security {
      return true;
    }
    return desired.mounts != fetched.mounts || desired.resources != fetched.resources;
  }

  method ContainersEqual(fetched: seq<Container>, desired: seq<Container>) returns (equal: bool)
    ensures equal <==> MapMatches(fetched, desired, ContainerName, ContainerMatches)
  {
    if |desired| != |fetched| {
      return false;
    }
    var dMap := Index(desired, ContainerName);
    var fMap := Index(fetched, ContainerName);
    var todo := dMap.Keys;
    while todo != {}
      invariant todo <= dMap.Keys
      invariant forall k :: k in dMap && k !in todo ==> k in fMap && ContainerMatches(fMap[k], dMap[k])
      decreases todo
    {
      var name :| name in todo;
      if name !in fMap {
        return false;
      }
      var modified := ContainerSpecModified(fMap[name], dMap[name]);
      if modified {
        return false;
      }
      todo := todo - {name};
    }
    return true;
  }

  // ---------- volumes ----------

  ghost predicate FilesMatch(f: Option<FileSource>, d: Option<FileSource>) {
    d.Some? ==> && f.Some? && f.value.name == d.value.name && f.value.items == d.value.items
                && (d.value.mode.Some? ==> f.value.mode == d.value.mode)
  }

  /** Each source the desired volume sets is set alike in the fetched one. */
  ghost predicate VolumeMatches(f: Volume, d: Volume) {
    && f.name == d.name
    && FilesMatch(f.configMap, d.configMap) && FilesMatch(f.secret, d.secret)
    && (d.emptyDir.Some? ==> f.emptyDir.Some?)
    && (d.hostPath.Some? ==> f.hostPath == d.hostPath)
    && (d.claim.Some? ==> f.claim == d.claim)
    && (d.projected.Some? ==> f.projected == d.projected)
    && (d.csi.Some? ==> f.csi == d.csi)
  }

  function Asked<T>(f: Option<T>, d: Option<T>): Option<T> {
    if d.Some? then f else None
  }

  function AskedFiles(f: Option<FileSource>, d: Option<FileSource>): Option<FileSource> {
    if d.Some? && f.Some? then Some(f.value.(mode := Asked(f.value.mode, d.value.mode))) else None
  }

  /** The fetched volume, cut down to what the desired one asks for: of an empty directory, that it is one. */
  function CutTo(f: Volume, d: Volume): Volume {
    Volume(f.name, AskedFiles(f.configMap, d.configMap), AskedFiles(f.secret, d.secret),
           if f.emptyDir.Some? then d.emptyDir else None, Asked(f.hostPath, d.hostPath), Asked(f.claim, d.claim),
           Asked(f.projected, d.projected), Asked(f.csi, d.csi))
  }

  method FilesEqual(fetched: Option<FileSource>, desired: Option<FileSource>) returns (equal: bool)
    ensures equal <==> FilesMatch(fetched, desired)
  {
    if desired.Some? {
      if fetched.None? || desired.value.name != fetched.value.name {
        return false;
      }
      if desired.value.mode.Some? && desired.value.mode != fetched.value.mode {
        return false;
      }
      return desired.value.items == fetched.value.items;
    }
    return true;
  }

  method VolumesEqual(fetched: seq<Volume>, desired: seq<Volume>) returns (equal: bool)
    ensures equal <==> ListMatches(fetched, desired, VolumeName, VolumeMatches)
    // Each desired volume is what is left of the fetched one of its name.
    ensures equal <==> ListMatches(fetched, desired, VolumeName, (f, d) => CutTo(f, d) == d)
  {
    if |desired| == 0 && |fetched| == 0 {
      return true;
    }
    if |desired| != |fetched| {
      return false;
    }
    var fetchedMap := Index(fetched, VolumeName);
    ByKeySound(fetched, VolumeName);
    for i := 0 to |desired|
      invariant forall d :: d in desired[..i] ==>
                  VolumeName(d) in fetchedMap && VolumeMatches(fetchedMap[VolumeName(d)], d)
    {
      assert desired[..i + 1] == desired[..i] + [desired[i]] && desired[i] in desired;
      var d := desired[i];
      if d.name !in fetchedMap {
        return false;
      }
      var f := fetchedMap[d.name];
      var configMaps := FilesEqual(f.configMap, d.configMap);
      var secrets := FilesEqual(f.secret, d.secret);
      if !configMaps || !secrets {
        return false;
      }
      if d.emptyDir.Some? && f.emptyDir.None? {
        return false;
      }
      if (d.hostPath.Some? && f.hostPath != d.hostPath) || (d.claim.Some? && f.claim != d.claim) {
        return false;
      }
      if (d.projected.Some? && f.projected != d.projected) || (d.csi.Some? && f.csi != d.csi) {
        return false;
      }
    }
    assert desired[..|desired|] == desired;
    return true;
  }

  // ---------- StatefulSets ----------

  ghost predicate ClaimMatches(f: Claim, d: Claim) {
    f.name == d.name && f.accessModes == d.accessModes && f.requests == d.requests
  }

  ghost predicate PodScalarsMatch(f: PodSpec, d: PodSpec) {
    && f.serviceAccount == d.serviceAccount && f.shareProcessNamespace == d.shareProcessNamespace
    && (d.dnsPolicy != "" ==> f.dnsPolicy == d.dnsPolicy)
    && f.nodeSelector == d.nodeSelector && f.affinity == d.affinity && f.tolerations == d.tolerations
  }

  ghost predicate ScalarsMatch(f: StatefulSet, d: StatefulSet) {
    && (d.replicas.Some? && f.replicas.Some? ==> f.replicas == d.replicas)
    && f.serviceName == d.serviceName && f.selector == d.selector && f.labels == d.labels
    && Lookup(f.annotations, DEFAULT_CONTAINER_KEY) == Lookup(d.annotations, DEFAULT_CONTAINER_KEY)
    && Lookup(f.annotations, SERVER_HASH_KEY) == Lookup(d.annotations, SERVER_HASH_KEY)
    && Lookup(f.annotations, MANAGER_HASH_KEY) == Lookup(d.annotations, MANAGER_HASH_KEY)
    && PodScalarsMatch(f.pod, d.pod)
    && |f.claims| == |d.claims| && forall i :: 0 <= i < |d.claims| ==> ClaimMatches(f.claims[i], d.claims[i])
  }

  ghost predicate ListsMatch(f: PodSpec, d: PodSpec) {
    && ListMatches(f.volumes, d.volumes, VolumeName, VolumeMatches)
    && MapMatches(f.containers, d.containers, ContainerName, ContainerMatches)
    && MapMatches(f.initContainers, d.initContainers, ContainerName, ContainerMatches)
  }

  /** The pod that is wanted, with the lists of the fetched one, and its DNS policy if none is asked for. */
  function WithListsOf(d: PodSpec, f: PodSpec): PodSpec {
    d.(volumes := f.volumes, containers := f.containers, initContainers := f.initContainers,
       dnsPolicy := if d.dnsPolicy == "" then f.dnsPolicy else d.dnsPolicy)
  }

  /** The StatefulSet that is wanted, with the pod, the annotations, the claims' storage classes and, if it does
      not count both, the replicas of the fetched one. */
  ghost predicate SameButLists(f: StatefulSet, d: StatefulSet) {
    && f == d.(annotations := f.annotations, pod := f.pod, claims := f.claims,
               replicas := if d.replicas.Some? && f.replicas.Some? then d.replicas else f.replicas)
    && f.pod == WithListsOf(d.pod, f.pod)
    && |f.claims| == |d.claims|
    && (forall i :: 0 <= i < |f.claims| ==> f.claims[i] == d.claims[i].(storageClass := f.claims[i].storageClass))
    && (forall k :: k in ["kubectl.kubernetes.io/default-container", "ztwim.openshift.io/spire-server-config-hash",
                          "ztwim.openshift.io/spire-controller-manager-config-hash"] ==>
          Lookup(f.annotations, k) == Lookup(d.annotations, k))
  }

  lemma ScalarsExactly(f: StatefulSet, d: StatefulSet)
    ensures ScalarsMatch(f, d) <==> SameButLists(f, d)
  {
    var keys := ["kubectl.kubernetes.io/default-container", "ztwim.openshift.io/spire-server-config-hash",
                 "ztwim.openshift.io/spire-controller-manager-config-hash"];
    assert keys[0] == DEFAULT_CONTAINER_KEY && keys[1] == SERVER_HASH_KEY && keys[2] == MANAGER_HASH_KEY;
  }

  method StatefulSetNeedsUpdate(fetched: StatefulSet, desired: StatefulSet) returns (needed: bool)
    ensures needed <==> !(ScalarsMatch(fetched, desired) && ListsMatch(fetched.pod, desired.pod))
    ensures needed <==> !(SameButLists(fetched, desired) && ListsMatch(fetched.pod, desired.pod))
  {
    ScalarsExactly(fetched, desired);
    if desired.replicas.Some? && fetched.replicas.Some? && desired.replicas != fetched.replicas {
      return true;
    }
    if desired.serviceName != fetched.serviceName || desired.selector != fetched.selector
       || desired.labels != fetched.labels {
      return true;
    }
    var keys := [DEFAULT_CONTAINER_KEY, SERVER_HASH_KEY, MANAGER_HASH_KEY];
    for i := 0 to 3
      invariant forall j :: 0 <= j < i ==> Lookup(desired.annotations, keys[j]) == Lookup(fetched.annotations, keys[j])
    {
      if Lookup(desired.annotations, keys[i]) != Lookup(fetched.annotations, keys[i]) {
        return true;
      }
    }
    assert forall j :: 0 <= j < 3 ==> Lookup(desired.annotations, keys[j]) == Lookup(fetched.annotations, keys[j]);
    assert keys[0] == DEFAULT_CONTAINER_KEY && keys[1] == SERVER_HASH_KEY && keys[2] == MANAGER_HASH_KEY;
    var d, f := desired.pod, fetched.pod;
    var scalars := PodScalarsEqual(f, d);
    if !scalars {
      return true;
    }
    var volumes := VolumesEqual(f.volumes, d.volumes);
    if !volumes {
      return true;
    }
    var containers := ContainersEqual(f.containers, d.containers);
    if !containers {
      return true;
    }
    var initContainers := ContainersEqual(f.initContainers, d.initContainers);
    if !initContainers {
      return true;
    }
    var claims := ClaimsEqual(fetched.claims, desired.claims);
    return !claims;
  }

  method ClaimsEqual(fetched: seq<Claim>, desired: seq<Claim>) returns (equal: bool)
    ensures equal <==> |fetched| == |desired| && forall i :: 0 <= i < |desired| ==> ClaimMatches(fetched[i], desired[i])
  {
    if |desired| != |fetched| {
      return false;
    }
    for i := 0 to |desired|
      invariant forall j :: 0 <= j < i ==> ClaimMatches(fetched[j], desired[j])
    {
      var dvc, fvc := desired[i], fetched[i];
      if dvc.name != fvc.name || dvc.accessModes != fvc.accessModes || dvc.requests != fvc.requests {
        return false;
      }
    }
    return true;
  }

  method PodScalarsEqual(f: PodSpec, d: PodSpec) returns (equal: bool)
    ensures equal <==> PodScalarsMatch(f, d)
  {
    if d.serviceAccount != f.serviceAccount || d.shareProcessNamespace != f.shareProcessNamespace {
      return false;
    }
    if d.dnsPolicy != "" && d.dnsPolicy != f.dnsPolicy {
      return false;
    }
    if |d.nodeSelector| != |f.nodeSelector| || (|d.nodeSelector| > 0 && d.nodeSelector != f.nodeSelector) {
      return false;
    }
    if d.affinity != f.affinity {
      return false;
    }
    if |d.tolerations| != |f.tolerations| || (|d.tolerations| > 0 && d.tolerations != f.tolerations) {
      return false;
    }
    return true;
  }

  ghost predicate DistinctNames(p: PodSpec) {
    DistinctKeys(p.volumes, VolumeName) && DistinctKeys(p.containers, ContainerName)
    && DistinctKeys(p.initContainers, ContainerName)
  }

  /** No update needed means that containers, init containers and volumes pair off one to one by name
      with matching fields, and the other way round: nothing extra in the stored pod escapes. */
  lemma ListsMatchIsBijection(f: PodSpec, d: PodSpec)
    requires DistinctNames(d)
    ensures ListsMatch(f, d) <==>
              && (exists p :: Pairing(p, f.volumes, d.volumes, VolumeMatches))
              && (exists p :: Pairing(p, f.containers, d.containers, ContainerMatches))
              && (exists p :: Pairing(p, f.initContainers, d.initContainers, ContainerMatches))
  {
    ListIsMap(f.volumes, d.volumes, VolumeName, VolumeMatches);
    LookupIsPairing(f.volumes, d.volumes, VolumeName, VolumeMatches);
    LookupIsPairing(f.containers, d.containers, ContainerName, ContainerMatches);
    LookupIsPairing(f.initContainers, d.initContainers, ContainerName, ContainerMatches);
  }

  /** Inside a matched container the ports pair off as well, equal in every field. */
  lemma PortsArePermuted(f: Container, d: Container)
    requires ContainerMatches(f, d) && DistinctKeys(d.ports, PortKey)
    ensures Permutation(f.ports, d.ports)
  {
    ByKeySound(f.ports, PortKey);
    forall i, j | 0 <= i < j < |d.ports| ensures d.ports[i] != d.ports[j] {
      assert PortKey(d.ports[i]) != PortKey(d.ports[j]);
    }
    CoverIsPermutation(f.ports, d.ports);
  }

  ghost predicate PodPermuted(p: PodSpec, q: PodSpec) {
    && Permutation(p.volumes, q.volumes) && Permutation(p.containers, q.containers)
    && Permutation(p.initContainers, q.initContainers)
  }

  /** With distinct names on both sides the answer does not depend on the order of any list. */
  lemma ListsMatchPermuted(f: PodSpec, d: PodSpec, f': PodSpec, d': PodSpec)
    requires DistinctNames(f) && DistinctNames(d) && PodPermuted(f, f') && PodPermuted(d, d')
    ensures ListsMatch(f, d) <==> ListsMatch(f', d')
  {
    MapMatchesPermuted(f.volumes, d.volumes, f'.volumes, d'.volumes, VolumeName, VolumeMatches);
    MapMatchesPermuted(f.containers, d.containers, f'.containers, d'.containers, ContainerName, ContainerMatches);
    MapMatchesPermuted(f.initContainers, d.initContainers, f'.initContainers, d'.initContainers, ContainerName,
                       ContainerMatches);
    ListIsMap(f.volumes, d.volumes, VolumeName, VolumeMatches);
    ListIsMap(f'.volumes, d'.volumes, VolumeName, VolumeMatches);
  }

  /** A desired port without a protocol is never matched once the API server fills protocols in, so
      a StatefulSet that asks for one is rewritten by every reconciliation. */
  lemma UnsetProtocolNeverMatches(f: PodSpec, d: PodSpec, c: Container, p: Port)
    requires DistinctNames(d) && c in d.containers && p in c.ports && p.protocol == ""
    requires forall fc, fp :: fc in f.containers && fp in fc.ports ==> fp.protocol != ""
    ensures !ListsMatch(f, d)
  {
    ByKeyExact(d.containers, ContainerName);
    ByKeySound(f.containers, ContainerName);
    if ListsMatch(f, d) {
      assert ByKey(d.containers, ContainerName)[c.name] == c;
      var fc := ByKey(f.containers, ContainerName)[c.name];
      assert ContainerMatches(fc, c) && fc in f.containers;
      ByKeySound(fc.ports, PortKey);
    }
  }

  // ---------- a pod against its own form with defaults filled in ----------

  function FilledPort(p: Port): Port { if p.protocol == "" then p.(protocol := "TCP") else p }

  function FilledProbe(o: Option<Probe>): Option<Probe> {
    if o.Some? && o.value.httpGet.Some? && o.value.httpGet.value.scheme == ""
    then Some(o.value.(httpGet := Some(o.value.httpGet.value.(scheme := "HTTP")))) else o
  }

  function FilledPorts(ports: seq<Port>): (r: seq<Port>)
    ensures |r| == |ports| && forall i :: 0 <= i < |r| ==> r[i] == FilledPort(ports[i])
  {
    seq(|ports|, i requires 0 <= i < |ports| => FilledPort(ports[i]))
  }

  function FilledContainer(c: Container): Container {
    c.(ports := FilledPorts(c.ports), readiness := FilledProbe(c.readiness), liveness := FilledProbe(c.liveness))
  }

  function FilledAll(cs: seq<Container>): (r: seq<Container>)
    ensures |r| == |cs| && forall i :: 0 <= i < |r| ==> r[i] == FilledContainer(cs[i])
  {
    seq(|cs|, i requires 0 <= i < |cs| => FilledContainer(cs[i]))
  }

  /** The pod as an API server stores it that fills in port protocols and probe schemes. */
  function FilledPod(p: PodSpec): PodSpec {
    p.(containers := FilledAll(p.containers), initContainers := FilledAll(p.initContainers))
  }

  ghost predicate ProbeSet(o: Option<Probe>) {
    o.Some? && o.value.httpGet.Some? ==> o.value.httpGet.value.scheme != ""
  }

  /** The container leaves no protocol and no probe scheme to be filled in. */
  ghost predicate NothingUnset(c: Container) {
    (forall p :: p in c.ports ==> p.protocol != "") && ProbeSet(c.readiness) && ProbeSet(c.liveness)
  }

  ghost predicate DistinctPorts(cs: seq<Container>) {
    forall c :: c in cs ==> DistinctKeys(c.ports, PortKey)
  }

  lemma FilledPortsMatch(ports: seq<Port>)
    requires DistinctKeys(ports, PortKey)
    ensures ListMatches(FilledPorts(ports), ports, PortKey, SamePort) <==> forall p :: p in ports ==> p.protocol != ""
  {
    var filled := FilledPorts(ports);
    ByKeySound(filled, PortKey);
    if forall p :: p in ports ==> p.protocol != "" {
      assert filled == ports;
      ByKeyExact(ports, PortKey);
    } else {
      var p :| p in ports && p.protocol == "";
      assert forall q :: q in filled ==> q.protocol != "";
      assert PortKey(p) !in ByKey(filled, PortKey);
    }
  }

  lemma FilledContainerMatches(c: Container)
    requires DistinctKeys(c.ports, PortKey)
    ensures ContainerMatches(FilledContainer(c), c) <==> NothingUnset(c)
  {
    FilledPortsMatch(c.ports);
  }

  lemma FilledAllMatch(cs: seq<Container>)
    requires DistinctKeys(cs, ContainerName) && DistinctPorts(cs)
    ensures MapMatches(FilledAll(cs), cs, ContainerName, ContainerMatches) <==> forall c :: c in cs ==> NothingUnset(c)
  {
    var filled := FilledAll(cs);
    assert forall i, j :: 0 <= i < j < |cs| ==> ContainerName(cs[i]) != ContainerName(cs[j]);
    assert DistinctKeys(filled, ContainerName);
    ListIsMap(filled, cs, ContainerName, ContainerMatches);
    ByKeyExact(filled, ContainerName);
    forall i | 0 <= i < |cs|
      ensures ContainerName(cs[i]) in ByKey(filled, ContainerName)
      ensures ContainerMatches(ByKey(filled, ContainerName)[ContainerName(cs[i])], cs[i]) <==> NothingUnset(cs[i])
    {
      assert cs[i] in cs && filled[i] in filled;
      FilledContainerMatches(cs[i]);
    }
    if c :| c in cs && !NothingUnset(c) {
      var i :| 0 <= i < |cs| && cs[i] == c;
      assert !ContainerMatches(ByKey(filled, ContainerName)[ContainerName(c)], c);
    }
    forall c | c in cs && (forall d :: d in cs ==> NothingUnset(d))
      ensures ContainerMatches(ByKey(filled, ContainerName)[ContainerName(c)], c)
    {
      var i :| 0 <= i < |cs| && cs[i] == c;
    }
  }

  /** One write suffices for a pod, against an API server that fills in protocols and probe schemes,
      exactly when the pod leaves none of them unset. */
  lemma FilledPodMatchesExactly(d: PodSpec)
    requires DistinctNames(d) && DistinctPorts(d.containers) && DistinctPorts(d.initContainers)
    ensures ListsMatch(FilledPod(d), d) <==>
              && (forall c :: c in d.containers ==> NothingUnset(c))
              && (forall c :: c in d.initContainers ==> NothingUnset(c))
  {
    ByKeyExact(d.volumes, VolumeName);
    assert ListMatches(d.volumes, d.volumes, VolumeName, VolumeMatches);
    FilledAllMatch(d.containers);
    FilledAllMatch(d.initContainers);
  }
}

/** Owner references: the event filter compares the two lists through a map by UID. */
module Owners {
  import opened KeyedLists

  datatype Owner = Owner(uid: string, name: string, kind: string)

  function Uid(o: Owner): string { o.uid }

  ghost predicate Unchanged(before: seq<Owner>, after: seq<Owner>) {
    && |before| == |after|
    && forall o :: o in after ==> o.uid in ByKey(before, Uid) && ByKey(before, Uid)[o.uid].name == o.name
  }

  function NamesByUid(m: map<string, Owner>): map<string, string> {
    map k | k in m :: m[k].name
  }

  /** The update filter: whether an update event passes because of its owner references. */
  method OwnerReferencesChanged(oldOwners: seq<Owner>, newOwners: seq<Owner>) returns (changed: bool)
    ensures changed <==> !Unchanged(oldOwners, newOwners)
  {
    if |oldOwners| != |newOwners| {
      return true;
    }
    var oldOwnerMap: map<string, string> := map[];
    for i := 0 to |oldOwners|
      invariant oldOwnerMap == NamesByUid(ByKey(oldOwners[..i], Uid))
    {
      assert oldOwners[..i + 1][..i] == oldOwners[..i];
      oldOwnerMap := oldOwnerMap[oldOwners[i].uid := oldOwners[i].name];
    }
    assert oldOwners[..|oldOwners|] == oldOwners;
    for i := 0 to |newOwners|
      invariant forall o :: o in newOwners[..i] ==> o.uid in oldOwnerMap && oldOwnerMap[o.uid] == o.name
    {
      assert newOwners[..i + 1] == newOwners[..i] + [newOwners[i]];
      var owner := newOwners[i];
      if owner.uid !in oldOwnerMap || oldOwnerMap[owner.uid] != owner.name {
        assert owner in newOwners;
        return true;
      }
    }
    assert newOwners[..|newOwners|] == newOwners;
    return false;
  }

  /** A reference set on an object takes the place of the one of the same kind and name, or is appended. */
  function WithOwner(owners: seq<Owner>, self: Owner): seq<Owner> {
    var i := FirstTo(owners, self);
    if i < |owners| then owners[i := self] else owners + [self]
  }

  /** The reference is there, the first one to the same object is gone, and nothing else has changed; if no
      two references are to one object, no other one to this object is left. */
  lemma WithOwnerFacts(owners: seq<Owner>, self: Owner)
    ensures var i, r := FirstTo(owners, self), WithOwner(owners, self);
            && self in r
            && multiset(r) == (if i < |owners| then multiset(owners) - multiset{owners[i]} else multiset(owners))
                              + multiset{self}
            && (forall o :: o in owners && !SameObject(o, self) ==> o in r)
            && (DistinctKeys(owners, Object) ==> forall o :: o in r && SameObject(o, self) ==> o == self)
  {
    var i, r := FirstTo(owners, self), WithOwner(owners, self);
    assert r[i] == self;
    forall o | o in owners && !SameObject(o, self) ensures o in r {
      var k :| 0 <= k < |owners| && owners[k] == o;
      assert r[k] == o;
    }
    if i < |owners| && DistinctKeys(owners, Object) {
      assert forall k :: 0 <= k < |owners| && k != i ==> Object(owners[k]) != Object(owners[i]);
      assert forall k :: 0 <= k < |r| && SameObject(r[k], self) ==> r[k] == self;
    }
  }

  /** The object a reference points to, by kind and name. */
  function Object(o: Owner): (string, string) { (o.kind, o.name) }

  predicate SameObject(a: Owner, b: Owner) { Object(a) == Object(b) }

  function FirstTo(owners: seq<Owner>, self: Owner): (i: nat)
    ensures i <= |owners| && (i < |owners| ==> SameObject(owners[i], self))
    ensures forall k :: 0 <= k < i ==> !SameObject(owners[k], self)
  {
    if owners == [] || SameObject(owners[0], self) then 0 else 1 + FirstTo(owners[1..], self)
  }

  function Pair(o: Owner): (string, string) { (o.uid, o.name) }

  ghost function Pairs(s: seq<Owner>): set<(string, string)> {
    Elements(Keys(s, Pair))
  }

  lemma PairsOf(s: seq<Owner>)
    ensures forall o :: o in s ==> Pair(o) in Pairs(s)
    ensures forall p :: p in Pairs(s) ==> exists o :: o in s && Pair(o) == p
  {
    forall o | o in s ensures Pair(o) in Pairs(s) {
      var i :| 0 <= i < |s| && s[i] == o;
      assert Keys(s, Pair)[i] == Pair(o);
    }
    forall p | p in Pairs(s) ensures exists o :: o in s && Pair(o) == p {
      var i :| 0 <= i < |s| && Keys(s, Pair)[i] == p;
      assert s[i] in s;
    }
  }

  /** With distinct UIDs in the old list and no repeated pair in the new one, an update passes unnoticed
      exactly when the two lists hold the same pairs of UID and name. */
  lemma UnchangedIsSamePairs(before: seq<Owner>, after: seq<Owner>)
    requires DistinctKeys(before, Uid) && Distinct(Keys(after, Pair))
    ensures Unchanged(before, after) <==> Pairs(before) == Pairs(after)
  {
    PairsOf(before);
    PairsOf(after);
    ByKeyExact(before, Uid);
    ByKeySound(before, Uid);
    DistinctPairs(before);
    ElementsCount(Keys(after, Pair));
    if Unchanged(before, after) {
      forall p | p in Pairs(after) ensures p in Pairs(before) {
        var o :| o in after && Pair(o) == p;
        var was := ByKey(before, Uid)[o.uid];
        assert was in before && Pair(was) == p;
      }
      SubsetCount(Pairs(after), Pairs(before));
    }
    if Pairs(before) == Pairs(after) {
      forall o | o in after ensures o.uid in ByKey(before, Uid) && ByKey(before, Uid)[o.uid].name == o.name {
        var was :| was in before && Pair(was) == Pair(o);
      }
    }
  }

  lemma DistinctPairs(s: seq<Owner>)
    requires DistinctKeys(s, Uid)
    ensures |Pairs(s)| == |s|
  {
    var ps := Keys(s, Pair);
    forall i, j | 0 <= i < j < |ps| ensures ps[i] != ps[j] {
      assert Uid(s[i]) != Uid(s[j]);
    }
    ElementsCount(ps);
  }

  /** One UID is listed under two names. */
  ghost predicate Ambiguous(s: seq<Owner>) {
    exists a, b :: a in s && b in s && a.uid == b.uid && a.name != b.name
  }

  /** The filter decides for this new list: against every old list with distinct UIDs it drops the
      update exactly when the pairs are the same. */
  ghost predicate Decides(after: seq<Owner>) {
    forall before :: DistinctKeys(before, Uid) ==> (Unchanged(before, after) <==> Pairs(before) == Pairs(after))
  }

  /** Such a list always passes the filter, and rightly. */
  lemma AmbiguousIsNoticed(before: seq<Owner>, after: seq<Owner>)
    requires DistinctKeys(before, Uid) && Ambiguous(after)
    ensures !Unchanged(before, after) && Pairs(before) != Pairs(after)
  {
    var a, b :| a in after && b in after && a.uid == b.uid && a.name != b.name;
    PairsOf(before);
    PairsOf(after);
    ByKeyExact(before, Uid);
    assert Pair(a) in Pairs(after) && Pair(b) in Pairs(after);
    assert forall x :: x in before ==> ByKey(before, Uid)[Uid(x)] == x;
  }

  ghost predicate Longer(u: string, s: seq<Owner>) {
    forall o :: o in s ==> |o.uid| < |u|
  }

  lemma LongerThanAll(s: seq<Owner>) returns (u: string)
    ensures Longer(u, s)
  {
    u := "";
    for i := 0 to |s|
      invariant Longer(u, s[..i])
    {
      assert s[..i + 1] == s[..i] + [s[i]];
      u := u + s[i].uid + "x";
    }
    assert s[..|s|] == s;
  }

  ghost predicate Repeated(s: seq<Owner>, i: nat)
    requires i < |s|
  {
    exists j :: 0 <= j < i && Uid(s[j]) == Uid(s[i])
  }

  /** The list with every repeated UID replaced by a UID of its own, beginning with `u`. */
  ghost function Unrepeated(s: seq<Owner>, u: string): (r: seq<Owner>)
    ensures |r| == |s|
    ensures forall i :: 0 <= i < |s| ==>
              if Repeated(s, i) then r[i].uid == u + seq(i, _ => 'x') else r[i] == s[i]
  {
    seq(|s|, i requires 0 <= i < |s| => if Repeated(s, i) then Owner(u + seq(i, _ => 'x'), "", "") else s[i])
  }

  lemma UnrepeatedDistinct(s: seq<Owner>, u: string)
    requires Longer(u, s)
    ensures DistinctKeys(Unrepeated(s, u), Uid)
  {
    var r := Unrepeated(s, u);
    forall i, j | 0 <= i < j < |r| ensures Uid(r[i]) != Uid(r[j]) {
      assert s[i] in s && s[j] in s;
      if !Repeated(s, i) && !Repeated(s, j) {
        assert Uid(s[i]) != Uid(s[j]);
      } else {
        assert |r[i].uid| != |r[j].uid|;
      }
    }
  }

  lemma FirstOfUid(s: seq<Owner>, i: nat) returns (k: nat)
    requires i < |s|
    ensures k <= i && !Repeated(s, k) && Uid(s[k]) == Uid(s[i])
  {
    k := i;
    while Repeated(s, k)
      invariant k <= i && Uid(s[k]) == Uid(s[i])
      decreases k
    {
      var j :| 0 <= j < k && Uid(s[j]) == Uid(s[k]);
      k := j;
    }
  }

  /** Against its unrepeated form a list goes unnoticed, if no UID has two names. */
  lemma UnrepeatedUnnoticed(s: seq<Owner>, u: string)
    requires Longer(u, s) && !Ambiguous(s)
    ensures Unchanged(Unrepeated(s, u), s)
  {
    var r := Unrepeated(s, u);
    UnrepeatedDistinct(s, u);
    ByKeyExact(r, Uid);
    forall o | o in s ensures o.uid in ByKey(r, Uid) && ByKey(r, Uid)[o.uid].name == o.name {
      var i :| 0 <= i < |s| && s[i] == o;
      var k := FirstOfUid(s, i);
      assert r[k] in r && r[k] == s[k] && s[k] in s;
    }
  }

  /** Any other repetition hides the removal of an owner: the old list with an owner of its own in
      every repeated place is taken for the new one. */
  lemma RepetitionHidesRemoval(after: seq<Owner>) returns (before: seq<Owner>)
    requires !Ambiguous(after) && !Distinct(Keys(after, Pair))
    ensures DistinctKeys(before, Uid) && Unchanged(before, after) && Pairs(before) != Pairs(after)
  {
    var u := LongerThanAll(after);
    before := Unrepeated(after, u);
    UnrepeatedDistinct(after, u);
    UnrepeatedUnnoticed(after, u);
    PairsOf(before);
    PairsOf(after);
    var ks := Keys(after, Pair);
    var i, j :| 0 <= i < j < |ks| && ks[i] == ks[j];
    assert Uid(after[i]) == Uid(after[j]) && Repeated(after, j);
    assert before[j] in before && Pair(before[j]) in Pairs(before);
    assert forall o :: o in after ==> |o.uid| < |before[j].uid|;
  }

  /** The filter decides exactly for the new lists that repeat no pair, and for those with one UID under
      two names; any other repetition hides the removal of some owner. */
  lemma DecidesExactly(after: seq<Owner>)
    ensures Decides(after) <==> Distinct(Keys(after, Pair)) || Ambiguous(after)
  {
    if Distinct(Keys(after, Pair)) {
      forall before | DistinctKeys(before, Uid)
        ensures Unchanged(before, after) <==> Pairs(before) == Pairs(after)
      {
        UnchangedIsSamePairs(before, after);
      }
    } else if Ambiguous(after) {
      forall before | DistinctKeys(before, Uid)
        ensures Unchanged(before, after) <==> Pairs(before) == Pairs(after)
      {
        AmbiguousIsNoticed(before, after);
      }
    } else {
      var before := RepetitionHidesRemoval(after);
      assert !(Unchanged(before, after) <==> Pairs(before) == Pairs(after));
    }
  }
}
