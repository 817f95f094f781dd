/** The StatefulSet generated for the SPIRE server. */
module SpireStatefulSet {
  import opened Wrappers
  import opened KeyedLists
  import opened Pods
  import opened Comparison
  import opened Proxy
  import Federation

  datatype Config = Config(
    labels: map<string, string>, selector: map<string, string>, resources: string, affinity: Option<string>,
    nodeSelector: map<string, string>, tolerations: seq<string>, tlsSecretName: string,
    storageSize: string, accessMode: string, storageClass: string, federation: Option<Federation.Config>)

  datatype Images = Images(server: string, controllerManager: string)

  const SERVER := "spire-server"
  const MANAGER := "spire-controller-manager"

  // Volumes, claims and secrets.
  const DATA_CLAIM := "spire-data"
  const SOCKET := "spire-server-socket"
  const CONFIG := "spire-config"
  const SERVER_TMP := "server-tmp"
  const MANAGER_TMP := "spire-controller-manager-tmp"
  const MANAGER_CONFIG := "controller-manager-config"
  const DB_CERTS := "db-certs"
  const SERVER_TLS := "spire-server-tls"
  const SERVING_CERT := "spire-server-serving-cert"

  // Mounts, arguments, environment, ports and probes.
  const SOCKET_PATH := "/tmp/spire-server/private"
  const CONFIG_PATH := "/run/spire/config"
  const DATA_PATH := "/run/spire/data"
  const TMP_PATH := "/tmp"
  const DB_CERTS_PATH := "/run/spire/db/certs"
  const SERVER_TLS_PATH := "/run/spire/server-tls"
  const SERVER_ARGS := ["-expandEnv", "-config", "/run/spire/config/server.conf"]
  const SERVER_ENV := [EnvVar("PATH", "/opt/spire/bin:/bin")]
  const SERVER_PORTS := [Port("grpc", 8081, "TCP"), Port("server-healthz", 8080, "TCP")]
  const SERVER_READINESS := ProbeOf("/ready", "server-healthz", "5/5")
  const SERVER_LIVENESS := ProbeOf("/live", "server-healthz", "15/60/3/2")
  const MANAGER_ARGS := ["--config=controller-manager-config.yaml"]
  const MANAGER_ENV := [EnvVar("ENABLE_WEBHOOKS", "true")]
  const MANAGER_PORTS := [Port("https", 9443, ""), Port("ctrlmgr-healthz", 8083, "")]
  const MANAGER_READINESS := ProbeOf("/readyz", "ctrlmgr-healthz", "")
  const MANAGER_LIVENESS := ProbeOf("/healthz", "ctrlmgr-healthz", "")
  const MANAGER_MOUNTS :=
    [Mount(SOCKET, SOCKET_PATH, "", true),
     Mount(MANAGER_CONFIG, "/controller-manager-config.yaml", "controller-manager-config.yaml", true),
     Mount(MANAGER_TMP, TMP_PATH, MANAGER, false)]
  const FEDERATION_PORT := Port("federation", 8443, "TCP")
  const PULL_POLICY := "IfNotPresent"
  const SECURITY := Some("readOnlyRootFilesystem")
  const STORAGE := "storage"

  function Plain(name: string): Volume { Volume(name, None, None, None, None, None, None, None) }
  function EmptyDir(name: string): Volume { Plain(name).(emptyDir := Some("")) }

  function FromConfigMap(name: string, source: string): Volume {
    Plain(name).(configMap := Some(FileSource(source, None, [])))
  }

  function FromSecret(name: string, source: string): Volume {
    Plain(name).(secret := Some(FileSource(source, None, [])))
  }

  function ProbeOf(path: string, port: string, timing: string): Option<Probe> {
    Some(Probe(Some(HttpGet(path, port, "")), timing))
  }

  function ServerContainer(config: Config, images: Images, mounts: seq<Mount>): Container {
    Container(SERVER, images.server, PULL_POLICY, [], SERVER_ARGS, SERVER_ENV, SERVER_PORTS, SERVER_READINESS,
              SERVER_LIVENESS, SECURITY, mounts, config.resources)
  }

  function ManagerContainer(config: Config, images: Images): Container {
    Container(MANAGER, images.controllerManager, PULL_POLICY, [], MANAGER_ARGS, MANAGER_ENV, MANAGER_PORTS,
              MANAGER_READINESS, MANAGER_LIVENESS, SECURITY, MANAGER_MOUNTS, config.resources)
  }

  // ---------- what is generated, as a value ----------

  function ServerMounts(config: Config): seq<Mount> {
    [Mount(SOCKET, SOCKET_PATH, "", false),
     Mount(CONFIG, CONFIG_PATH, "", true),
     Mount(DATA_CLAIM, DATA_PATH, "", false),
     Mount(SERVER_TMP, TMP_PATH, "", false)] +
    if config.tlsSecretName != "" then [Mount(DB_CERTS, DB_CERTS_PATH, "", false)] else []
  }

  function PodVolumes(config: Config): seq<Volume> {
    [EmptyDir(SERVER_TMP), FromConfigMap(CONFIG, SERVER),
     EmptyDir(SOCKET), EmptyDir(MANAGER_TMP),
     FromConfigMap(MANAGER_CONFIG, MANAGER)] +
    if config.tlsSecretName != "" then [FromSecret(DB_CERTS, config.tlsSecretName)] else []
  }

  function BaseOf(config: Config, images: Images): PodSpec {
    PodSpec(SERVER, None, "", config.nodeSelector, config.affinity, config.tolerations, PodVolumes(config),
            [ServerContainer(config, images, ServerMounts(config)), ManagerContainer(config, images)], [])
  }

  predicate ServesCert(federation: Federation.Config) {
    federation.endpoint.httpsWeb.Some? && federation.endpoint.httpsWeb.value.servingCert.Some?
  }

  function FederatedContainer(c: Container, federation: Federation.Config): Container {
    c.(ports := c.ports + [FEDERATION_PORT],
       mounts := c.mounts + if ServesCert(federation)
                            then [Mount(SERVER_TLS, SERVER_TLS_PATH, "", true)] else [])
  }

  function Federated(p: PodSpec, federation: Federation.Config): PodSpec
    requires |p.containers| > 0
  {
    p.(containers := p.containers[0 := FederatedContainer(p.containers[0], federation)],
       volumes := p.volumes + if ServesCert(federation) then [FromSecret(SERVER_TLS, SERVING_CERT)] else [])
  }

  function PodOf(config: Config, images: Images, env: Env): PodSpec {
    var proxied := ProxiedPod(BaseOf(config, images), env, []);
    if config.federation.Some? then Federated(proxied, config.federation.value) else proxied
  }

  function Generated(config: Config, images: Images, env: Env, serverHash: string, managerHash: string): StatefulSet {
    StatefulSet(Some(1), SERVER, config.selector, config.labels,
                map[DEFAULT_CONTAINER_KEY := SERVER,
                    SERVER_HASH_KEY := serverHash, MANAGER_HASH_KEY := managerHash],
                PodOf(config, images, env),
                [Claim(DATA_CLAIM, [config.accessMode], map[STORAGE := config.storageSize],
                       if config.storageClass != "" then Some(config.storageClass) else None)])
  }

  // ---------- how it is built, and what holds of it ----------

  /** Whether the API server has filled in the protocol of every container port. */
  ghost predicate ProtocolsFilled(p: PodSpec) {
    forall c, q :: c in p.containers && q in c.ports ==> q.protocol != ""
  }

  ghost predicate WellFormed(p: PodSpec) {
    DistinctNames(p) && MountsDeclared(p, {DATA_CLAIM})
  }

  lemma KeysDistinct<V>(s: seq<V>, key: V -> string)
    ensures Distinct(Keys(s, key)) <==> DistinctKeys(s, key)
  {
    var ks := Keys(s, key);
    if Distinct(ks) {
      assert forall i, j :: 0 <= i < j < |s| ==> ks[i] != ks[j];
    }
    if DistinctKeys(s, key) {
      assert forall i, j :: 0 <= i < j < |ks| ==> key(s[i]) != key(s[j]);
    }
  }

  lemma ProxyKeepsWellFormed(p: PodSpec, env: Env)
    requires WellFormed(p)
    ensures WellFormed(ProxiedPod(p, env, []))
  {
    var q := ProxiedPod(p, env, []);
    InjectionKeepsMountsDeclared(p, env, [], {DATA_CLAIM});
    InjectionKeepsNamesDistinct(p, env, []);
    KeysDistinct(p.containers, ContainerName);
    KeysDistinct(q.containers, ContainerName);
    KeysDistinct(p.initContainers, ContainerName);
    KeysDistinct(q.initContainers, ContainerName);
  }

  method BaseStorage(config: Config) returns (mounts: seq<Mount>, volumes: seq<Volume>)
    ensures mounts == ServerMounts(config) && volumes == PodVolumes(config)
  {
    mounts := [Mount(SOCKET, SOCKET_PATH, "", false),
               Mount(CONFIG, CONFIG_PATH, "", true),
               Mount(DATA_CLAIM, DATA_PATH, "", false),
               Mount(SERVER_TMP, TMP_PATH, "", false)];
    volumes := [EmptyDir(SERVER_TMP), FromConfigMap(CONFIG, SERVER),
                EmptyDir(SOCKET), EmptyDir(MANAGER_TMP),
                FromConfigMap(MANAGER_CONFIG, MANAGER)];
    if config.tlsSecretName != "" {
      mounts := mounts + [Mount(DB_CERTS, DB_CERTS_PATH, "", false)];
      volumes := volumes + [FromSecret(DB_CERTS, config.tlsSecretName)];
    }
  }

  /** The secret with the database certificates is among the volumes exactly if one is configured. */
  ghost predicate DatabaseSecret(volumes: seq<Volume>, secret: string) {
    if secret != "" then FromSecret(DB_CERTS, secret) in volumes
    else forall v :: v in volumes ==> v.secret.None?
  }

  method BasePod(config: Config, images: Images) returns (pod: PodSpec)
    ensures pod == BaseOf(config, images)
  {
    var mounts, volumes := BaseStorage(config);
    pod := PodSpec(SERVER, None, "", config.nodeSelector, config.affinity, config.tolerations, volumes,
                   [ServerContainer(config, images, mounts), ManagerContainer(config, images)], []);
  }

  /** Names are distinct, every mount is declared, and the database secret is there iff configured. */
  lemma BaseFacts(config: Config, images: Images)
    ensures var pod := BaseOf(config, images);
            && WellFormed(pod) && DatabaseSecret(pod.volumes, config.tlsSecretName)
            && forall v :: v in pod.volumes ==> v.name != CA_VOLUME && v.name != SERVER_TLS
  {
    var names := StorageNames(config);
    BaseIsWellFormed(BaseOf(config, images), names, config.tlsSecretName != "", ServerMounts(config), config, images);
  }

  lemma StorageNames(config: Config) returns (names: seq<string>)
    ensures Keys(PodVolumes(config), VolumeName) == names && BaseNames(names, config.tlsSecretName != "")
    ensures forall m :: m in ServerMounts(config) ==> m.name in names || m.name == DATA_CLAIM
  {
    names := [SERVER_TMP, CONFIG, SOCKET, MANAGER_TMP,
              MANAGER_CONFIG] + if config.tlsSecretName != "" then [DB_CERTS] else [];
    assert Keys(PodVolumes(config), VolumeName) == names;
    assert names[0] in names && names[1] in names && names[2] in names;
  }

  predicate BaseNames(names: seq<string>, tls: bool) {
    names == [SERVER_TMP, CONFIG, SOCKET, MANAGER_TMP,
              MANAGER_CONFIG] + if tls then [DB_CERTS] else []
  }

  lemma BaseNamesDistinct(names: seq<string>, tls: bool)
    requires BaseNames(names, tls)
    ensures Distinct(names)
    ensures forall n :: n in names ==> |n| != |CA_VOLUME| && |n| != |SERVER_TLS|
  {
    assert |names[0]| == 10 && |names[1]| == 12 && |names[2]| == 19 && |names[3]| == 28 && |names[4]| == 25;
    assert tls ==> |names[5]| == 8;
    forall i, j | 0 <= i < j < |names| ensures names[i] != names[j] {
      assert |names[i]| != |names[j]|;
    }
  }

  lemma BaseMounts(pod: PodSpec, names: seq<string>, tls: bool, mounts: seq<Mount>, config: Config, images: Images)
    requires Keys(pod.volumes, VolumeName) == names && BaseNames(names, tls)
    requires forall m :: m in mounts ==> m.name in names || m.name == DATA_CLAIM
    requires pod.containers == [ServerContainer(config, images, mounts), ManagerContainer(config, images)]
    requires pod.initContainers == []
    ensures MountsDeclared(pod, {DATA_CLAIM})
  {
    assert names[2] in names && names[3] in names && names[4] in names;
    forall c | c in pod.containers ensures MountsNamed(c, VolumeNames(pod) + {DATA_CLAIM}) {
      if c == pod.containers[1] {
        var ms := c.mounts;
        assert |ms| == 3 && ms[0].name == names[2] && ms[1].name == names[4] && ms[2].name == names[3];
      }
    }
  }

  lemma BaseIsWellFormed(pod: PodSpec, names: seq<string>, tls: bool, mounts: seq<Mount>, config: Config,
                         images: Images)
    requires Keys(pod.volumes, VolumeName) == names && BaseNames(names, tls)
    requires forall m :: m in mounts ==> m.name in names || m.name == DATA_CLAIM
    requires pod.containers == [ServerContainer(config, images, mounts), ManagerContainer(config, images)]
    requires pod.initContainers == []
    ensures WellFormed(pod)
    ensures forall v :: v in pod.volumes ==> v.name != CA_VOLUME && v.name != SERVER_TLS
  {
    BaseMounts(pod, names, tls, mounts, config, images);
    BaseVolumes(pod.volumes, names, tls);
    ContainersDiffer(pod.containers[0], pod.containers[1]);
  }

  lemma ContainersDiffer(a: Container, b: Container)
    requires a.name == SERVER && b.name == MANAGER
    ensures DistinctKeys([a, b], ContainerName)
  {
    assert |a.name| == 12 && |b.name| == 24;
  }

  lemma BaseVolumes(volumes: seq<Volume>, names: seq<string>, tls: bool)
    requires Keys(volumes, VolumeName) == names && BaseNames(names, tls)
    ensures DistinctKeys(volumes, VolumeName)
    ensures forall v :: v in volumes ==> v.name != CA_VOLUME && v.name != SERVER_TLS
  {
    BaseNamesDistinct(names, tls);
    KeysDistinct(volumes, VolumeName);
    forall v | v in volumes ensures v.name != CA_VOLUME && v.name != SERVER_TLS {
      var i :| 0 <= i < |volumes| && volumes[i] == v;
      assert names[i] in names;
    }
  }

  /** Adds what federation needs to the first container and to the volumes. */
  method AddFederation(t: PodTemplate, federation: Federation.Config)
    requires |t.pod.containers| > 0
    modifies t
    ensures t.pod == Federated(old(t.pod), federation)
  {
    var first := t.pod.containers[0];
    first := first.(ports := first.ports + [FEDERATION_PORT]);
    t.pod := t.pod.(containers := t.pod.containers[0 := first]);
    var web := federation.endpoint.httpsWeb;
    if web.Some? && web.value.servingCert.Some? {
      first := first.(mounts := first.mounts + [Mount(SERVER_TLS, SERVER_TLS_PATH, "", true)]);
      t.pod := t.pod.(containers := t.pod.containers[0 := first],
                      volumes := t.pod.volumes + [FromSecret(SERVER_TLS, SERVING_CERT)]);
    } else {
      assert first.mounts + [] == first.mounts && t.pod.volumes + [] == t.pod.volumes;
    }
    assert first == FederatedContainer(old(t.pod).containers[0], federation);
    assert t.pod.containers == old(t.pod).containers[0 := first];
  }

  lemma FederationKeepsWellFormed(p: PodSpec, federation: Federation.Config)
    requires WellFormed(p) && |p.containers| > 0 && forall v :: v in p.volumes ==> v.name != SERVER_TLS
    ensures WellFormed(Federated(p, federation))
    ensures FEDERATION_PORT in Federated(p, federation).containers[0].ports
  {
    var q := Federated(p, federation);
    assert q.containers[0].ports[|p.containers[0].ports|] == FEDERATION_PORT;
    if ServesCert(federation) {
      assert Keys(q.volumes, VolumeName)[|p.volumes|] == SERVER_TLS;
      WithFirst(p, q, {SERVER_TLS});
    } else {
      assert q.volumes == p.volumes;
      WithFirst(p, q, {});
    }
  }

  /** Replacing the first container and appending volumes keeps a pod well formed when every new
      mount names an old or a new volume. */
  lemma WithFirst(p: PodSpec, q: PodSpec, added: set<string>)
    requires WellFormed(p) && |p.containers| > 0 && |q.containers| == |p.containers|
    requires q == p.(containers := q.containers, volumes := q.volumes)
    requires q.containers == p.containers[0 := q.containers[0]] && q.containers[0].name == p.containers[0].name
    requires p.volumes <= q.volumes && DistinctKeys(q.volumes, VolumeName) && added <= VolumeNames(q)
    requires forall m :: m in q.containers[0].mounts ==> m in p.containers[0].mounts || m.name in added
    ensures WellFormed(q)
  {
    var ps, qs := Keys(p.volumes, VolumeName), Keys(q.volumes, VolumeName);
    forall n | n in ps ensures n in qs {
      var i :| 0 <= i < |ps| && ps[i] == n;
      assert qs[i] == n;
    }
    assert VolumeNames(p) <= VolumeNames(q);
    assert p.containers[0] in p.containers;
    forall c | c in q.containers ensures MountsNamed(c, VolumeNames(q) + {DATA_CLAIM}) {
      var i :| 0 <= i < |q.containers| && q.containers[i] == c;
      assert MountsNamed(p.containers[i], VolumeNames(p) + {DATA_CLAIM});
    }
    assert Keys(q.containers, ContainerName) == Keys(p.containers, ContainerName);
    KeysDistinct(p.containers, ContainerName);
    KeysDistinct(q.containers, ContainerName);
  }

  /** Both containers define every proxy variable that is set. */
  ghost predicate AllDefined(pod: PodSpec, env: Env)
    requires |pod.containers| == 2
  {
    forall v :: v in ProxyVars(env, []) ==>
      Defines(pod.containers[0].env, v.name) && Defines(pod.containers[1].env, v.name)
  }

  /** The pod, with the proxy settings first and the federation parts after them. */
  method BuildPod(config: Config, images: Images, env: Env) returns (pod: PodSpec)
    ensures pod == PodOf(config, images, env)
  {
    var base := BasePod(config, images);
    var t := new PodTemplate(base);
    t.AddProxyConfig(env, []);
    if config.federation.Some? {
      AddFederation(t, config.federation.value);
    }
    pod := t.pod;
  }

  lemma ProxiedFacts(config: Config, images: Images, env: Env)
    ensures var pod := ProxiedPod(BaseOf(config, images), env, []);
            && WellFormed(pod) && |pod.containers| == 2
            && pod.containers[1] == ProxiedContainer(ManagerContainer(config, images), env, [])
            && (forall v :: v in pod.volumes ==> v.name != SERVER_TLS)
            && (env.ProxyEnabled() ==> AllDefined(pod, env))
  {
    var base := BaseOf(config, images);
    BaseFacts(config, images);
    ProxyKeepsWellFormed(base, env);
    ContainerFacts(base.containers[0], env, []);
    ContainerFacts(base.containers[1], env, []);
    assert |CA_VOLUME| != |SERVER_TLS|;
  }

  /** For every configuration: names are distinct, so the comparison is a bijection test; every mount
      has its volume or claim; every proxy variable is defined in both containers; the federation port
      is there if federation is configured. */
  lemma PodFacts(config: Config, images: Images, env: Env)
    ensures var pod := PodOf(config, images, env);
            && WellFormed(pod) && |pod.containers| == 2
            && pod.containers[1] == ProxiedContainer(ManagerContainer(config, images), env, [])
            && (config.federation.Some? ==> FEDERATION_PORT in pod.containers[0].ports)
            && (env.ProxyEnabled() ==> AllDefined(pod, env))
  {
    ProxiedFacts(config, images, env);
    if config.federation.Some? {
      FederationKeepsWellFormed(ProxiedPod(BaseOf(config, images), env, []), config.federation.value);
    }
  }

  method Generate(config: Config, images: Images, env: Env, serverHash: string, managerHash: string)
    returns (sts: StatefulSet)
    ensures sts == Generated(config, images, env, serverHash, managerHash)
  {
    var pod := BuildPod(config, images, env);
    var claim := Claim(DATA_CLAIM, [config.accessMode], map[STORAGE := config.storageSize],
                       if config.storageClass != "" then Some(config.storageClass) else None);
    var annotations := map[DEFAULT_CONTAINER_KEY := SERVER,
                           SERVER_HASH_KEY := serverHash, MANAGER_HASH_KEY := managerHash];
    sts := StatefulSet(Some(1), SERVER, config.selector, config.labels, annotations, pod, [claim]);
  }

  /** What the StatefulSet runs and from where: one replica; each container its own image; the configurations
      from the two ConfigMaps, mounted where the containers look for them; the data on a claim of the
      configured size, mode and class. */
  lemma GeneratedParts(config: Config, images: Images, env: Env, serverHash: string, managerHash: string)
    ensures var sts := Generated(config, images, env, serverHash, managerHash);
            && sts.replicas == Some(1) && sts.serviceName == "spire-server"
            && sts.selector == config.selector && sts.labels == config.labels
            && |sts.pod.containers| == 2 && sts.pod.initContainers == []
            && sts.pod.containers[0].name == "spire-server" && sts.pod.containers[0].image == images.server
            && sts.pod.containers[1].name == "spire-controller-manager"
            && sts.pod.containers[1].image == images.controllerManager
            && sts.pod.containers[0].resources == config.resources
            && sts.pod.containers[1].resources == config.resources
            && sts.pod.nodeSelector == config.nodeSelector && sts.pod.affinity == config.affinity
            && sts.pod.tolerations == config.tolerations && sts.pod.serviceAccount == "spire-server"
            && |sts.claims| == 1 && sts.claims[0].name == "spire-data"
            && sts.claims[0].accessModes == [config.accessMode]
            && sts.claims[0].requests == map["storage" := config.storageSize]
            && sts.claims[0].storageClass == if config.storageClass == "" then None else Some(config.storageClass)
  {
    PodFacts(config, images, env);
  }

  /** The configurations come from the two ConfigMaps and are mounted, like the data, the shared socket and the
      database certificates, where the containers look for them. */
  ghost predicate Supplied(pod: PodSpec, config: Config) {
    && |pod.containers| == 2
    && FromConfigMap("spire-config", "spire-server") in pod.volumes
    && FromConfigMap("controller-manager-config", "spire-controller-manager") in pod.volumes
    && Mount("spire-config", "/run/spire/config", "", true) in pod.containers[0].mounts
    && Mount("spire-server-socket", "/tmp/spire-server/private", "", false) in pod.containers[0].mounts
    && Mount("spire-server-socket", "/tmp/spire-server/private", "", true) in pod.containers[1].mounts
    && Mount("spire-data", "/run/spire/data", "", false) in pod.containers[0].mounts
    && Mount("controller-manager-config", "/controller-manager-config.yaml", "controller-manager-config.yaml", true)
       in pod.containers[1].mounts
    && (config.tlsSecretName != "" ==> Mount("db-certs", "/run/spire/db/certs", "", false) in pod.containers[0].mounts)
  }

  ghost predicate Extends(p: PodSpec, q: PodSpec) {
    && |p.containers| == |q.containers| && p.volumes <= q.volumes
    && forall i :: 0 <= i < |p.containers| ==> p.containers[i].mounts <= q.containers[i].mounts
  }

  lemma SuppliedStays(p: PodSpec, q: PodSpec, config: Config)
    requires Supplied(p, config) && Extends(p, q)
    ensures Supplied(q, config)
  {
    PrefixMembers(p.volumes, q.volumes);
    PrefixMembers(p.containers[0].mounts, q.containers[0].mounts);
    PrefixMembers(p.containers[1].mounts, q.containers[1].mounts);
  }

  lemma PrefixMembers<T>(s: seq<T>, t: seq<T>)
    requires s <= t
    ensures forall x :: x in s ==> x in t
  {
  }

  lemma BaseSupplied(config: Config, images: Images)
    ensures Supplied(BaseOf(config, images), config)
  {
    var mounts, volumes := ServerMounts(config), PodVolumes(config);
    assert volumes[1] in volumes && volumes[4] in volumes && mounts[1] in mounts && mounts[2] in mounts;
    assert mounts[0] in mounts && MANAGER_MOUNTS[0] in MANAGER_MOUNTS && MANAGER_MOUNTS[1] in MANAGER_MOUNTS;
    if config.tlsSecretName != "" {
      assert mounts[4] in mounts;
    }
  }

  lemma GeneratedSupplied(config: Config, images: Images, env: Env, serverHash: string, managerHash: string)
    ensures Supplied(Generated(config, images, env, serverHash, managerHash).pod, config)
  {
    var base := BaseOf(config, images);
    var proxied := ProxiedPod(base, env, []);
    BaseSupplied(config, images);
    assert Extends(base, proxied);
    SuppliedStays(base, proxied, config);
    if config.federation.Some? {
      SuppliedStays(proxied, Federated(proxied, config.federation.value), config);
    }
  }

  /** A probe asks at a port that the container has. */
  ghost predicate Answered(probe: Option<Probe>, c: Container) {
    && probe.Some? && probe.value.httpGet.Some?
    && exists i :: 0 <= i < |c.ports| && c.ports[i].name == probe.value.httpGet.value.port
  }

  /** The server reads the file that is mounted from its ConfigMap; both containers have their ports, the
      server the federation port iff federation is configured, and are probed at one of them. */
  lemma GeneratedPorts(config: Config, images: Images, env: Env, serverHash: string, managerHash: string)
    ensures var cs := Generated(config, images, env, serverHash, managerHash).pod.containers;
            && |cs| == 2 && cs[0].args == ["-expandEnv", "-config", "/run/spire/config" + "/server.conf"]
            && cs[0].ports == [Port("grpc", 8081, "TCP"), Port("server-healthz", 8080, "TCP")] +
                 (if config.federation.Some? then [Port("federation", 8443, "TCP")] else [])
            && cs[1].ports == [Port("https", 9443, ""), Port("ctrlmgr-healthz", 8083, "")]
            && Answered(cs[0].readiness, cs[0]) && Answered(cs[0].liveness, cs[0])
            && Answered(cs[1].readiness, cs[1]) && Answered(cs[1].liveness, cs[1])
  {
    var cs := Generated(config, images, env, serverHash, managerHash).pod.containers;
    assert SERVER_ARGS[2] == "/run/spire/config" + "/server.conf";
    assert cs[0].ports[1] == SERVER_PORTS[1] && cs[1].ports[1] == MANAGER_PORTS[1];
  }

  lemma FederationPort(config: Config, images: Images, env: Env, serverHash: string, managerHash: string)
    ensures var cs := Generated(config, images, env, serverHash, managerHash).pod.containers;
            |cs| == 2 && (config.federation.Some? <==> Port("federation", 8443, "TCP") in cs[0].ports)
  {
    GeneratedPorts(config, images, env, serverHash, managerHash);
    var cs := Generated(config, images, env, serverHash, managerHash).pod.containers;
    if config.federation.Some? {
      assert cs[0].ports[2] == Port("federation", 8443, "TCP");
    } else {
      assert forall p :: p in cs[0].ports ==> p.number == 8081 || p.number == 8080;
    }
  }

  /** The serving certificate is mounted iff it is configured, from the secret the Service asks for. */
  lemma FederationSupplied(config: Config, images: Images, env: Env)
    requires config.federation.Some?
    ensures var pod, web := PodOf(config, images, env), config.federation.value.endpoint.httpsWeb;
            if web.Some? && web.value.servingCert.Some?
            then && |pod.containers| == 2
                 && Mount("spire-server-tls", "/run/spire/server-tls", "", true) in pod.containers[0].mounts
                 && FromSecret("spire-server-tls", "spire-server-serving-cert") in pod.volumes
            else forall v :: v in pod.volumes ==> v.name != "spire-server-tls"
  {
    ProxiedFacts(config, images, env);
  }

  /** Both hashes are on the template. */
  lemma GeneratedHashes(config: Config, images: Images, env: Env, serverHash: string, managerHash: string)
    ensures var sts := Generated(config, images, env, serverHash, managerHash);
            && Lookup(sts.annotations, SERVER_HASH_KEY) == serverHash
            && Lookup(sts.annotations, MANAGER_HASH_KEY) == managerHash
    ensures SERVER_HASH_KEY == "ztwim.openshift.io/spire-server-config-hash"
    ensures MANAGER_HASH_KEY == "ztwim.openshift.io/spire-controller-manager-config-hash"
  {
    HashKeysDiffer();
  }

  /** Well formed; and a controller-manager port has no protocol, so against an API server that fills
      protocols in the comparison never says that the stored StatefulSet is up to date. */
  lemma GeneratedFacts(config: Config, images: Images, env: Env, serverHash: string, managerHash: string)
    ensures var pod := Generated(config, images, env, serverHash, managerHash).pod;
            && WellFormed(pod)
            && forall fetched: PodSpec :: ProtocolsFilled(fetched) ==> !ListsMatch(fetched, pod)
  {
    PodFacts(config, images, env);
    NeverUpToDate(PodOf(config, images, env), config, images, env);
  }

  lemma NeverUpToDate(pod: PodSpec, config: Config, images: Images, env: Env)
    requires WellFormed(pod) && |pod.containers| == 2
    requires pod.containers[1] == ProxiedContainer(ManagerContainer(config, images), env, [])
    ensures forall fetched: PodSpec :: ProtocolsFilled(fetched) ==> !ListsMatch(fetched, pod)
  {
    var manager := pod.containers[1];
    assert manager.ports[0] == Port("https", 9443, "");
    forall fetched: PodSpec | ProtocolsFilled(fetched) ensures !ListsMatch(fetched, pod) {
      UnsetProtocolNeverMatches(fetched, pod, manager, manager.ports[0]);
    }
  }

  lemma HashKeysDiffer()
    ensures SERVER_HASH_KEY != MANAGER_HASH_KEY && DEFAULT_CONTAINER_KEY != SERVER_HASH_KEY
            && DEFAULT_CONTAINER_KEY != MANAGER_HASH_KEY
  {
    assert |SERVER_HASH_KEY| == 43 && |MANAGER_HASH_KEY| == 55 && |DEFAULT_CONTAINER_KEY| == 39;
  }
}
