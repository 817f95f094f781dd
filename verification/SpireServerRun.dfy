/** One reconciliation of the SpireServer resource, from its first read to its deferred status update,
    and two of them in a row. */
module SpireServerRun {
  import opened Wrappers
  import opened ApiServer
  import opened Conditions
  import opened StatusManager
  import opened Owners
  import opened Texts
  import opened SpireServerObjects
  import ServiceSync
  import WebhookSync
  import Operands

  /** The resource as held in memory by a run. */
  class ServerObject {
    var spec: ServerSpec
    var owners: seq<Owner>
    var conditions: seq<Stamped>
    var version: nat

    constructor (stored: Stored<Payload, St>)
      requires stored.res.spec.ServerCr?
      ensures ServerCr(spec, owners) == stored.res.spec && version == stored.version
    {
      spec, owners, version := stored.res.spec.spec, stored.res.spec.owners, stored.version;
      conditions := if stored.res.status.OfServer? then stored.res.status.conditions else [];
    }

    /** A write's reply is decoded into the object that was sent. */
    method Refresh(stored: Stored<Payload, St>)
      modifies this
      ensures stored.res.status.OfServer? ==> conditions == stored.res.status.conditions
      ensures if stored.res.spec.ServerCr? then ServerCr(spec, owners) == stored.res.spec
              else spec == old(spec) && owners == old(owners)
    {
      if stored.res.spec.ServerCr? {
        spec, owners := stored.res.spec.spec, stored.res.spec.owners;
      }
      conditions := if stored.res.status.OfServer? then stored.res.status.conditions else [];
      version := stored.version;
    }
  }

  /** The store holds the resource as it is in memory. */
  ghost predicate Holds(store: Store<Payload, St>, s: Setting, spec: ServerSpec, owners: seq<Owner>) {
    s.crKey in store && store[s.crKey].res.spec == ServerCr(spec, owners)
  }

  /** Applies the recorded conditions and, if that changes the status, writes it. */
  method ApplyStatus(c: Cluster<Payload, St>, m: Manager, s: Setting, server: ServerObject)
    returns (wrote: Option<bool>)
    requires c.world.Valid() && Keyed(m.conditions)
    modifies c, m, server
    ensures Advanced(old(c.world), c.world, RightsOf(s)) && CallsOn(old(c.calls), c.calls, s.crKey)
    ensures AllQuiet(c.script) ==> OwnEffect(Verb.UpdateStatus, old(c.world).Store(), c.world.Store(), s.crKey)
    ensures AllQuiet(c.script) && Holds(old(c.world).Store(), s, old(server.spec), old(server.owners)) ==>
              server.spec == old(server.spec) && server.owners == old(server.owners)
    ensures READY in old(m.conditions) ==> m.conditions == old(m.conditions)
    ensures READY !in old(m.conditions) ==>
              exists order :: && Enumerates(order, old(m.conditions).Keys)
                              && m.conditions == old(m.conditions)[READY := Derived(old(m.conditions), order)]
    ensures Reflects(server.conditions, m.conditions)
    ensures StatusServed(c.script, s) && s.crKey in old(c.world).Store() && wrote.Some? ==> wrote.value
    ensures wrote.None? ==> c.calls == old(c.calls) && c.world == old(c.world)
    ensures wrote.None? <==> Reflects(old(server.conditions), m.conditions)
    ensures wrote.Some? && wrote.value ==>
              s.crKey in c.world.Store() && c.world.Store()[s.crKey].res.status == OfServer(server.conditions)
  {
    var applied, changed := m.ApplyStatus(server.conditions, s.now);
    server.conditions := applied;
    wrote := None;
    if changed {
      var ok := SendStatus(c, s, server);
      wrote := Some(ok);
    }
  }

  /** Undisturbed, and writes of the own status are served. */
  ghost predicate StatusServed(script: Request -> Turn<Payload, St>, s: Setting) {
    AllQuiet(script) && Serves(script, Verb.Get, s.crKey) && Serves(script, Verb.UpdateStatus, s.crKey)
  }

  lemma ServedRound(w: World<Payload, St>, script: Request -> Turn<Payload, St>, at: nat, key: Key)
    requires w.Valid() && AllQuiet(script) && Serves(script, Verb.Get, key) && Serves(script, Verb.UpdateStatus, key)
    requires key in w.Store()
    ensures RetryClient.FreshRound(w, script, at, Verb.UpdateStatus, key)
  {
    assert Quiet(script(Request(at, Verb.Get, key))) && Quiet(script(Request(at + 1, Verb.UpdateStatus, key)));
    assert AfterOthers(w, script(Request(at, Verb.Get, key)).others) == w;
  }

  /** Writes the status; the reply refreshes the rest of the object, a failure leaves the version that was
      read last on it. */
  method SendStatus(c: Cluster<Payload, St>, s: Setting, server: ServerObject) returns (ok: bool)
    requires c.world.Valid()
    modifies c, server
    ensures Advanced(old(c.world), c.world, RightsOf(s)) && CallsOn(old(c.calls), c.calls, s.crKey)
    ensures AllQuiet(c.script) ==> OwnEffect(Verb.UpdateStatus, old(c.world).Store(), c.world.Store(), s.crKey)
    ensures AllQuiet(c.script) && Holds(old(c.world).Store(), s, old(server.spec), old(server.owners)) ==>
              server.spec == old(server.spec) && server.owners == old(server.owners)
    ensures server.conditions == old(server.conditions)
    ensures StatusServed(c.script, s) && s.crKey in old(c.world).Store() ==> ok
    ensures ok ==> s.crKey in c.world.Store() && c.world.Store()[s.crKey].res.status == OfServer(server.conditions)
  {
    var res := Resource(ServerCr(server.spec, server.owners), OfServer(server.conditions));
    if StatusServed(c.script, s) && s.crKey in c.world.Store() {
      ServedRound(c.world, c.script, |c.calls|, s.crKey);
    }
    var r, lost, read := RetryClient.StatusUpdateWithRetry(c, s.crKey, res);
    AdvancedOwnWrite(old(c.world), c.world, RightsOf(s), s.crKey, r.Ok? || lost);
    ok := r.Ok?;
    if r.Ok? {
      server.Refresh(r.value);
    } else if read.Some? {
      server.version := read.value.version;
    }
  }

  /** A run reaches its end, or stops early, with or without returning an error. */
  datatype Exit = Finished(health: Health, routeDisabled: bool, spec: ServerSpec, ztwim: ZtwimSpec) | Halted(err: bool)

  /** How a run leaves the conditions when it stops before its end. */
  ghost predicate HaltRecorded(conds: map<string, Condition>, silent: bool) {
    if READY in conds then !silent && ReadyFailed(conds)
    else if silent then Clean(conds) else Stuck(conds)
  }

  /** Both hashes on the stored pod template are those of the stored configuration texts. */
  ghost predicate ConfigAndRolloutAgree(store: Store<Payload, St>, s: Setting) {
    && s.serverConfigKey in store && s.managerConfigKey in store && s.workloadKey in store
    && ServerHash(store[s.workloadKey].res.spec) == ConfigHash(s, DataOf(store[s.serverConfigKey].res.spec))
    && ManagerHash(store[s.workloadKey].res.spec) == ConfigHash(s, DataOf(store[s.managerConfigKey].res.spec))
  }

  /** The objects before the configuration: service account, services, RBAC and webhook. */
  method ReconcileManaged(c: Cluster<Payload, St>, m: Manager, s: Setting, spec: ServerSpec) returns (ok: bool)
    requires c.world.Valid() && Clean(m.conditions) && WellFormed(s)
    modifies c, m
    ensures PartDone(old(c.world), c.world, old(c.calls), c.calls, s, m.conditions, ok)
    ensures AllQuiet(c.script) && ok ==>
              GroupEffect(old(c.world).Store(), c.world.Store(), s.createOnly, c.script, Managed(s, spec))
    ensures Obliging(c.script, s) ==> ok
    ensures ok ==> GroupsShown(m.conditions) && KeepsDone(old(m.conditions), m.conditions)
  {
    ghost var a, b, d := s.serviceAccount(spec), s.services(spec), s.rbac(spec);
    ManagedParts(s, spec);
    ok := ReconcileGroup(c, m, s, ServiceAccounts, s.serviceAccount(spec));
    if !ok { return; }
    ok := ReconcileNextGroup(c, m, s, Services, s.services(spec), old(c.world), old(c.calls), a);
    if !ok { return; }
    ok := ReconcileNextGroup(c, m, s, Rbac, s.rbac(spec), old(c.world), old(c.calls), a + b);
    if !ok { return; }
    ok := ReconcileNextGroup(c, m, s, Webhooks, s.webhook(spec), old(c.world), old(c.calls), a + b + d);
    if ok {
      AllGroups(m.conditions);
    }
  }

  lemma ManagedParts(s: Setting, spec: ServerSpec)
    requires WellFormed(s)
    ensures ManagedSteps(s.serviceAccount(spec)) && ManagedSteps(s.serviceAccount(spec) + s.services(spec))
    ensures ManagedSteps(s.serviceAccount(spec) + s.services(spec) + s.rbac(spec)) && ManagedSteps(Managed(s, spec))
    ensures Scoped(s, s.serviceAccount(spec)) && Scoped(s, s.services(spec))
    ensures Scoped(s, s.rbac(spec)) && Scoped(s, s.webhook(spec))
  {
    ManagedScoped(s, spec, s.serviceAccount(spec), 0);
    ManagedScoped(s, spec, s.services(spec), |s.serviceAccount(spec)|);
    ManagedScoped(s, spec, s.rbac(spec), |s.serviceAccount(spec)| + |s.services(spec)|);
    ManagedScoped(s, spec, s.webhook(spec), |s.serviceAccount(spec)| + |s.services(spec)| + |s.rbac(spec)|);
    var a, b, d, e := s.serviceAccount(spec), s.services(spec), s.rbac(spec), s.webhook(spec);
    assert ManagedSteps(Managed(s, spec)) && Managed(s, spec) == a + b + d + e;
    PartsAreManaged(a + b + d, e);
    PartsAreManaged(a + b, d);
    PartsAreManaged(a, b);
  }

  lemma ManagedScoped(s: Setting, spec: ServerSpec, steps: seq<Step>, at: nat)
    requires at + |steps| <= |Managed(s, spec)| && Managed(s, spec)[at..at + |steps|] == steps
    ensures Scoped(s, steps)
  {
    forall i | 0 <= i < |steps| ensures steps[i].key in RightsOf(s).scope {
      assert steps[i] == Managed(s, spec)[at + i];
    }
  }

  /** A group reconciled after others, `done`, that began in the world `start` after the trace
      `calls`. */
  method ReconcileNextGroup(c: Cluster<Payload, St>, m: Manager, s: Setting, g: Group, steps: seq<Step>,
                            ghost start: World<Payload, St>, ghost calls: seq<Call>, ghost done: seq<Step>)
    returns (ok: bool)
    requires start.Valid() && Clean(m.conditions) && WellFormed(s)
    requires ManagedSteps(done + steps) && Continued(start, c.world, calls, c.calls, s) && Scoped(s, steps)
    requires AllQuiet(c.script) ==> GroupEffect(start.Store(), c.world.Store(), s.createOnly, c.script, done)
    modifies c, m
    ensures PartDone(start, c.world, calls, c.calls, s, m.conditions, ok)
    ensures AllQuiet(c.script) && ok ==>
              GroupEffect(start.Store(), c.world.Store(), s.createOnly, c.script, done + steps)
    ensures Obliging(c.script, s) ==> ok
    ensures ok ==> Done(m.conditions, GroupType(g)) && KeepsDone(old(m.conditions), m.conditions)
    ensures !ok ==> Undone(m.conditions, GroupType(g))
  {
    PartsAreManaged(done, steps);
    ok := ReconcileGroup(c, m, s, g, steps);
    Chain(start, old(c.world), c.world, calls, old(c.calls), c.calls, s);
    if AllQuiet(c.script) && ok {
      GroupsCompose(start.Store(), old(c.world).Store(), c.world.Store(), s.createOnly, c.script, done, steps);
    }
  }

  method ReconcileConfigMaps(c: Cluster<Payload, St>, m: Manager, s: Setting, spec: ServerSpec, z: ZtwimSpec)
    returns (ok: bool, serverHash: string, managerHash: string)
    requires c.world.Valid() && Clean(m.conditions) && ProperKeys(s)
    modifies c, m
    ensures Advanced(old(c.world), c.world, RightsOf(s)) && old(c.calls) <= c.calls
    ensures ok ==> Clean(m.conditions) && !Silent(old(c.calls), c.calls, s)
    ensures !ok ==> READY !in m.conditions && HaltRecorded(m.conditions, Silent(old(c.calls), c.calls, s))
    ensures ok ==> ConfigsShown(m.conditions) && KeepsDone(old(m.conditions), m.conditions)
    ensures ok ==> Hashed(s, spec, z, serverHash, managerHash)
    ensures AllQuiet(c.script) && ok ==> Configured(old(c.world).Store(), c.world.Store(), s, c.script, spec, z)
    ensures Progress(c.script, s, spec, z, ok, Silent(old(c.calls), c.calls, s))
    ensures AllQuiet(c.script) && Silent(old(c.calls), c.calls, s) ==>
              SameAt(old(c.world).Store(), c.world.Store(), s.crKey)
  {
    ok, serverHash, managerHash := ReconcileTexts(c, m, s, spec, z);
    if !ok { return; }
    ghost var mid, calls := c.world, c.calls;
    ok := ReconcileBundle(c, m, s, spec, z);
    if ok {
      AllConfigs(m.conditions);
    }
    Chain(old(c.world), mid, c.world, old(c.calls), calls, c.calls, s);
    if AllQuiet(c.script) && ok {
      BundleKeepsConfigured(old(c.world).Store(), mid.Store(), c.world.Store(), s, c.script, spec, z);
    }
  }

  /** The two ConfigMaps whose texts are hashed. */
  method ReconcileTexts(c: Cluster<Payload, St>, m: Manager, s: Setting, spec: ServerSpec, z: ZtwimSpec)
    returns (ok: bool, serverHash: string, managerHash: string)
    requires c.world.Valid() && Clean(m.conditions) && ProperKeys(s)
    modifies c, m
    ensures Advanced(old(c.world), c.world, RightsOf(s)) && old(c.calls) <= c.calls
    ensures ok ==> Clean(m.conditions) && !Silent(old(c.calls), c.calls, s)
    ensures !ok ==> READY !in m.conditions && HaltRecorded(m.conditions, Silent(old(c.calls), c.calls, s))
    ensures ok ==> Done(m.conditions, ConfigType(ServerConfig)) && Done(m.conditions, ConfigType(ManagerConfig))
    ensures ok ==> KeepsDone(old(m.conditions), m.conditions)
    ensures ok ==> Hashed(s, spec, z, serverHash, managerHash)
    ensures AllQuiet(c.script) && ok ==> BothTexts(old(c.world).Store(), c.world.Store(), s, c.script, spec, z)
    ensures Progress(c.script, s, spec, z, ok, Silent(old(c.calls), c.calls, s))
    ensures AllQuiet(c.script) && Silent(old(c.calls), c.calls, s) ==>
              SameAt(old(c.world).Store(), c.world.Store(), s.crKey)
  {
    managerHash := "";
    ok, serverHash := ReconcileServerConfig(c, m, s, spec, z);
    if !ok { return; }
    ghost var mid, calls := c.world, c.calls;
    ok, managerHash := ReconcileManagerConfig(c, m, s, spec, z);
    Chain(old(c.world), mid, c.world, old(c.calls), calls, c.calls, s);
    if AllQuiet(c.script) {
      assert SameAt(old(c.world).Store(), mid.Store(), s.crKey) && SameAt(mid.Store(), c.world.Store(), s.crKey);
    }
    if AllQuiet(c.script) && ok {
      TextsBrought(old(c.world).Store(), mid.Store(), c.world.Store(), s, c.script, spec, z);
    }
  }

  /** The two hashes are those of the two configuration texts. */
  ghost predicate Hashed(s: Setting, spec: ServerSpec, z: ZtwimSpec, serverHash: string, managerHash: string) {
    && ServerConf(s, spec, z).Some? && serverHash == ConfigHash(s, ServerConf(s, spec, z).value)
    && ManagerConf(s, spec, z).Some? && managerHash == ConfigHash(s, ManagerConf(s, spec, z).value)
  }

  /** Both configurations are brought about, and nothing else has changed. */
  ghost predicate BothTexts(before: Store<Payload, St>, after: Store<Payload, St>, s: Setting,
                            script: Request -> Turn<Payload, St>, spec: ServerSpec, z: ZtwimSpec)
  {
    && ServerConfigEffect(before, after, s, script, spec, z) && ManagerConfigEffect(before, after, s, script, spec, z)
    && (forall k :: k != s.serverConfigKey && k != s.managerConfigKey ==> SameAt(before, after, k))
  }

  /** The bundle ConfigMap has its effect, unless it is one of the other two. */
  ghost predicate BundleProvided(before: Store<Payload, St>, after: Store<Payload, St>, s: Setting,
                                 script: Request -> Turn<Payload, St>, spec: ServerSpec, z: ZtwimSpec)
  {
    || s.bundleKey(z) == s.serverConfigKey || s.bundleKey(z) == s.managerConfigKey
    || BundleEffect(before, after, s, script, spec, z)
  }

  /** All three ConfigMaps are brought about, and nothing else has changed. */
  ghost predicate Configured(before: Store<Payload, St>, after: Store<Payload, St>, s: Setting,
                             script: Request -> Turn<Payload, St>, spec: ServerSpec, z: ZtwimSpec)
  {
    && ServerConfigEffect(before, after, s, script, spec, z) && ManagerConfigEffect(before, after, s, script, spec, z)
    && BundleProvided(before, after, s, script, spec, z)
    && (forall k :: k != s.serverConfigKey && k != s.managerConfigKey && k != s.bundleKey(z) ==>
          SameAt(before, after, k))
  }

  lemma TextsBrought(a: Store<Payload, St>, mid: Store<Payload, St>, b: Store<Payload, St>, s: Setting,
                     script: Request -> Turn<Payload, St>, spec: ServerSpec, z: ZtwimSpec)
    requires ProperKeys(s)
    requires OnlyAt(a, mid, s.serverConfigKey) && ServerConfigEffect(a, mid, s, script, spec, z)
    requires OnlyAt(mid, b, s.managerConfigKey) && ManagerConfigEffect(mid, b, s, script, spec, z)
    ensures BothTexts(a, b, s, script, spec, z)
  {
    assert SameAt(mid, b, s.serverConfigKey) && SameAt(a, mid, s.managerConfigKey);
    forall k | k != s.serverConfigKey && k != s.managerConfigKey ensures SameAt(a, b, k) {
      assert SameAt(a, mid, k) && SameAt(mid, b, k);
    }
  }

  lemma BundleKeepsConfigured(a: Store<Payload, St>, mid: Store<Payload, St>, b: Store<Payload, St>, s: Setting,
                              script: Request -> Turn<Payload, St>, spec: ServerSpec, z: ZtwimSpec)
    requires ProperKeys(s) && BothTexts(a, mid, s, script, spec, z)
    requires OnlyAt(mid, b, s.bundleKey(z)) && KeepsExisting(mid, b) && BundleEffect(mid, b, s, script, spec, z)
    ensures Configured(a, b, s, script, spec, z)
  {
    assert SameAt(mid, b, s.serverConfigKey) && SameAt(mid, b, s.managerConfigKey);
    forall k | k != s.serverConfigKey && k != s.managerConfigKey && k != s.bundleKey(z) ensures SameAt(a, b, k) {
      assert SameAt(a, mid, k) && SameAt(mid, b, k);
    }
    if s.bundleKey(z) != s.serverConfigKey && s.bundleKey(z) != s.managerConfigKey {
      assert SameAt(a, mid, s.bundleKey(z));
    }
  }

  /** Configurations, workload and route are brought about, and nothing else has changed. */
  ghost predicate Delivered(before: Store<Payload, St>, after: Store<Payload, St>, s: Setting,
                            script: Request -> Turn<Payload, St>, spec: ServerSpec, z: ZtwimSpec)
  {
    && Provided(before, after, s, script, spec, z)
    && (forall k :: !Provides(s, z, k) ==> SameAt(before, after, k))
  }

  predicate Provides(s: Setting, z: ZtwimSpec, k: Key) {
    k in {s.serverConfigKey, s.managerConfigKey, s.bundleKey(z), s.workloadKey, s.routeKey}
  }

  ghost predicate Provided(before: Store<Payload, St>, after: Store<Payload, St>, s: Setting,
                           script: Request -> Turn<Payload, St>, spec: ServerSpec, z: ZtwimSpec)
  {
    && ServerConfigEffect(before, after, s, script, spec, z) && ManagerConfigEffect(before, after, s, script, spec, z)
    && BundleProvided(before, after, s, script, spec, z)
    && WorkloadRolledOut(before, after, s, script, spec, ConfigHash(s, ServerConf(s, spec, z).value),
                         ConfigHash(s, ManagerConf(s, spec, z).value))
    && (RouteManaged(spec) ==> RouteEffect(before, after, s, script, s.route(spec, z)))
  }

  lemma RolloutTransfers(a: Store<Payload, St>, a': Store<Payload, St>, b': Store<Payload, St>, b: Store<Payload, St>,
                         s: Setting, script: Request -> Turn<Payload, St>, spec: ServerSpec, serverHash: string,
                         managerHash: string)
    requires SameAt(a, a', s.workloadKey) && SameAt(b', b, s.workloadKey)
    requires WorkloadRolledOut(a', b', s, script, spec, serverHash, managerHash)
    ensures WorkloadRolledOut(a, b, s, script, spec, serverHash, managerHash)
  {
    forall desired | IsGenerated(desired, s, spec, serverHash, managerHash)
      ensures WorkloadEffect(a, b, s, script, desired)
    {
      assert WorkloadEffect(a', b', s, script, desired);
    }
  }

  /** What is provided is a matter of five keys. */
  lemma ProvidedTransfers(a: Store<Payload, St>, a': Store<Payload, St>, b': Store<Payload, St>, b: Store<Payload, St>,
                          s: Setting, script: Request -> Turn<Payload, St>, spec: ServerSpec, z: ZtwimSpec)
    requires forall k :: Provides(s, z, k) ==> SameAt(a, a', k) && SameAt(b', b, k)
    requires Provided(a', b', s, script, spec, z)
    ensures Provided(a, b, s, script, spec, z)
  {
    assert Provides(s, z, s.serverConfigKey) && Provides(s, z, s.managerConfigKey) && Provides(s, z, s.bundleKey(z));
    assert Provides(s, z, s.workloadKey) && Provides(s, z, s.routeKey);
    RolloutTransfers(a, a', b', b, s, script, spec, ConfigHash(s, ServerConf(s, spec, z).value),
                     ConfigHash(s, ManagerConf(s, spec, z).value));
  }

  /** Each of the three parts touches objects the others leave alone. */
  lemma PartsDeliver(a: Store<Payload, St>, w1: Store<Payload, St>, w2: Store<Payload, St>, b: Store<Payload, St>,
                     s: Setting, script: Request -> Turn<Payload, St>, spec: ServerSpec, z: ZtwimSpec,
                     serverHash: string, managerHash: string)
    requires ProperKeys(s) && Hashed(s, spec, z, serverHash, managerHash) && Configured(a, w1, s, script, spec, z)
    requires OnlyAt(w1, w2, s.workloadKey) && WorkloadRolledOut(w1, w2, s, script, spec, serverHash, managerHash)
    requires OnlyAt(w2, b, s.routeKey) && (RouteManaged(spec) ==> RouteEffect(w2, b, s, script, s.route(spec, z)))
    ensures Delivered(a, b, s, script, spec, z)
  {
    assert SameAt(w1, w2, s.serverConfigKey) && SameAt(w2, b, s.serverConfigKey);
    assert SameAt(w1, w2, s.managerConfigKey) && SameAt(w2, b, s.managerConfigKey);
    assert SameAt(w1, w2, s.bundleKey(z)) && SameAt(w2, b, s.bundleKey(z));
    assert SameAt(a, w1, s.workloadKey) && SameAt(w2, b, s.workloadKey);
    RolloutTransfers(a, w1, w2, b, s, script, spec, serverHash, managerHash);
    assert SameAt(a, w1, s.routeKey) && SameAt(w1, w2, s.routeKey);
    forall k | !Provides(s, z, k) ensures SameAt(a, b, k) {
      assert SameAt(a, w1, k) && SameAt(w1, w2, k) && SameAt(w2, b, k);
    }
  }

  /** What was shown as True still is, the conditions of the workload and the route apart. */
  ghost predicate Lasting(a: map<string, Condition>, b: map<string, Condition>) {
    forall t :: t != WORKLOAD && t != ROUTE && Done(a, t) ==> Done(b, t)
  }

  lemma TypesDiffer()
    ensures forall g :: GroupType(g) != WORKLOAD && GroupType(g) != ROUTE && GroupType(g) != READY
    ensures forall which :: ConfigType(which) != WORKLOAD && ConfigType(which) != ROUTE && ConfigType(which) != READY
    ensures CONFIGURATION !in {WORKLOAD, ROUTE, READY} && TTL_VALID !in {WORKLOAD, ROUTE, READY}
    ensures MODE !in {WORKLOAD, ROUTE, READY}
  {
    assert |MODE| == 14 && MODE[0] != ROUTE[0];
    assert |WORKLOAD| == 20 && |ROUTE| == 14 && |READY| == 5 && |CONFIGURATION| == 18 && |TTL_VALID| == 21;
    forall g ensures |GroupType(g)| !in {20, 14, 5} {
      GroupNames();
    }
    forall which ensures |ConfigType(which)| !in {20, 14, 5} {
      ConfigNames();
    }
  }

  /** The three ConfigMaps, the StatefulSet built from the first two, and the route. */
  method ReconcileConfigured(c: Cluster<Payload, St>, m: Manager, s: Setting, spec: ServerSpec, z: ZtwimSpec,
                             stored: seq<Stamped>)
    returns (exit: Exit)
    requires c.world.Valid() && Clean(m.conditions) && ProperKeys(s)
    modifies c, m
    ensures Advanced(old(c.world), c.world, RightsOf(s)) && old(c.calls) <= c.calls
    ensures exit.Halted? ==> READY !in m.conditions && HaltRecorded(m.conditions, Silent(old(c.calls), c.calls, s))
    ensures exit.Finished? ==> !Silent(old(c.calls), c.calls, s)
    ensures exit.Finished? ==> Concluded(m.conditions, exit.health, exit.routeDisabled)
    ensures exit.Finished? ==> exit.spec == spec && exit.ztwim == z && exit.routeDisabled == RouteDisabled(spec)
    ensures exit.Finished? ==> Lasting(old(m.conditions), m.conditions) && ConfigsShown(m.conditions)
    ensures exit.Finished? && AllQuiet(c.script) ==> HealthTold(c.world.Store(), s, exit.health)
    ensures exit.Finished? && AllQuiet(c.script) ==>
              Delivered(old(c.world).Store(), c.world.Store(), s, c.script, spec, z)
    ensures Progress(c.script, s, spec, z, exit.Finished?, Silent(old(c.calls), c.calls, s))
    ensures AllQuiet(c.script) && Silent(old(c.calls), c.calls, s) ==>
              SameAt(old(c.world).Store(), c.world.Store(), s.crKey)
  {
    var ok, serverHash, managerHash := ReconcileConfigMaps(c, m, s, spec, z);
    if !ok { return Halted(true); }
    ghost var w1, calls := c.world, c.calls;
    var health;
    ok, health := ReconcileWorkload(c, m, s, spec, serverHash, managerHash);
    Chain(old(c.world), w1, c.world, old(c.calls), calls, c.calls, s);
    if !ok { return Halted(true); }
    ghost var w2 := c.world;
    calls := c.calls;
    ok := ReconcileRoute(c, m, s, spec, z, stored, health);
    Chain(old(c.world), w2, c.world, old(c.calls), calls, c.calls, s);
    if !ok { return Halted(true); }
    exit := Finished(health, RouteDisabled(spec), spec, z);
    TypesDiffer();
    if AllQuiet(c.script) {
      assert SameAt(w2.Store(), c.world.Store(), s.workloadKey);
    }
    if AllQuiet(c.script) {
      PartsDeliver(old(c.world).Store(), w1.Store(), w2.Store(), c.world.Store(), s, c.script, spec, z, serverHash,
                   managerHash);
    }
  }

  /** What an undisturbed run that reached its end has done to the store: each object was created if
      it was missing, replaced by the merged one if it needed to be and could be, and otherwise left
      alone. */
  ghost predicate Settled(before: Store<Payload, St>, after: Store<Payload, St>, s: Setting,
                          script: Request -> Turn<Payload, St>, spec: ServerSpec, z: ZtwimSpec)
  {
    && (forall i :: 0 <= i < |Managed(s, spec)| ==>
          StepEffect(before, after, s.createOnly, script, Managed(s, spec)[i]))
    && Provided(before, after, s, script, spec, z)
    && (forall k :: !Target(s, spec, z, k) ==> SameAt(before, after, k))
  }

  /** An object this run is about. */
  ghost predicate Target(s: Setting, spec: ServerSpec, z: ZtwimSpec, k: Key) {
    k == s.crKey || Provides(s, z, k) || !Outside(k, Managed(s, spec))
  }

  lemma StepTransfers(a: Store<Payload, St>, a': Store<Payload, St>, b': Store<Payload, St>, b: Store<Payload, St>,
                      createOnly: bool, script: Request -> Turn<Payload, St>, step: Step)
    requires SameAt(a, a', step.key) && SameAt(b', b, step.key) && StepEffect(a', b', createOnly, script, step)
    ensures StepEffect(a, b, createOnly, script, step)
  {
  }

  lemma GroupLeaves(a: Store<Payload, St>, b: Store<Payload, St>, createOnly: bool,
                    script: Request -> Turn<Payload, St>, steps: seq<Step>, k: Key)
    requires ManagedSteps(steps) && GroupEffect(a, b, createOnly, script, steps) && !ManagedKind(k.kind)
    ensures SameAt(a, b, k)
  {
    assert Outside(k, steps);
  }

  /** Managed objects first, the rest after them. */
  lemma SettledFrom(a: Store<Payload, St>, mid: Store<Payload, St>, b: Store<Payload, St>, s: Setting,
                    script: Request -> Turn<Payload, St>, spec: ServerSpec, z: ZtwimSpec)
    requires WellFormed(s) && GroupEffect(a, mid, s.createOnly, script, Managed(s, spec))
    requires Delivered(mid, b, s, script, spec, z)
    ensures Settled(a, b, s, script, spec, z)
  {
    assert ManagedSteps(Managed(s, spec));
    assert forall k: Key :: ManagedKind(k.kind) ==> !Provides(s, z, k);
    StepsKept(a, mid, b, s.createOnly, script, Managed(s, spec));
    ProvidedAfterGroup(a, mid, b, s, script, spec, z);
    forall k | !Target(s, spec, z, k) ensures SameAt(a, b, k) {
      assert SameAt(a, mid, k) && SameAt(mid, b, k);
    }
  }

  lemma StepsKept(a: Store<Payload, St>, mid: Store<Payload, St>, b: Store<Payload, St>, createOnly: bool,
                  script: Request -> Turn<Payload, St>, steps: seq<Step>)
    requires ManagedSteps(steps) && GroupEffect(a, mid, createOnly, script, steps)
    requires forall k: Key :: ManagedKind(k.kind) ==> SameAt(mid, b, k)
    ensures forall i :: 0 <= i < |steps| ==> StepEffect(a, b, createOnly, script, steps[i])
  {
    forall i | 0 <= i < |steps| ensures StepEffect(a, b, createOnly, script, steps[i]) {
      StepTransfers(a, a, mid, b, createOnly, script, steps[i]);
    }
  }

  lemma ProvidedAfterGroup(a: Store<Payload, St>, mid: Store<Payload, St>, b: Store<Payload, St>, s: Setting,
                           script: Request -> Turn<Payload, St>, spec: ServerSpec, z: ZtwimSpec)
    requires ProperKeys(s) && ManagedSteps(Managed(s, spec))
    requires GroupEffect(a, mid, s.createOnly, script, Managed(s, spec)) && Provided(mid, b, s, script, spec, z)
    ensures Provided(a, b, s, script, spec, z)
  {
    forall k | Provides(s, z, k) ensures SameAt(a, mid, k) {
      GroupLeaves(a, mid, s.createOnly, script, Managed(s, spec), k);
    }
    ProvidedTransfers(a, mid, b, b, s, script, spec, z);
  }

  /** Writes to the operator's own resource, before and after, do not matter. */
  lemma SettledAround(a: Store<Payload, St>, a': Store<Payload, St>, b': Store<Payload, St>, b: Store<Payload, St>,
                      s: Setting, script: Request -> Turn<Payload, St>, spec: ServerSpec, z: ZtwimSpec)
    requires WellFormed(s) && OnlyAt(a, a', s.crKey) && OnlyAt(b', b, s.crKey)
    requires Settled(a', b', s, script, spec, z)
    ensures Settled(a, b, s, script, spec, z)
  {
    var steps := Managed(s, spec);
    assert ManagedSteps(steps);
    forall i | 0 <= i < |steps| ensures StepEffect(a, b, s.createOnly, script, steps[i]) {
      StepTransfers(a, a', b', b, s.createOnly, script, steps[i]);
    }
    assert forall k :: Provides(s, z, k) ==> k != s.crKey;
    ProvidedTransfers(a, a', b', b, s, script, spec, z);
    forall k | !Target(s, spec, z, k) ensures SameAt(a, b, k) {
      assert SameAt(a, a', k) && SameAt(a', b', k) && SameAt(b', b, k);
    }
  }

  /** Every object of every group has been seen to. */
  lemma EveryObject(a: Store<Payload, St>, b: Store<Payload, St>, s: Setting, script: Request -> Turn<Payload, St>,
                    spec: ServerSpec, z: ZtwimSpec, step: Step)
    requires Settled(a, b, s, script, spec, z)
    requires step in s.serviceAccount(spec) || step in s.services(spec) || step in s.rbac(spec)
             || step in s.webhook(spec)
    ensures StepEffect(a, b, s.createOnly, script, step)
  {
    assert step in Managed(s, spec);
  }

  /** Config and rollout agree once a run has settled outside create-only mode, whichever of the
      create, update and skip paths each of the three objects took. */
  lemma SettledAgrees(a: Store<Payload, St>, b: Store<Payload, St>, s: Setting, script: Request -> Turn<Payload, St>,
                      spec: ServerSpec, z: ZtwimSpec)
    requires Settled(a, b, s, script, spec, z) && Faithful(script) && !s.createOnly
    ensures ConfigAndRolloutAgree(b, s)
  {
    ConfigStored(a, b, s, script, s.serverConfigKey, ConfigData(ServerConf(s, spec, z).value, s.serverLabels(spec)));
    ConfigStored(a, b, s, script, s.managerConfigKey, ConfigData(ManagerConf(s, spec, z).value, s.managerLabels));
    var serverHash := ConfigHash(s, ServerConf(s, spec, z).value);
    var managerHash := ConfigHash(s, ManagerConf(s, spec, z).value);
    var desired := WorkloadOf(s, spec, serverHash, managerHash);
    assert IsGenerated(desired, s, spec, serverHash, managerHash);
    GeneratedWorkload(s, spec, serverHash, managerHash);
    WorkloadStored(a, b, s, script, desired);
  }

  /** Pods roll exactly when the configuration changes: between two stores that runs left behind, each annotation
      differs iff the stored text it belongs to does, white space at its ends apart. */
  lemma RolloutFollowsText(b: Store<Payload, St>, d: Store<Payload, St>, s: Setting)
    requires ConfigAndRolloutAgree(b, s) && ConfigAndRolloutAgree(d, s) && TellsApart(s.sha)
    ensures ServerHash(b[s.workloadKey].res.spec) == ServerHash(d[s.workloadKey].res.spec) <==>
              TrimSpace(DataOf(b[s.serverConfigKey].res.spec)) == TrimSpace(DataOf(d[s.serverConfigKey].res.spec))
    ensures ManagerHash(b[s.workloadKey].res.spec) == ManagerHash(d[s.workloadKey].res.spec) <==>
              TrimSpace(DataOf(b[s.managerConfigKey].res.spec)) == TrimSpace(DataOf(d[s.managerConfigKey].res.spec))
  {
    HashFollowsText(s, DataOf(b[s.serverConfigKey].res.spec), DataOf(d[s.serverConfigKey].res.spec));
    HashFollowsText(s, DataOf(b[s.managerConfigKey].res.spec), DataOf(d[s.managerConfigKey].res.spec));
  }

  /** The same of two runs: the annotation they leave behind differs iff what they render does. */
  lemma SettledRolloutFollowsText(a: Store<Payload, St>, b: Store<Payload, St>, d: Store<Payload, St>, s: Setting,
                                  script: Request -> Turn<Payload, St>, spec: ServerSpec, z: ZtwimSpec,
                                  spec': ServerSpec, z': ZtwimSpec)
    requires Settled(a, b, s, script, spec, z) && Settled(b, d, s, script, spec', z')
    requires Faithful(script) && !s.createOnly && TellsApart(s.sha)
    ensures s.workloadKey in b && s.workloadKey in d
    ensures ServerConf(s, spec, z).Some? && ServerConf(s, spec', z').Some?
    ensures ManagerConf(s, spec, z).Some? && ManagerConf(s, spec', z').Some?
    ensures ServerHash(b[s.workloadKey].res.spec) == ServerHash(d[s.workloadKey].res.spec) <==>
              TrimSpace(ServerConf(s, spec, z).value) == TrimSpace(ServerConf(s, spec', z').value)
    ensures ManagerHash(b[s.workloadKey].res.spec) == ManagerHash(d[s.workloadKey].res.spec) <==>
              TrimSpace(ManagerConf(s, spec, z).value) == TrimSpace(ManagerConf(s, spec', z').value)
  {
    SettledAgrees(a, b, s, script, spec, z);
    SettledAgrees(b, d, s, script, spec', z');
    SettledTexts(a, b, s, script, spec, z);
    SettledTexts(b, d, s, script, spec', z');
    RolloutFollowsText(b, d, s);
  }

  /** A settled run has left the rendered texts in the store. */
  lemma SettledTexts(a: Store<Payload, St>, b: Store<Payload, St>, s: Setting, script: Request -> Turn<Payload, St>,
                     spec: ServerSpec, z: ZtwimSpec)
    requires Settled(a, b, s, script, spec, z) && Faithful(script) && !s.createOnly
    ensures ServerConf(s, spec, z).Some? && ManagerConf(s, spec, z).Some?
    ensures s.serverConfigKey in b && DataOf(b[s.serverConfigKey].res.spec) == ServerConf(s, spec, z).value
    ensures s.managerConfigKey in b && DataOf(b[s.managerConfigKey].res.spec) == ManagerConf(s, spec, z).value
    ensures KeepsConfigs(script) ==>
              && LabelsOf(b[s.serverConfigKey].res.spec) == s.serverLabels(spec)
              && LabelsOf(b[s.managerConfigKey].res.spec) == s.managerLabels
  {
    ConfigStored(a, b, s, script, s.serverConfigKey, ConfigData(ServerConf(s, spec, z).value, s.serverLabels(spec)));
    ConfigStored(a, b, s, script, s.managerConfigKey, ConfigData(ManagerConf(s, spec, z).value, s.managerLabels));
  }

  lemma WorkloadStored(a: Store<Payload, St>, b: Store<Payload, St>, s: Setting, script: Request -> Turn<Payload, St>,
                       desired: Payload)
    requires WorkloadEffect(a, b, s, script, desired) && Faithful(script) && !s.createOnly
    ensures s.workloadKey in b
    ensures var stored := b[s.workloadKey].res.spec;
            ServerHash(stored) == ServerHash(desired) && ManagerHash(stored) == ManagerHash(desired)
  {
  }

  /** The StatefulSet a run for this specification generates. */
  ghost function DesiredBy(s: Setting, spec: ServerSpec, z: ZtwimSpec): Payload
    requires ServerConf(s, spec, z).Some? && ManagerConf(s, spec, z).Some?
  {
    WorkloadOf(s, spec, ConfigHash(s, ServerConf(s, spec, z).value), ConfigHash(s, ManagerConf(s, spec, z).value))
  }

  /** A settled run keeps a stored StatefulSet, version included, exactly when it is in create-only mode or
      the comparison takes the stored one for the generated one; otherwise it replaces it. */
  lemma WorkloadKeptExactly(a: Store<Payload, St>, b: Store<Payload, St>, s: Setting,
                            script: Request -> Turn<Payload, St>, spec: ServerSpec, z: ZtwimSpec)
    requires Settled(a, b, s, script, spec, z) && s.workloadKey in a
    ensures s.workloadKey in b && ServerConf(s, spec, z).Some? && ManagerConf(s, spec, z).Some?
    ensures var stored, desired := a[s.workloadKey], DesiredBy(s, spec, z);
            && (b[s.workloadKey] == stored <==> s.createOnly || WorkloadShows(stored.res.spec, desired))
            && (b[s.workloadKey] != stored ==>
                  b[s.workloadKey].version != stored.version && Admitted(script, desired, b[s.workloadKey].res.spec))
  {
    var serverHash := ConfigHash(s, ServerConf(s, spec, z).value);
    var managerHash := ConfigHash(s, ManagerConf(s, spec, z).value);
    assert IsGenerated(DesiredBy(s, spec, z), s, spec, serverHash, managerHash);
  }

  /** The stored StatefulSet has all its protocols. */
  ghost predicate WorkloadFilled(store: Store<Payload, St>, s: Setting) {
    s.workloadKey in store && SpireStatefulSet.ProtocolsFilled(StsOf(store[s.workloadKey].res.spec).pod)
  }

  /** Outside create-only mode every settled run rewrites a StatefulSet whose protocols are filled in. */
  lemma WorkloadRewritten(a: Store<Payload, St>, b: Store<Payload, St>, s: Setting,
                          script: Request -> Turn<Payload, St>, spec: ServerSpec, z: ZtwimSpec)
    requires Settled(a, b, s, script, spec, z) && !s.createOnly && WorkloadFilled(a, s)
    ensures s.workloadKey in b && b[s.workloadKey].version != a[s.workloadKey].version
    ensures FillsProtocols(script) ==> WorkloadFilled(b, s)
  {
    WorkloadKeptExactly(a, b, s, script, spec, z);
    GeneratedWorkload(s, spec, ConfigHash(s, ServerConf(s, spec, z).value),
                      ConfigHash(s, ManagerConf(s, spec, z).value));
  }

  /** Admission fills in the protocols of a StatefulSet. */
  ghost predicate FillsProtocols(script: Request -> Turn<Payload, St>) {
    forall q, p: Payload :: p.Workload? ==> SpireStatefulSet.ProtocolsFilled(StsOf(script(q).admit(p)).pod)
  }

  // ---------- convergence ----------

  /** A step that sees `stored` asks for no write. */
  ghost predicate Calm(step: Step, stored: Payload) {
    !step.needs(stored, step.merge(stored, step.desired))
  }

  /** Whatever admission makes of what the step sends, the step is content with it. */
  ghost predicate Converges(step: Step, script: Request -> Turn<Payload, St>) {
    && (forall stored :: Admitted(script, step.desired, stored) ==> Calm(step, stored))
    && (forall e, stored :: Admitted(script, step.merge(e, step.desired), stored) ==> Calm(step, stored))
  }

  /** One write suffices, in the store: a run that settles after one that has settled leaves the object
      of every converging step as it is, version included. */
  lemma SecondRunLeavesAlone(a: Store<Payload, St>, b: Store<Payload, St>, d: Store<Payload, St>, s: Setting,
                             script: Request -> Turn<Payload, St>, script': Request -> Turn<Payload, St>,
                             spec: ServerSpec, z: ZtwimSpec, i: nat)
    requires !s.createOnly && Settled(a, b, s, script, spec, z) && Settled(b, d, s, script', spec, z)
    requires i < |Managed(s, spec)| && Converges(Managed(s, spec)[i], script)
    ensures var key := Managed(s, spec)[i].key;
            key in b && key in d && d[key] == b[key]
  {
    var step := Managed(s, spec)[i];
    assert StepEffect(a, b, s.createOnly, script, step) && StepEffect(b, d, s.createOnly, script', step);
    assert Calm(step, b[step.key].res.spec);
  }

  /** Admission assigns cluster addresses and other managed fields, adds metadata, fills in port
      protocols and the preserved webhook fields. */
  ghost predicate Defaulting(script: Request -> Turn<Payload, St>) {
    forall q, p :: DefaultsOnly(p, script(q).admit(p))
  }

  ghost predicate DefaultsOnly(sent: Payload, stored: Payload) {
    && (sent.Svc? ==> stored.Svc? && ServiceSync.Admits(sent.service, stored.service))
    && (sent.Hooks? ==> stored.Hooks? && WebhookSync.ServerAdmits(sent.webhooks, stored.webhooks))
  }

  lemma ServiceConverges(key: Key, desired: ServiceSync.Service, script: Request -> Turn<Payload, St>)
    requires Defaulting(script)
    ensures Converges(ServiceStep(key, desired), script)
  {
    var step := ServiceStep(key, desired);
    forall stored | Admitted(script, step.desired, stored) ensures Calm(step, stored) {
      assert DefaultsOnly(step.desired, stored);
      ServiceSync.AdmittedIsUpToDate(desired, desired, stored.service);
    }
    forall e, stored | Admitted(script, step.merge(e, step.desired), stored) ensures Calm(step, stored) {
      assert DefaultsOnly(step.merge(e, step.desired), stored);
      ServiceSync.AdmittedIsUpToDate(desired, step.merge(e, step.desired).service, stored.service);
    }
  }

  lemma WebhookConverges(key: Key, desired: WebhookSync.Configuration, script: Request -> Turn<Payload, St>)
    requires Defaulting(script)
    ensures Converges(WebhookStep(key, desired), script)
  {
    var step := WebhookStep(key, desired);
    forall stored | Admitted(script, step.desired, stored) ensures Calm(step, stored) {
      assert DefaultsOnly(step.desired, stored);
      WebhookSync.AdmittedIsUpToDate(desired, None, stored.webhooks);
    }
    forall e, stored | Admitted(script, step.merge(e, step.desired), stored) ensures Calm(step, stored) {
      assert DefaultsOnly(step.merge(e, step.desired), stored);
      WebhookSync.AdmittedIsUpToDate(desired, if e.Hooks? then Some(e.webhooks) else None, stored.webhooks);
    }
  }

  /** Outside create-only mode a settled run leaves behind a Service that shows what is desired, */
  lemma ServiceSettled(a: Store<Payload, St>, b: Store<Payload, St>, s: Setting, script: Request -> Turn<Payload, St>,
                       spec: ServerSpec, z: ZtwimSpec, key: Key, desired: ServiceSync.Service)
    requires Settled(a, b, s, script, spec, z) && !s.createOnly && Defaulting(script)
    requires ServiceStep(key, desired) in s.services(spec)
    ensures key in b && b[key].res.spec.Svc? && ServiceSync.Shows(b[key].res.spec.service, desired)
  {
    var step := ServiceStep(key, desired);
    EveryObject(a, b, s, script, spec, z, step);
    var stored := b[key].res.spec;
    if key in a && !step.needs(a[key].res.spec, step.merge(a[key].res.spec, step.desired)) {
      ServiceSync.ShowsExactly(stored.service, desired);
    } else {
      var sent := if key in a then step.merge(a[key].res.spec, step.desired) else step.desired;
      assert DefaultsOnly(sent, stored);
      ServiceSync.AdmittedIsUpToDate(desired, sent.service, stored.service);
    }
  }

  /** a webhook configuration that shows what is desired, */
  lemma WebhookSettled(a: Store<Payload, St>, b: Store<Payload, St>, s: Setting, script: Request -> Turn<Payload, St>,
                       spec: ServerSpec, z: ZtwimSpec, key: Key, desired: WebhookSync.Configuration)
    requires Settled(a, b, s, script, spec, z) && !s.createOnly && Defaulting(script)
    requires WebhookStep(key, desired) in s.webhook(spec)
    ensures key in b && b[key].res.spec.Hooks? && WebhookSync.Shows(b[key].res.spec.webhooks, desired)
  {
    var step := WebhookStep(key, desired);
    EveryObject(a, b, s, script, spec, z, step);
    var stored := b[key].res.spec;
    if key in a && !step.needs(a[key].res.spec, step.merge(a[key].res.spec, step.desired)) {
      WebhookSync.ShowsExactly(stored.webhooks, desired);
    } else {
      var e := if key in a && a[key].res.spec.Hooks? then Some(a[key].res.spec.webhooks) else None;
      assert DefaultsOnly(if key in a then step.merge(a[key].res.spec, step.desired) else step.desired, stored);
      WebhookSync.AdmittedIsUpToDate(desired, e, stored.webhooks);
    }
  }

  /** and, if it is managed, a route that is the desired one or what admission made of it. */
  lemma RouteSettled(a: Store<Payload, St>, b: Store<Payload, St>, s: Setting, script: Request -> Turn<Payload, St>,
                     spec: ServerSpec, z: ZtwimSpec)
    requires Settled(a, b, s, script, spec, z) && !s.createOnly
    requires spec.federation.Some? && spec.federation.value.managedRoute == "true"
    ensures s.routeKey in b
    ensures b[s.routeKey].res.spec == s.route(spec, z) || Admitted(script, s.route(spec, z), b[s.routeKey].res.spec)
  {
  }

  lemma ConfigStored(a: Store<Payload, St>, b: Store<Payload, St>, s: Setting, script: Request -> Turn<Payload, St>,
                     key: Key, desired: Payload)
    requires ConfigEffect(a, b, s, script, key, desired) && Faithful(script) && !s.createOnly
    ensures key in b && DataOf(b[key].res.spec) == DataOf(desired)
  {
  }

  method NeedsOwnerReferenceUpdate(owners: seq<Owner>, expected: Owner) returns (needed: bool)
    ensures needed <==> expected !in owners
  {
    if |owners| == 0 {
      return true;
    }
    for i := 0 to |owners|
      invariant expected !in owners[..i]
    {
      assert owners[..i + 1] == owners[..i] + [owners[i]];
      if owners[i].uid == expected.uid && owners[i].name == expected.name && owners[i].kind == expected.kind {
        assert owners[i] == expected;
        return false;
      }
    }
    assert owners[..|owners|] == owners;
    return true;
  }

  /** Ready was set by hand, to a failure. */
  ghost predicate ReadyFailed(conds: map<string, Condition>) {
    && Keyed(conds) && READY in conds && conds[READY].status == IsFalse && conds[READY].reason == REASON_FAILED
    && "Failed to " <= conds[READY].message
  }

  /** The failures for which a run sets Ready by hand. */
  datatype EarlyFailure = ZtwimMissing | OwnerUnset | OwnerUnwritten

  method FailReady(m: Manager, failure: EarlyFailure)
    requires Keyed(m.conditions)
    modifies m
    ensures ReadyFailed(m.conditions)
  {
    var what := match failure
      case ZtwimMissing => "retrieve ZeroTrustWorkloadIdentityManager from cluster"
      case OwnerUnset => "set owner reference on SpireServer"
      case OwnerUnwritten => "update SpireServer with owner reference";
    m.AddCondition(READY, REASON_FAILED, "Failed to " + what, IsFalse);
  }

  /** Admission gives back a SpireServer for a SpireServer. */
  ghost predicate Typed(script: Request -> Turn<Payload, St>) {
    forall q, p: Payload :: p.ServerCr? ==> script(q).admit(p).ServerCr?
  }

  /** Admission leaves a SpireServer as it is. */
  ghost predicate KeepsServers(script: Request -> Turn<Payload, St>) {
    forall q, p: Payload :: p.ServerCr? ==> script(q).admit(p) == p
  }

  /** The store holds what admission made of `p` at the operator's own key. */
  ghost predicate Sent(store: Store<Payload, St>, s: Setting, script: Request -> Turn<Payload, St>, p: Payload) {
    s.crKey in store && Admitted(script, p, store[s.crKey].res.spec)
  }

  /** Makes the top-level resource an owner of the SpireServer, if it is not one yet. */
  method EnsureOwner(c: Cluster<Payload, St>, m: Manager, s: Setting, server: ServerObject, self: Owner)
    returns (ok: bool)
    requires c.world.Valid() && Clean(m.conditions)
    modifies c, m, server
    ensures Advanced(old(c.world), c.world, RightsOf(s)) && CallsOn(old(c.calls), c.calls, s.crKey)
    ensures ok ==> m.conditions == old(m.conditions)
    ensures !ok ==> ReadyFailed(m.conditions)
    // A write is made exactly when the owner is missing and may be set.
    ensures c.calls == old(c.calls) <==> self in old(server.owners) || !s.ownable(s.crKey)
    ensures self in old(server.owners) ==>
              && ok && c.world == old(c.world)
              && server.spec == old(server.spec) && server.conditions == old(server.conditions)
    ensures ok && self !in old(server.owners) ==>
              Sent(c.world.Store(), s, c.script, ServerCr(old(server.spec), WithOwner(old(server.owners), self)))
    ensures AllQuiet(c.script) ==> OnlyAt(old(c.world).Store(), c.world.Store(), s.crKey)
    // What is in memory afterwards is what is stored.
    ensures ok && Typed(c.script) && Holds(old(c.world).Store(), s, old(server.spec), old(server.owners)) ==>
              Holds(c.world.Store(), s, server.spec, server.owners)
    ensures ok && KeepsServers(c.script) ==> server.spec == old(server.spec)
    ensures OwnerSent(old(c.calls), c.calls, s) || server.conditions == old(server.conditions)
  {
    ok := true;
    var needed := NeedsOwnerReferenceUpdate(server.owners, self);
    if needed {
      if !s.ownable(s.crKey) {
        FailReady(m, OwnerUnset);
        return false;
      }
      ok := SendOwner(c, s, server, self);
      if !ok {
        FailReady(m, OwnerUnwritten);
      }
    }
  }

  method SendOwner(c: Cluster<Payload, St>, s: Setting, server: ServerObject, self: Owner) returns (ok: bool)
    requires c.world.Valid()
    modifies c, server
    ensures Advanced(old(c.world), c.world, RightsOf(s))
    ensures CallsOn(old(c.calls), c.calls, s.crKey) && OwnerSent(old(c.calls), c.calls, s)
    ensures ok ==> Sent(c.world.Store(), s, c.script, ServerCr(old(server.spec), WithOwner(old(server.owners), self)))
    ensures ok && Typed(c.script) ==> Holds(c.world.Store(), s, server.spec, server.owners)
    ensures ok && KeepsServers(c.script) ==> server.spec == old(server.spec)
    ensures AllQuiet(c.script) ==> OnlyAt(old(c.world).Store(), c.world.Store(), s.crKey)
  {
    server.owners := WithOwner(server.owners, self);
    var sent := ServerCr(server.spec, server.owners);
    var written := Overwrite(c, s, s.crKey, sent, server.version);
    assert c.calls[|old(c.calls)|].verb == Verb.Update;
    ok := written.Ok?;
    if ok {
      ghost var admitted := c.script(Request(|old(c.calls)|, Verb.Update, s.crKey)).admit(sent);
      assert Typed(c.script) ==> admitted.ServerCr?;
      assert KeepsServers(c.script) ==> admitted == sent;
      server.Refresh(written.value);
    }
  }

  method HandleCreateOnlyMode(m: Manager, s: Setting, stored: seq<Stamped>)
    requires Clean(m.conditions)
    modifies m
    ensures Clean(m.conditions)
    ensures s.createOnly ==> Done(m.conditions, MODE)
    ensures !s.createOnly ==>
              if ShownTrue(stored, MODE) then Undone(m.conditions, MODE) else m.conditions == old(m.conditions)
  {
    assert MODE in EXEMPT && |READY| == 5 && |MODE| == 14;
    if s.createOnly {
      m.AddCondition(MODE, "CreateOnlyModeEnabled",
                     "Create-Only Mode is active: Updates are not reconciled to existing resources", IsTrue);
    } else {
      var shown := Find(stored, MODE);
      if shown.Some? && shown.value.cond.status == IsTrue {
        m.AddCondition(MODE, "CreateOnlyModeDisabled", "Create-only mode is disabled", IsFalse);
      }
    }
  }

  function ZtwimOf(p: Payload): ZtwimSpec { if p.ZtwimCr? then p.ztwim else ZtwimSpec("", "", "") }

  /** The store holds this specification of the SpireServer and this top-level resource. */
  ghost predicate Identified(store: Store<Payload, St>, s: Setting, spec: ServerSpec, z: ZtwimSpec) {
    && s.crKey in store && store[s.crKey].res.spec.ServerCr? && store[s.crKey].res.spec.spec == spec
    && s.ztwimKey in store && ZtwimOf(store[s.ztwimKey].res.spec) == z
  }

  /** The store has an owner for the resource, which already names it, and nothing is wrong with the
      configuration. */
  ghost predicate Poised(store: Store<Payload, St>, s: Setting, spec: ServerSpec, owners: seq<Owner>) {
    && s.ztwimKey in store && store[s.ztwimKey].res.spec.ZtwimCr?
    && var z := store[s.ztwimKey].res.spec.ztwim;
    && store[s.ztwimKey].res.spec.self in owners
    && Acceptable(s, spec, z.trustDomain) && ServerConf(s, spec, z).Some? && ManagerConf(s, spec, z).Some?
  }

  /** So is the resource in memory the stored one. */
  ghost predicate SetUp(store: Store<Payload, St>, s: Setting, spec: ServerSpec, owners: seq<Owner>) {
    Poised(store, s, spec, owners) && Holds(store, s, spec, owners)
  }

  /** A run gets past the top-level resource unless the read of it fails. */
  ghost predicate Starts(script: Request -> Turn<Payload, St>, s: Setting, ok: bool, silent: bool) {
    && (ok || silent) && (Denies(script, s.ztwimKey) ==> silent)
    && (Serves(script, Verb.Get, s.ztwimKey) ==> !silent)
  }

  /** Finds and records the owner, then validates: the part of a run before it touches other objects. */
  method Prepare(c: Cluster<Payload, St>, m: Manager, s: Setting, server: ServerObject)
    returns (halt: Option<Exit>, z: ZtwimSpec)
    requires c.world.Valid() && m.conditions == map[] && ProperKeys(s)
    modifies c, m, server
    ensures Advanced(old(c.world), c.world, RightsOf(s)) && old(c.calls) <= c.calls
    ensures halt.Some? ==> halt.value.Halted? && HaltRecorded(m.conditions, Silent(old(c.calls), c.calls, s))
    ensures halt.None? ==> Clean(m.conditions) && Acceptable(s, server.spec, z.trustDomain)
    ensures halt.None? ==> Validated(m.conditions, s.createOnly)
    ensures halt.None? ==> !Silent(old(c.calls), c.calls, s)
    ensures OwnerSent(old(c.calls), c.calls, s) || server.conditions == old(server.conditions)
    ensures Obliging(c.script, s) && SetUp(old(c.world).Store(), s, old(server.spec), old(server.owners)) ==>
              && Starts(c.script, s, halt.None?, Silent(old(c.calls), c.calls, s))
              && server.conditions == old(server.conditions) && c.world == old(c.world)
              && (halt.None? ==> ServerConf(s, server.spec, z).Some? && ManagerConf(s, server.spec, z).Some?)
    ensures AllQuiet(c.script) ==> OnlyAt(old(c.world).Store(), c.world.Store(), s.crKey)
    ensures halt.None? && AllQuiet(c.script) && Typed(c.script)
            && Holds(old(c.world).Store(), s, old(server.spec), old(server.owners)) ==>
              Identified(c.world.Store(), s, server.spec, z)
    ensures halt.None? && KeepsServers(c.script) ==> server.spec == old(server.spec)
  {
    var self;
    halt, z, self := FindZtwim(c, m, s);
    if halt.None? {
      ghost var mid, calls := c.world, c.calls;
      halt := OwnAndValidate(c, m, s, server, self, z.trustDomain);
      Chain(old(c.world), mid, c.world, old(c.calls), calls, c.calls, s);
      assert AllQuiet(c.script) ==> SameAt(mid.Store(), c.world.Store(), s.ztwimKey);
    }
  }

  method OwnAndValidate(c: Cluster<Payload, St>, m: Manager, s: Setting, server: ServerObject, self: Owner,
                        trustDomain: string)
    returns (halt: Option<Exit>)
    requires c.world.Valid() && Clean(m.conditions) && ProperKeys(s)
    modifies c, m, server
    ensures Continued(old(c.world), c.world, old(c.calls), c.calls, s)
    ensures halt.Some? ==> halt.value.Halted? && HaltRecorded(m.conditions, false)
    ensures halt.None? ==> Clean(m.conditions) && Acceptable(s, server.spec, trustDomain)
    ensures halt.None? ==> Validated(m.conditions, s.createOnly)
    ensures OwnerSent(old(c.calls), c.calls, s) || server.conditions == old(server.conditions)
    ensures AllQuiet(c.script) ==> OnlyAt(old(c.world).Store(), c.world.Store(), s.crKey)
    ensures halt.None? && Typed(c.script)
            && Holds(old(c.world).Store(), s, old(server.spec), old(server.owners)) ==>
              Holds(c.world.Store(), s, server.spec, server.owners)
    ensures halt.None? && KeepsServers(c.script) ==> server.spec == old(server.spec)
    ensures self in old(server.owners) && Acceptable(s, old(server.spec), trustDomain) ==> halt.None?
    ensures self in old(server.owners) ==>
              c.world == old(c.world) && server.spec == old(server.spec) && server.conditions == old(server.conditions)
  {
    var ok := EnsureOwner(c, m, s, server, self);
    OtherKey(old(c.calls), c.calls, s, s.crKey);
    if !ok {
      return Some(Halted(true));
    }
    ok := Validate(m, s, server, trustDomain);
    halt := if ok then None else Some(Halted(false));
  }

  method FindZtwim(c: Cluster<Payload, St>, m: Manager, s: Setting)
    returns (halt: Option<Exit>, z: ZtwimSpec, self: Owner)
    requires c.world.Valid() && m.conditions == map[] && ProperKeys(s)
    modifies c, m
    ensures Advanced(old(c.world), c.world, RightsOf(s)) && old(c.calls) <= c.calls
    ensures halt.Some? ==> halt.value.Halted? && HaltRecorded(m.conditions, Silent(old(c.calls), c.calls, s))
    ensures halt.None? ==> Clean(m.conditions) && Continued(old(c.world), c.world, old(c.calls), c.calls, s)
    ensures Obliging(c.script, s) && s.ztwimKey in old(c.world).Store() ==>
              Starts(c.script, s, halt.None?, Silent(old(c.calls), c.calls, s))
    ensures AllQuiet(c.script) ==> c.world == old(c.world)
    ensures AllQuiet(c.script) && halt.None? ==>
              && s.ztwimKey in c.world.Store() && ZtwimOf(c.world.Store()[s.ztwimKey].res.spec) == z
              && (c.world.Store()[s.ztwimKey].res.spec.ZtwimCr? ==> c.world.Store()[s.ztwimKey].res.spec.self == self)
  {
    if Obliging(c.script, s) {
      ObligingServes(c.script, s, s.ztwimKey);
    }
    halt, z, self := None, ZtwimSpec("", "", ""), Owner("", "", "");
    var read := Read(c, s, s.ztwimKey);
    ghost var call := c.calls[|old(c.calls)|];
    assert SilentCall(call, s) <==> read.Err? && read.error != NotFound;
    if read.Err? {
      if read.error == NotFound {
        FailReady(m, ZtwimMissing);
        halt := Some(Halted(false));
      } else {
        halt := Some(Halted(true));
      }
    } else if read.value.res.spec.ZtwimCr? {
      z, self := read.value.res.spec.ztwim, read.value.res.spec.self;
    }
  }

  ghost predicate Validated(conds: map<string, Condition>, createOnly: bool) {
    Done(conds, CONFIGURATION) && Done(conds, TTL_VALID) && (createOnly ==> Done(conds, MODE))
  }

  method Validate(m: Manager, s: Setting, server: ServerObject, trustDomain: string) returns (ok: bool)
    requires Clean(m.conditions)
    modifies m
    ensures ok <==> Acceptable(s, server.spec, trustDomain)
    ensures ok ==> Clean(m.conditions) && Validated(m.conditions, s.createOnly)
    ensures !ok ==> Stuck(m.conditions)
  {
    HandleCreateOnlyMode(m, s, server.conditions);
    ok := ValidateConfiguration(m, s, server.spec, trustDomain, server.conditions);
    if ok {
      ok := HandleTtlValidation(m, server.spec);
    }
  }

  /** All objects, for a configuration that was found acceptable, in a run that began in the world `start` after
      the trace `calls` and has written nothing but the owner, if that. */
  method ReconcileObjects(c: Cluster<Payload, St>, m: Manager, s: Setting, spec: ServerSpec, z: ZtwimSpec,
                          stored: seq<Stamped>, ghost start: World<Payload, St>, ghost calls: seq<Call>,
                          ghost owners: seq<Owner>)
    returns (exit: Exit)
    requires start.Valid() && Clean(m.conditions) && WellFormed(s) && Validated(m.conditions, s.createOnly)
    requires Continued(start, c.world, calls, c.calls, s)
    requires AllQuiet(c.script) ==> OnlyAt(start.Store(), c.world.Store(), s.crKey)
    modifies c, m
    ensures Advanced(start, c.world, RightsOf(s)) && calls <= c.calls
    ensures Recorded(exit, Silent(calls, c.calls, s), m.conditions, s.createOnly)
    ensures exit.Finished? ==> exit.spec == spec && exit.ztwim == z && exit.routeDisabled == RouteDisabled(spec)
    ensures AllQuiet(c.script) && (Typed(c.script) ==> Identified(old(c.world).Store(), s, spec, z))
            && (KeepsServers(c.script) ==> Holds(start.Store(), s, spec, owners)) ==>
              Achieved(start.Store(), c.world.Store(), s, c.script, exit)
    ensures Progress(c.script, s, spec, z, exit.Finished?, Silent(calls, c.calls, s))
    ensures AllQuiet(c.script) && (exit.Finished? || Silent(calls, c.calls, s)) ==>
              SameAt(old(c.world).Store(), c.world.Store(), s.crKey)
    ensures OwnerSent(calls, old(c.calls), s) ==> OwnerSent(calls, c.calls, s)
  {
    exit := ManagedThenConfigured(c, m, s, spec, z, stored);
    Chain(start, old(c.world), c.world, calls, old(c.calls), c.calls, s);
    if exit.Finished? && AllQuiet(c.script) && (Typed(c.script) ==> Identified(old(c.world).Store(), s, spec, z))
       && (KeepsServers(c.script) ==> Holds(start.Store(), s, spec, owners)) {
      RunAchieves(start.Store(), old(c.world).Store(), c.world.Store(), s, c.script, exit, owners);
    }
  }

  method ManagedThenConfigured(c: Cluster<Payload, St>, m: Manager, s: Setting, spec: ServerSpec, z: ZtwimSpec,
                               stored: seq<Stamped>)
    returns (exit: Exit)
    requires c.world.Valid() && Clean(m.conditions) && WellFormed(s) && Validated(m.conditions, s.createOnly)
    modifies c, m
    ensures Advanced(old(c.world), c.world, RightsOf(s)) && old(c.calls) <= c.calls
    ensures exit.Halted? ==> HaltRecorded(m.conditions, Silent(old(c.calls), c.calls, s))
    ensures exit.Finished? ==> !Silent(old(c.calls), c.calls, s)
    ensures exit.Finished? ==> Concluded(m.conditions, exit.health, exit.routeDisabled)
    ensures exit.Finished? ==> AllShown(m.conditions, s.createOnly)
    ensures exit.Finished? ==> exit.spec == spec && exit.ztwim == z && exit.routeDisabled == RouteDisabled(spec)
    ensures exit.Finished? && AllQuiet(c.script) ==>
              && Settled(old(c.world).Store(), c.world.Store(), s, c.script, spec, z)
              && SameIdentity(old(c.world).Store(), c.world.Store(), s)
              && HealthTold(c.world.Store(), s, exit.health)
    ensures Progress(c.script, s, spec, z, exit.Finished?, Silent(old(c.calls), c.calls, s))
    ensures AllQuiet(c.script) && Silent(old(c.calls), c.calls, s) ==>
              SameAt(old(c.world).Store(), c.world.Store(), s.crKey)
  {
    var ok := ReconcileManaged(c, m, s, spec);
    if !ok { return Halted(true); }
    ghost var mid, calls, conds := c.world, c.calls, m.conditions;
    if AllQuiet(c.script) {
      ManagedParts(s, spec);
      GroupLeaves(old(c.world).Store(), mid.Store(), s.createOnly, c.script, Managed(s, spec), s.crKey);
    }
    exit := ReconcileConfigured(c, m, s, spec, z, stored);
    Chain(old(c.world), mid, c.world, old(c.calls), calls, c.calls, s);
    if exit.Finished? {
      ShownLasts(conds, m.conditions, s.createOnly);
    }
    if exit.Finished? && AllQuiet(c.script) {
      SettledFrom(old(c.world).Store(), mid.Store(), c.world.Store(), s, c.script, spec, z);
      ObjectsKeepIdentity(old(c.world).Store(), mid.Store(), c.world.Store(), s, c.script, spec, z);
    }
  }

  lemma ShownLasts(a: map<string, Condition>, b: map<string, Condition>, createOnly: bool)
    requires GroupsShown(a) && Validated(a, createOnly) && Lasting(a, b) && ConfigsShown(b)
    ensures AllShown(b, createOnly)
  {
    TypesDiffer();
  }

  ghost predicate SameIdentity(a: Store<Payload, St>, b: Store<Payload, St>, s: Setting) {
    SameAt(a, b, s.crKey) && SameAt(a, b, s.ztwimKey)
  }

  lemma ObjectsKeepIdentity(a: Store<Payload, St>, mid: Store<Payload, St>, b: Store<Payload, St>, s: Setting,
                            script: Request -> Turn<Payload, St>, spec: ServerSpec, z: ZtwimSpec)
    requires WellFormed(s) && GroupEffect(a, mid, s.createOnly, script, Managed(s, spec))
    requires Delivered(mid, b, s, script, spec, z)
    ensures SameIdentity(a, b, s)
  {
    assert ManagedSteps(Managed(s, spec));
    GroupLeaves(a, mid, s.createOnly, script, Managed(s, spec), s.crKey);
    GroupLeaves(a, mid, s.createOnly, script, Managed(s, spec), s.ztwimKey);
    assert SameAt(mid, b, s.crKey) && SameAt(mid, b, s.ztwimKey);
  }

  /** Writing the status of the operator's own resource does not matter here. */
  lemma StatusKeepsIdentity(a: Store<Payload, St>, b: Store<Payload, St>, s: Setting, spec: ServerSpec, z: ZtwimSpec)
    requires ProperKeys(s) && OwnEffect(Verb.UpdateStatus, a, b, s.crKey)
    ensures Identified(a, s, spec, z) <==> Identified(b, s, spec, z)
  {
    assert SameAt(a, b, s.ztwimKey);
  }

  /** What a run has done to a store that nobody else wrote: if it reached its end it has settled, what it
      reconciled is what the store holds, configuration and rollout agree, and the workload is as healthy as
      it says. */
  ghost predicate Achieved(before: Store<Payload, St>, after: Store<Payload, St>, s: Setting,
                           script: Request -> Turn<Payload, St>, exit: Exit)
  {
    match exit
    case Halted(_) => true
    case Finished(health, _, spec, z) =>
      AchievedFor(before, after, s, script, spec, z) && HealthTold(after, s, health)
  }

  ghost predicate AchievedFor(before: Store<Payload, St>, after: Store<Payload, St>, s: Setting,
                              script: Request -> Turn<Payload, St>, spec: ServerSpec, z: ZtwimSpec)
  {
    && Settled(before, after, s, script, spec, z)
    && (Typed(script) ==> Identified(after, s, spec, z))
    && (KeepsServers(script) ==> Identified(before, s, spec, z))
    && (Faithful(script) && !s.createOnly ==> ConfigAndRolloutAgree(after, s))
  }

  lemma Achieves(before: Store<Payload, St>, after: Store<Payload, St>, s: Setting,
                 script: Request -> Turn<Payload, St>, spec: ServerSpec, z: ZtwimSpec)
    requires Settled(before, after, s, script, spec, z)
    requires Typed(script) ==> Identified(after, s, spec, z)
    requires KeepsServers(script) ==> Identified(before, s, spec, z)
    ensures AchievedFor(before, after, s, script, spec, z)
  {
    if Faithful(script) && !s.createOnly {
      SettledAgrees(before, after, s, script, spec, z);
    }
  }

  /** The owner first, then all objects. */
  lemma RunAchieves(a: Store<Payload, St>, mid: Store<Payload, St>, b: Store<Payload, St>, s: Setting,
                    script: Request -> Turn<Payload, St>, exit: Exit, owners: seq<Owner>)
    requires OnlyAt(a, mid, s.crKey) && SameIdentity(mid, b, s) && exit.Finished? && HealthTold(b, s, exit.health)
    requires Typed(script) ==> Identified(mid, s, exit.spec, exit.ztwim)
    requires KeepsServers(script) ==> Holds(a, s, exit.spec, owners)
    ensures WellFormed(s) && Settled(mid, b, s, script, exit.spec, exit.ztwim) ==> Achieved(a, b, s, script, exit)
  {
    if WellFormed(s) && Settled(mid, b, s, script, exit.spec, exit.ztwim) {
      SettledAround(a, mid, b, b, s, script, exit.spec, exit.ztwim);
      assert KeepsServers(script) ==> Typed(script);
      assert SameAt(a, mid, s.ztwimKey);
      Achieves(a, b, s, script, exit.spec, exit.ztwim);
    }
  }

  /** Status writes to the operator's own resource, before and after, do not matter. */
  lemma AchievedAround(a: Store<Payload, St>, a': Store<Payload, St>, b': Store<Payload, St>, b: Store<Payload, St>,
                       s: Setting, script: Request -> Turn<Payload, St>, exit: Exit)
    requires OwnEffect(Verb.UpdateStatus, a, a', s.crKey) && OwnEffect(Verb.UpdateStatus, b', b, s.crKey)
    ensures WellFormed(s) && Achieved(a', b', s, script, exit) ==> Achieved(a, b, s, script, exit)
  {
    if WellFormed(s) && Achieved(a', b', s, script, exit) && exit.Finished? {
      AchievedStays(a, a', b', b, s, script, exit.spec, exit.ztwim);
      assert SameAt(b', b, s.workloadKey);
    }
  }

  /** A run that reaches its end had an acceptable configuration, and knows whether its route is disabled. */
  ghost predicate Founded(s: Setting, exit: Exit)
    requires exit.Finished?
  {
    Acceptable(s, exit.spec, exit.ztwim.trustDomain) && exit.routeDisabled == RouteDisabled(exit.spec)
  }

  /** A run reaches its end unless one of the two unrecorded reads fails. */
  ghost predicate Arrives(script: Request -> Turn<Payload, St>, s: Setting, finished: bool, silent: bool) {
    && (finished || silent)
    && (Denies(script, s.ztwimKey) || Denies(script, s.managerConfigKey) ==> silent)
    && (Serves(script, Verb.Get, s.ztwimKey) && Serves(script, Verb.Get, s.managerConfigKey) ==> !silent)
  }

  lemma StatusKeepsPoised(a: Store<Payload, St>, b: Store<Payload, St>, s: Setting, spec: ServerSpec,
                          owners: seq<Owner>)
    requires ProperKeys(s) && OwnEffect(Verb.UpdateStatus, a, b, s.crKey)
    ensures SetUp(a, s, spec, owners) ==> SetUp(b, s, spec, owners)
    ensures Holds(a, s, spec, owners) ==> Holds(b, s, spec, owners)
  {
    assert SameAt(a, b, s.ztwimKey);
  }

  lemma AchievedStays(a: Store<Payload, St>, a': Store<Payload, St>, b': Store<Payload, St>, b: Store<Payload, St>,
                      s: Setting, script: Request -> Turn<Payload, St>, spec: ServerSpec, z: ZtwimSpec)
    requires OwnEffect(Verb.UpdateStatus, a, a', s.crKey) && OwnEffect(Verb.UpdateStatus, b', b, s.crKey)
    ensures WellFormed(s) && AchievedFor(a', b', s, script, spec, z) ==> AchievedFor(a, b, s, script, spec, z)
  {
    if WellFormed(s) && AchievedFor(a', b', s, script, spec, z) {
      SettledAround(a, a', b', b, s, script, spec, z);
      StatusKeepsIdentity(a, a', s, spec, z);
      StatusKeepsIdentity(b', b, s, spec, z);
      Achieves(a, b, s, script, spec, z);
    }
  }

  /** How a run leaves the conditions. */
  ghost predicate Recorded(exit: Exit, silent: bool, conds: map<string, Condition>, createOnly: bool) {
    match exit
    case Halted(_) => HaltRecorded(conds, silent)
    case Finished(health, disabled, _, _) =>
      !silent && Concluded(conds, health, disabled) && AllShown(conds, createOnly)
  }

  /** Everything after the initial status, up to the deferred one. */
  method Run(c: Cluster<Payload, St>, m: Manager, s: Setting, server: ServerObject) returns (exit: Exit)
    requires c.world.Valid() && m.conditions == map[] && WellFormed(s)
    modifies c, m, server
    ensures Advanced(old(c.world), c.world, RightsOf(s)) && old(c.calls) <= c.calls
    ensures Recorded(exit, Silent(old(c.calls), c.calls, s), m.conditions, s.createOnly)
    ensures exit.Finished? ==> Founded(s, exit)
    ensures OwnerSent(old(c.calls), c.calls, s) || server.conditions == old(server.conditions)
    ensures Obliging(c.script, s) && SetUp(old(c.world).Store(), s, old(server.spec), old(server.owners)) ==>
              && Arrives(c.script, s, exit.Finished?, Silent(old(c.calls), c.calls, s))
              && server.conditions == old(server.conditions) && s.crKey in c.world.Store()
    ensures AllQuiet(c.script) && Holds(old(c.world).Store(), s, old(server.spec), old(server.owners)) ==>
              Achieved(old(c.world).Store(), c.world.Store(), s, c.script, exit)
  {
    var halt, z := Prepare(c, m, s, server);
    if halt.Some? {
      exit := halt.value;
    } else {
      exit := ReconcileObjects(c, m, s, server.spec, z, server.conditions, old(c.world), old(c.calls),
                               old(server.owners));
    }
  }

  /** What the Ready condition says after a run. */
  ghost predicate ReadyTells(exit: Exit, silent: bool, ready: Condition) {
    match exit
    case Halted(_) =>
      // Every early stop shows as a failure, except one at an unrecorded read failure.
      && ready.status == (if silent then IsTrue else IsFalse)
      && ready.reason == (if silent then REASON_READY else REASON_FAILED)
    case Finished(health, disabled, _, _) =>
      && ready.status == (if health.Healthy? && !disabled then IsTrue else IsFalse)
      && ready.reason == (if health.Unreadable? || disabled then REASON_FAILED
                          else if health.NotReady? then REASON_PROGRESSING else REASON_READY)
  }

  const MARKER := "Reconciling SpireServer"

  lemma ReadyFollows(exit: Exit, silent: bool, before: map<string, Condition>, after: map<string, Condition>)
    requires exit.Halted? ==> HaltRecorded(before, silent)
    requires exit.Finished? ==> Concluded(before, exit.health, exit.routeDisabled)
    requires READY in before ==> after == before
    requires READY !in before ==>
               exists order :: Enumerates(order, before.Keys) && after == before[READY := Derived(before, order)]
    ensures READY in after && ReadyTells(exit, silent, after[READY])
    ensures Operands.ReadyAsWritten(after[READY]) && after[READY].message != MARKER
  {
    if READY in before {
      assert after[READY].message[0] == 'F' && MARKER[0] == 'R';
    } else {
      var order :| Enumerates(order, before.Keys) && after == before[READY := Derived(before, order)];
      DerivedFacts(before, order);
      Operands.DerivedAsWritten(before, order);
      DerivedIsNotTheMarker(before, order);
      if exit.Finished? {
        ConclusionDecides(before, exit.health, exit.routeDisabled);
      }
    }
  }

  /** A derived message names a condition, followed by a colon; the marker has none. */
  lemma DerivedIsNotTheMarker(conds: map<string, Condition>, order: seq<string>)
    requires Enumerates(order, conds.Keys)
    ensures Derived(conds, order).message != MARKER
  {
    DerivedFacts(conds, order);
    var m := Derived(conds, order).message;
    assert ALL_READY_MESSAGE[0] == 'A' && MARKER[0] == 'R';
    if m != ALL_READY_MESSAGE {
      var t :| t in conds && m == MessageOf(conds[t]);
      MessagesAreNotTheMarker(conds[t]);
    }
  }

  lemma MessagesAreNotTheMarker(c: Condition)
    ensures MessageOf(c) != MARKER
  {
    var m := MessageOf(c);
    assert m == c.ctype + (": " + c.message) && m[|c.ctype|] == ':';
    assert forall i :: 0 <= i < |MARKER| ==> MARKER[i] != ':';
  }

  lemma ConclusionDecides(conds: map<string, Condition>, health: Health, disabled: bool)
    requires Concluded(conds, health, disabled)
    ensures Any(conds, Failing) <==> health.Unreadable? || disabled
    ensures health.NotReady? ==> Any(conds, Starting)
    ensures health.Healthy? && !disabled ==> !Any(conds, Starting)
  {
    if health.NotReady? { assert Starting(conds[WORKLOAD]); }
    if health.Unreadable? { assert Failing(conds[WORKLOAD]); }
    if disabled { assert Failing(conds[ROUTE]); }
  }

  /** A run with its deferred status update. */
  method RunAndApply(c: Cluster<Payload, St>, s: Setting, server: ServerObject)
    returns (exit: Exit, wrote: Option<bool>)
    requires c.world.Valid() && WellFormed(s)
    modifies c, server
    ensures Advanced(old(c.world), c.world, RightsOf(s)) && old(c.calls) <= c.calls
    ensures Conclusion(exit, Silent(old(c.calls), c.calls, s), server.conditions, s.createOnly)
    ensures Obliging(c.script, s) && SetUp(old(c.world).Store(), s, old(server.spec), old(server.owners)) ==>
              && Arrives(c.script, s, exit.Finished?, Silent(old(c.calls), c.calls, s))
              && (if wrote.Some? then wrote.value else SameReady(old(server.conditions), server.conditions))
    ensures exit.Finished? ==> Founded(s, exit)
    ensures AllQuiet(c.script) && Holds(old(c.world).Store(), s, old(server.spec), old(server.owners)) ==>
              Achieved(old(c.world).Store(), c.world.Store(), s, c.script, exit)
    // The final conditions are in the store whenever their write is answered with success.
    ensures wrote.Some? && wrote.value ==>
              s.crKey in c.world.Store() && c.world.Store()[s.crKey].res.status == OfServer(server.conditions)
    // The write is skipped only when the conditions in memory already say the same; unless the owner was
    // sent, those are the ones the run began with.
    ensures wrote.None? && !OwnerSent(old(c.calls), c.calls, s) ==>
              SameReady(old(server.conditions), server.conditions)
  {
    var m := new Manager();
    exit := Run(c, m, s, server);
    ghost var mid, calls := c.world, c.calls;
    if Obliging(c.script, s) {
      ObligingServes(c.script, s, s.crKey);
    }
    wrote := ApplyFinal(c, m, s, server, exit, Silent(old(c.calls), c.calls, s));
    AdvancedChain(old(c.world), mid, c.world, RightsOf(s));
    OwnCallsAside(old(c.calls), calls, c.calls, s);
    if AllQuiet(c.script) && Holds(old(c.world).Store(), s, old(server.spec), old(server.owners)) {
      AchievedAround(old(c.world).Store(), old(c.world).Store(), mid.Store(), c.world.Store(), s, c.script, exit);
    }
  }

  /** The deferred status update, for a run that ended with `exit`. */
  method ApplyFinal(c: Cluster<Payload, St>, m: Manager, s: Setting, server: ServerObject, ghost exit: Exit,
                    ghost silent: bool)
    returns (wrote: Option<bool>)
    requires c.world.Valid() && Recorded(exit, silent, m.conditions, s.createOnly)
    modifies c, m, server
    ensures Advanced(old(c.world), c.world, RightsOf(s)) && CallsOn(old(c.calls), c.calls, s.crKey)
    ensures AllQuiet(c.script) ==> OwnEffect(Verb.UpdateStatus, old(c.world).Store(), c.world.Store(), s.crKey)
    ensures Conclusion(exit, silent, server.conditions, s.createOnly)
    ensures StatusServed(c.script, s) && s.crKey in old(c.world).Store() && wrote.Some? ==> wrote.value
    ensures wrote.None? ==> SameReady(old(server.conditions), server.conditions)
    ensures wrote.Some? && wrote.value ==>
              s.crKey in c.world.Store() && c.world.Store()[s.crKey].res.status == OfServer(server.conditions)
  {
    wrote := ApplyStatus(c, m, s, server);
    Concludes(exit, silent, old(m.conditions), m.conditions, server.conditions, s.createOnly);
  }

  lemma Concludes(exit: Exit, silent: bool, before: map<string, Condition>, after: map<string, Condition>,
                  conditions: seq<Stamped>, createOnly: bool)
    requires Recorded(exit, silent, before, createOnly)
    requires READY in before ==> after == before
    requires READY !in before ==>
               exists order :: Enumerates(order, before.Keys) && after == before[READY := Derived(before, order)]
    requires Reflects(conditions, after)
    ensures Conclusion(exit, silent, conditions, createOnly)
    ensures READY in after && Find(conditions, READY).value.cond == after[READY]
  {
    if exit.Finished? {
      ShownInList(before, after, conditions, createOnly);
    }
    ReadyFollows(exit, silent, before, after);
    assert Find(conditions, READY).Some? && Find(conditions, READY).value.cond == after[READY];
  }

  lemma MarkerGone(exit: Exit, silent: bool, marked: seq<Stamped>, conditions: seq<Stamped>, createOnly: bool)
    requires Conclusion(exit, silent, conditions, createOnly)
    requires Find(marked, READY).Some? && Find(marked, READY).value.cond.message == MARKER
    ensures !SameReady(marked, conditions)
  {
  }

  ghost predicate SameReady(a: seq<Stamped>, b: seq<Stamped>) {
    Find(a, READY).Some? && Find(b, READY).Some? && Find(a, READY).value.cond == Find(b, READY).value.cond
  }

  /** Calls on the operator's own resource are never silent. */
  lemma OwnCallsAside(calls: seq<Call>, between: seq<Call>, now: seq<Call>, s: Setting)
    requires ProperKeys(s) && calls <= between && CallsOn(between, now, s.crKey)
    ensures calls <= now && (Silent(calls, now, s) <==> Silent(calls, between, s))
    ensures OwnerSent(calls, between, s) ==> OwnerSent(calls, now, s)
  {
    assert forall n :: 0 <= n < |between| ==> between[n] == now[n];
  }

  /** The list shows as True all that a run checks and brings about before the StatefulSet, and create-only mode
      if it is on. */
  ghost predicate AllListed(conditions: seq<Stamped>, createOnly: bool) {
    && (forall g :: ShownTrue(conditions, GroupType(g))) && (forall which :: ShownTrue(conditions, ConfigType(which)))
    && ShownTrue(conditions, CONFIGURATION) && ShownTrue(conditions, TTL_VALID)
    && (createOnly ==> ShownTrue(conditions, MODE))
  }

  lemma ShownInList(before: map<string, Condition>, after: map<string, Condition>, conditions: seq<Stamped>,
                    createOnly: bool)
    requires AllShown(before, createOnly) && Reflects(conditions, after)
    requires forall t :: t in before && t != READY ==> t in after && after[t] == before[t]
    ensures AllListed(conditions, createOnly)
  {
    TypesDiffer();
  }

  /** What the final conditions say: Ready tells how the run ended, silence means an early stop, the form
      is the one the top-level controller relies on, and the marker is gone. */
  ghost predicate Conclusion(exit: Exit, silent: bool, conditions: seq<Stamped>, createOnly: bool) {
    match Find(conditions, READY)
    case None => false
    case Some(ready) =>
      && ReadyTells(exit, silent, ready.cond) && (exit.Finished? ==> !silent)
      && Operands.AsWritten(Operands.Present(conditions)) && ready.cond.message != MARKER
      && (exit.Finished? ==> AllListed(conditions, createOnly))
  }

  /** One reconciliation. */
  method Reconcile(c: Cluster<Payload, St>, s: Setting)
    returns (exit: Option<Exit>, conditions: seq<Stamped>, wrote: Option<bool>)
    requires c.world.Valid() && WellFormed(s)
    modifies c
    // Create-only safety, whatever the API server and the other writers do.
    ensures Advanced(old(c.world), c.world, RightsOf(s)) && old(c.calls) <= c.calls
    // Past the first read, Ready tells how the run ended: after an early stop it is True if and only if
    // one of the two unrecorded reads failed in this run.
    ensures exit.Some? ==> Conclusion(exit.value, Silent(old(c.calls), c.calls, s), conditions, s.createOnly)
    ensures exit.Some? && wrote.Some? && wrote.value ==>
              s.crKey in c.world.Store() && c.world.Store()[s.crKey].res.status == OfServer(conditions)
    // The marker is always replaced by a write, unless the reply to an owner update took it away before.
    ensures exit.Some? && wrote.None? ==> OwnerSent(old(c.calls), c.calls, s)
    // Only an acceptable configuration gets to the end.
    ensures exit.Some? && exit.value.Finished? ==> Founded(s, exit.value)
    // Only a first read that fails, or finds no such resource, ends a run without a status.
    ensures exit.None? ==> |c.calls| == |old(c.calls)| + 1 && (AllQuiet(c.script) ==> c.world == old(c.world))
    ensures FreshRead(c.script(Request(|old(c.calls)|, Verb.Get, s.crKey))) && Readable(old(c.world).Store(), s) ==>
              exit.Some?
    // When nothing goes wrong but, possibly, the two unrecorded reads, the run arrives, and its final status
    // is stored.
    ensures Obliging(c.script, s) && AllPoised(old(c.world).Store(), s) ==>
              && exit.Some? && wrote.Some? && wrote.value
              && Arrives(c.script, s, exit.value.Finished?, Silent(old(c.calls), c.calls, s))
    // A run that reaches its end with nobody interfering has brought about all its objects, for the
    // specification and the top-level resource that are stored, and outside create-only mode leaves
    // configuration and rollout in agreement.
    ensures exit.Some? && AllQuiet(c.script) ==>
              Achieved(old(c.world).Store(), c.world.Store(), s, c.script, exit.value)
  {
    exit, conditions, wrote := None, [], None;
    if Obliging(c.script, s) {
      ObligingServes(c.script, s, s.crKey);
    }
    var server := Fetch(c, s);
    if server.Some? {
      ghost var mid, calls := c.world, c.calls;
      var ended;
      ended, wrote := ReconcileFound(c, s, server.value);
      AdvancedChain(old(c.world), mid, c.world, RightsOf(s));
      OwnCallsFirst(old(c.calls), calls, c.calls, s);
      exit, conditions := Some(ended), server.value.conditions;
    }
  }

  /** The first read. */
  method Fetch(c: Cluster<Payload, St>, s: Setting) returns (server: Option<ServerObject>)
    requires c.world.Valid()
    modifies c
    ensures Advanced(old(c.world), c.world, RightsOf(s))
    ensures CallsOn(old(c.calls), c.calls, s.crKey) && |c.calls| == |old(c.calls)| + 1
    ensures server.Some? ==> fresh(server.value)
    ensures AllQuiet(c.script) ==> c.world == old(c.world)
    ensures AllQuiet(c.script) && server.Some? ==>
              Holds(c.world.Store(), s, server.value.spec, server.value.owners)
    ensures FreshRead(c.script(Request(|old(c.calls)|, Verb.Get, s.crKey))) && Readable(old(c.world).Store(), s) ==>
              server.Some?
    ensures StatusServed(c.script, s) && AllPoised(old(c.world).Store(), s) ==>
              server.Some? && SetUp(c.world.Store(), s, server.value.spec, server.value.owners)
  {
    server := None;
    var read := Read(c, s, s.crKey);
    if read.Ok? && read.value.res.spec.ServerCr? {
      var found := new ServerObject(read.value);
      server := Some(found);
    }
  }

  ghost predicate AllPoised(store: Store<Payload, St>, s: Setting) {
    Readable(store, s) && Poised(store, s, store[s.crKey].res.spec.spec, store[s.crKey].res.spec.owners)
  }

  ghost predicate Readable(store: Store<Payload, St>, s: Setting) {
    s.crKey in store && store[s.crKey].res.spec.ServerCr?
  }

  lemma OwnCallsFirst(calls: seq<Call>, between: seq<Call>, now: seq<Call>, s: Setting)
    requires ProperKeys(s) && CallsOn(calls, between, s.crKey) && between <= now
    ensures calls <= now && (Silent(calls, now, s) <==> Silent(between, now, s))
    ensures OwnerSent(between, now, s) ==> OwnerSent(calls, now, s)
  {
    assert forall n :: 0 <= n < |between| ==> between[n] == now[n];
  }

  /** A reconciliation once its resource is read: the marker, the run and the final status. */
  method ReconcileFound(c: Cluster<Payload, St>, s: Setting, server: ServerObject)
    returns (exit: Exit, wrote: Option<bool>)
    requires c.world.Valid() && WellFormed(s)
    modifies c, server
    ensures Advanced(old(c.world), c.world, RightsOf(s)) && old(c.calls) <= c.calls
    ensures Conclusion(exit, Silent(old(c.calls), c.calls, s), server.conditions, s.createOnly)
    ensures Obliging(c.script, s) && SetUp(old(c.world).Store(), s, old(server.spec), old(server.owners)) ==>
              wrote.Some? && wrote.value && Arrives(c.script, s, exit.Finished?, Silent(old(c.calls), c.calls, s))
    ensures wrote.Some? && wrote.value ==>
              s.crKey in c.world.Store() && c.world.Store()[s.crKey].res.status == OfServer(server.conditions)
    ensures wrote.None? ==> OwnerSent(old(c.calls), c.calls, s)
    ensures exit.Finished? ==> Founded(s, exit)
    ensures AllQuiet(c.script) && Holds(old(c.world).Store(), s, old(server.spec), old(server.owners)) ==>
              Achieved(old(c.world).Store(), c.world.Store(), s, c.script, exit)
  {
    SetInitialReconciliationStatus(c, s, server);
    ghost var mid, calls := c.world, c.calls;
    if AllQuiet(c.script) {
      StatusKeepsPoised(old(c.world).Store(), mid.Store(), s, old(server.spec), old(server.owners));
    }
    assert Obliging(c.script, s) && SetUp(old(c.world).Store(), s, old(server.spec), old(server.owners)) ==>
        SetUp(c.world.Store(), s, server.spec, server.owners);
    ghost var marked := server.conditions;
    exit, wrote := RunAndApply(c, s, server);
    MarkerGone(exit, Silent(calls, c.calls, s), marked, server.conditions, s.createOnly);
    AdvancedChain(old(c.world), mid, c.world, RightsOf(s));
    OwnCallsFirst(old(c.calls), calls, c.calls, s);
    if AllQuiet(c.script) && Holds(old(c.world).Store(), s, old(server.spec), old(server.owners)) {
      AchievedAround(old(c.world).Store(), mid.Store(), c.world.Store(), c.world.Store(), s, c.script, exit);
    }
  }

  /** Ready is set to False, and written, before anything else happens. */
  method SetInitialReconciliationStatus(c: Cluster<Payload, St>, s: Setting, server: ServerObject)
    requires c.world.Valid()
    modifies c, server
    ensures Advanced(old(c.world), c.world, RightsOf(s)) && CallsOn(old(c.calls), c.calls, s.crKey)
    ensures Find(server.conditions, READY).Some?
    ensures Find(server.conditions, READY).value.cond == Condition(READY, IsFalse, REASON_PROGRESSING, MARKER)
    ensures AllQuiet(c.script) ==> OwnEffect(Verb.UpdateStatus, old(c.world).Store(), c.world.Store(), s.crKey)
    ensures AllQuiet(c.script) && Holds(old(c.world).Store(), s, old(server.spec), old(server.owners)) ==>
              server.spec == old(server.spec) && server.owners == old(server.owners)
  {
    var m := new Manager();
    m.AddCondition(READY, REASON_PROGRESSING, MARKER, IsFalse);
    var wrote := ApplyStatus(c, m, s, server);
    assert READY in m.conditions;
  }

  // ---------- the two silent returns, reached ----------

  /** Every call is served at once by the present store, except that reads of `key` are refused. */
  ghost predicate OnlyRefuses(script: Request -> Turn<Payload, St>, key: Key, text: string) {
    && AllQuiet(script)
    && forall q :: script(q).fate ==
                     (if q.verb == Verb.Get && q.key == key then Refused(Other(text)) else Served(0))
  }

  /** The Ready condition stored with the resource. */
  ghost predicate StoredReady(store: Store<Payload, St>, s: Setting, status: Truth) {
    && s.crKey in store && store[s.crKey].res.status.OfServer?
    && var ready := Find(store[s.crKey].res.status.conditions, READY);
    && ready.Some? && ready.value.cond.status == status
  }

  /** A run in which one of the two unrecorded reads is refused, and nothing else: it stops early, and Ready
      True is in the store for everybody to see. */
  method ReadyStoredThoughReadIsRefused(c: Cluster<Payload, St>, s: Setting, key: Key, text: string)
    returns (exit: Option<Exit>)
    requires c.world.Valid() && WellFormed(s) && AllPoised(c.world.Store(), s) && forall k :: s.ownable(k)
    requires (key == s.ztwimKey || key == s.managerConfigKey) && OnlyRefuses(c.script, key, text)
    modifies c
    ensures c.world.Valid() && exit.Some? && exit.value.Halted? && StoredReady(c.world.Store(), s, IsTrue)
  {
    RefusalIsObliging(c.script, s, key, text);
    var conditions, wrote;
    exit, conditions, wrote := Reconcile(c, s);
  }

  lemma RefusalIsObliging(script: Request -> Turn<Payload, St>, s: Setting, key: Key, text: string)
    requires (key == s.ztwimKey || key == s.managerConfigKey) && OnlyRefuses(script, key, text)
    requires forall k :: s.ownable(k)
    ensures Obliging(script, s) && Denies(script, key)
  {
    forall n ensures ReadRefused(script, n, key) {
      assert script(Request(n, Verb.Get, key)).fate == Refused(Other(text));
    }
  }

  /** A run in which nothing goes wrong reaches its end, and what it found out about the workload and the
      route is stored. */
  method NothingWrongArrives(c: Cluster<Payload, St>, s: Setting) returns (exit: Option<Exit>)
    requires c.world.Valid() && WellFormed(s) && AllPoised(c.world.Store(), s) && forall k :: s.ownable(k)
    requires AllQuiet(c.script) && forall q :: c.script(q).fate == Served(0)
    modifies c
    ensures c.world.Valid() && exit.Some? && exit.value.Finished?
    ensures StoredReady(c.world.Store(), s,
                        if exit.value.health.Healthy? && !exit.value.routeDisabled then IsTrue else IsFalse)
  {
    var conditions, wrote;
    exit, conditions, wrote := Reconcile(c, s);
  }

  // ---------- read back by the top-level controller ----------

  /** What a run tells the top-level controller. */
  function Told(exit: Exit, silent: bool): Operands.Class {
    match exit
    case Halted(_) => if silent then Operands.Ready else Operands.Failed
    case Finished(health, disabled, _, _) =>
      if health.Unreadable? || disabled then Operands.Failed
      else if health.NotReady? then Operands.Progressing else Operands.Ready
  }

  lemma StateIsTold(exit: Exit, silent: bool, conditions: seq<Stamped>, createOnly: bool)
    requires Conclusion(exit, silent, conditions, createOnly)
    ensures Operands.StateOf(Operands.Present(conditions)) == Told(exit, silent)
  {
    assert |REASON_FAILED| == 6 && |REASON_PROGRESSING| == 11;
  }

  /** A reconciliation, and then the decision of the top-level controller on the status it stored and on what
      was read of the other operands: it sees this operand as the run ended, so its Ready and Upgradeable
      follow from how the run ended and from the others. */
  method ReconcileAndDecide(c: Cluster<Payload, St>, s: Setting, m: Manager, kinds: seq<string>,
                            others: seq<Operands.Read>, existing: seq<Stamped>)
    returns (exit: Option<Exit>, wrote: Option<bool>, upgradeable: Condition)
    requires c.world.Valid() && WellFormed(s) && Keyed(m.conditions)
    requires |kinds| == |others| + 1 && forall r :: r in others ==> Operands.AsWritten(r)
    modifies c, m
    ensures exit.Some? && wrote.Some? && wrote.value ==>
              && READY in m.conditions
              && Agrees(m.conditions[READY], upgradeable, s.createOnly,
                        Told(exit.value, Silent(old(c.calls), c.calls, s)), others)
  {
    var conditions;
    exit, conditions, wrote := Reconcile(c, s);
    upgradeable := Condition("Upgradeable", IsUnknown, "", "");
    if exit.Some? && wrote.Some? && wrote.value {
      // What is stored is what is read back.
      upgradeable := DecideOn(m, s.createOnly, kinds, conditions, others, existing, exit.value,
                              Silent(old(c.calls), c.calls, s));
    }
  }

  method DecideOn(m: Manager, createOnly: bool, kinds: seq<string>, conditions: seq<Stamped>,
                  others: seq<Operands.Read>, existing: seq<Stamped>, ghost exit: Exit, ghost silent: bool)
    returns (upgradeable: Condition)
    requires Keyed(m.conditions) && Conclusion(exit, silent, conditions, createOnly)
    requires |kinds| == |others| + 1 && forall r :: r in others ==> Operands.AsWritten(r)
    modifies m
    ensures READY in m.conditions
    ensures Agrees(m.conditions[READY], upgradeable, createOnly, Told(exit, silent), others)
  {
    var observed := [Operands.Present(conditions)] + others;
    upgradeable := Operands.Decide(m, Operands.AllStatuses(kinds, observed), createOnly, existing);
    Operands.VerdictFromReads(m.conditions[READY], upgradeable, createOnly, kinds, observed);
    StateIsTold(exit, silent, conditions, createOnly);
    VerdictAgrees(m.conditions[READY], upgradeable, createOnly, conditions, others);
  }

  /** The top-level verdict from the class of one operand, which exists, and the reads of the others. */
  ghost predicate Agrees(ready: Condition, upgradeable: Condition, createOnly: bool, class_: Operands.Class,
                         others: seq<Operands.Read>)
  {
    && (ready.status == IsTrue <==>
          class_ == Operands.Ready && forall r :: r in others ==> Operands.StateOf(r) == Operands.Ready)
    && (ready.reason == REASON_FAILED <==>
          class_ == Operands.Failed || exists r :: r in others && Operands.StateOf(r) == Operands.Failed)
    && (upgradeable.status == IsTrue <==>
          && !createOnly && class_ == Operands.Ready
          && forall r :: r in others ==> Operands.StateOf(r) == Operands.Ready || r.Missing?)
  }

  lemma VerdictAgrees(ready: Condition, upgradeable: Condition, createOnly: bool, conditions: seq<Stamped>,
                      others: seq<Operands.Read>)
    requires var observed := [Operands.Present(conditions)] + others;
             && (ready.status == IsTrue <==> forall r :: r in observed ==> Operands.StateOf(r) == Operands.Ready)
             && (ready.reason == REASON_FAILED <==>
                   exists r :: r in observed && Operands.StateOf(r) == Operands.Failed)
             && (upgradeable.status == IsTrue <==>
                   !createOnly && forall r :: r in observed ==> Operands.StateOf(r) == Operands.Ready || r.Missing?)
    ensures Agrees(ready, upgradeable, createOnly, Operands.StateOf(Operands.Present(conditions)), others)
  {
    var first := Operands.Present(conditions);
    assert first in [first] + others && forall r :: r in others ==> r in [first] + others;
  }

  // ---------- two runs ----------

  /** The Service and webhook steps. */
  ghost predicate Preserving(step: Step) {
    || (exists desired :: step == ServiceStep(step.key, desired))
    || (exists desired :: step == WebhookStep(step.key, desired))
  }

  lemma PreservingConverges(step: Step, script: Request -> Turn<Payload, St>)
    requires Preserving(step) && Defaulting(script)
    ensures Converges(step, script)
  {
    if desired :| step == ServiceStep(step.key, desired) {
      ServiceConverges(step.key, desired, script);
    } else {
      var desired :| step == WebhookStep(step.key, desired);
      WebhookConverges(step.key, desired, script);
    }
  }

  /** Admission leaves configuration data as it is. */
  ghost predicate KeepsConfigs(script: Request -> Turn<Payload, St>) {
    forall q, p: Payload :: p.ConfigData? ==> script(q).admit(p) == p
  }

  lemma SecondConfigLeftAlone(a: Store<Payload, St>, b: Store<Payload, St>, d: Store<Payload, St>, s: Setting,
                              script: Request -> Turn<Payload, St>, key: Key, desired: Payload)
    requires !s.createOnly && KeepsConfigs(script) && desired.ConfigData?
    requires ConfigEffect(a, b, s, script, key, desired) && ConfigEffect(b, d, s, script, key, desired)
    ensures SameAt(b, d, key)
  {
  }

  /** What a second run leaves alone, given what the first one did. */
  ghost predicate LeftAlone(b: Store<Payload, St>, d: Store<Payload, St>, s: Setting,
                            script: Request -> Turn<Payload, St>, spec: ServerSpec)
  {
    && (Defaulting(script) ==>
          forall i :: 0 <= i < |Managed(s, spec)| && Preserving(Managed(s, spec)[i]) ==>
            SameAt(b, d, Managed(s, spec)[i].key))
    && (KeepsConfigs(script) ==> SameAt(b, d, s.serverConfigKey) && SameAt(b, d, s.managerConfigKey))
  }

  lemma SecondRun(a: Store<Payload, St>, b: Store<Payload, St>, d: Store<Payload, St>, s: Setting,
                  script: Request -> Turn<Payload, St>, spec: ServerSpec, z: ZtwimSpec)
    requires !s.createOnly && Settled(a, b, s, script, spec, z) && Settled(b, d, s, script, spec, z)
    ensures LeftAlone(b, d, s, script, spec)
  {
    if Defaulting(script) {
      forall i | 0 <= i < |Managed(s, spec)| && Preserving(Managed(s, spec)[i])
        ensures SameAt(b, d, Managed(s, spec)[i].key)
      {
        PreservingConverges(Managed(s, spec)[i], script);
        SecondRunLeavesAlone(a, b, d, s, script, script, spec, z, i);
      }
    }
    if KeepsConfigs(script) {
      SecondConfigLeftAlone(a, b, d, s, script, s.serverConfigKey,
                            ConfigData(ServerConf(s, spec, z).value, s.serverLabels(spec)));
      SecondConfigLeftAlone(a, b, d, s, script, s.managerConfigKey,
                            ConfigData(ManagerConf(s, spec, z).value, s.managerLabels));
    }
  }

  /** A run after a run that reached its end, `a` being the store before that one: it works on the same
      specification and leaves the Service, the webhook configuration and the ConfigMaps as they are,
      version included. */
  method ReconcileAgain(c: Cluster<Payload, St>, s: Setting, ghost a: Store<Payload, St>, ghost first: Exit)
    returns (exit: Option<Exit>)
    requires c.world.Valid() && WellFormed(s) && !s.createOnly && first.Finished?
    requires AllQuiet(c.script) && KeepsServers(c.script)
    requires Settled(a, c.world.Store(), s, c.script, first.spec, first.ztwim)
    requires Identified(c.world.Store(), s, first.spec, first.ztwim)
    modifies c
    ensures c.world.Valid()
    ensures exit.Some? && exit.value.Finished? ==>
              && exit.value.spec == first.spec && exit.value.ztwim == first.ztwim
              && LeftAlone(old(c.world).Store(), c.world.Store(), s, c.script, first.spec)
  {
    var conditions, wrote;
    exit, conditions, wrote := Reconcile(c, s);
    if exit.Some? && exit.value.Finished? {
      SecondRun(a, old(c.world).Store(), c.world.Store(), s, c.script, first.spec, first.ztwim);
    }
  }

  /** Outside create-only mode every reconciliation that reaches its end rewrites a stored StatefulSet whose
      protocols are filled in, and, if admission fills them in, leaves it for the next one to rewrite. */
  method ReconcileRewrites(c: Cluster<Payload, St>, s: Setting) returns (exit: Option<Exit>)
    requires c.world.Valid() && WellFormed(s) && !s.createOnly && AllQuiet(c.script)
    requires WorkloadFilled(c.world.Store(), s)
    modifies c
    ensures c.world.Valid()
    ensures exit.Some? && exit.value.Finished? ==>
              && s.workloadKey in c.world.Store()
              && c.world.Store()[s.workloadKey].version != old(c.world).Store()[s.workloadKey].version
              && (FillsProtocols(c.script) ==> WorkloadFilled(c.world.Store(), s))
  {
    var conditions, wrote;
    exit, conditions, wrote := Reconcile(c, s);
    if exit.Some? && exit.value.Finished? {
      WorkloadRewritten(old(c.world).Store(), c.world.Store(), s, c.script, exit.value.spec, exit.value.ztwim);
    }
  }

  /** Two reconciliations in a row, however the StatefulSet was first stored: the second one writes it again. */
  method StatefulSetNeverSettles(c: Cluster<Payload, St>, s: Setting)
    returns (first: Option<Exit>, second: Option<Exit>, ghost between: Store<Payload, St>)
    requires c.world.Valid() && WellFormed(s) && !s.createOnly && AllQuiet(c.script) && FillsProtocols(c.script)
    requires s.workloadKey in c.world.Store() ==> WorkloadFilled(c.world.Store(), s)
    modifies c
    ensures c.world.Valid()
    ensures first.Some? && first.value.Finished? && second.Some? && second.value.Finished? ==>
              && Settled(old(c.world).Store(), between, s, c.script, first.value.spec, first.value.ztwim)
              && s.workloadKey in between && s.workloadKey in c.world.Store()
              && c.world.Store()[s.workloadKey].version != between[s.workloadKey].version
  {
    var conditions, wrote;
    first, conditions, wrote := Reconcile(c, s);
    between := c.world.Store();
    if first.Some? && first.value.Finished? {
      FilledAfterRun(old(c.world).Store(), between, s, c.script, first.value.spec, first.value.ztwim);
      second := ReconcileRewrites(c, s);
    } else {
      second := None;
    }
  }

  lemma FilledAfterRun(a: Store<Payload, St>, b: Store<Payload, St>, s: Setting, script: Request -> Turn<Payload, St>,
                       spec: ServerSpec, z: ZtwimSpec)
    requires Settled(a, b, s, script, spec, z) && !s.createOnly && FillsProtocols(script)
    requires s.workloadKey in a ==> WorkloadFilled(a, s)
    ensures WorkloadFilled(b, s)
  {
    if s.workloadKey in a {
      WorkloadRewritten(a, b, s, script, spec, z);
    } else {
      var serverHash := ConfigHash(s, ServerConf(s, spec, z).value);
      var managerHash := ConfigHash(s, ManagerConf(s, spec, z).value);
      assert IsGenerated(DesiredBy(s, spec, z), s, spec, serverHash, managerHash);
      assert WorkloadEffect(a, b, s, script, DesiredBy(s, spec, z));
    }
  }

  /** Two consecutive reconciliations. */
  method ReconcileTwice(c: Cluster<Payload, St>, s: Setting)
    returns (first: Option<Exit>, second: Option<Exit>, ghost between: Store<Payload, St>)
    requires c.world.Valid() && WellFormed(s) && !s.createOnly && AllQuiet(c.script) && KeepsServers(c.script)
    modifies c
    ensures c.world.Valid()
    ensures first.Some? && first.value.Finished? && second.Some? && second.value.Finished? ==>
              && second.value.spec == first.value.spec && second.value.ztwim == first.value.ztwim
              && Settled(old(c.world).Store(), between, s, c.script, first.value.spec, first.value.ztwim)
              && LeftAlone(between, c.world.Store(), s, c.script, first.value.spec)
  {
    var conditions, wrote;
    first, conditions, wrote := Reconcile(c, s);
    between := c.world.Store();
    if first.Some? && first.value.Finished? {
      second := ReconcileAgain(c, s, old(c.world).Store(), first.value);
    } else {
      second, conditions, wrote := Reconcile(c, s);
    }
  }
}
