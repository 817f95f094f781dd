/** The parts of a reconciliation of the SpireServer resource: what it may do to the store, how each of
    its objects is brought about, and what it records. The API server may refuse any call, lose any
    reply, answer reads from the past and serve other writers in between. */
module SpireServerObjects {
  import opened Wrappers
  import opened ApiServer
  import opened Conditions
  import opened StatusManager
  import opened Owners
  import opened Texts
  import opened Metadata
  import Pods
  import Comparison
  import Proxy
  import RetryClient
  import Ttl
  import Federation
  import SpireStatefulSet
  import ServiceSync
  import WebhookSync

  datatype ServerSpec = ServerSpec(federation: Option<Federation.Config>, ttl: Ttl.Config,
                                   workload: SpireStatefulSet.Config, rest: string)
  datatype ZtwimSpec = ZtwimSpec(trustDomain: string, bundleConfigMap: string, clusterName: string)

  datatype Payload =
    | ServerCr(spec: ServerSpec, owners: seq<Owner>)
    | ZtwimCr(ztwim: ZtwimSpec, self: Owner)
    | ConfigData(data: string, labels: map<string, string>)
    | Workload(meta: map<string, string>, sts: Pods.StatefulSet)
    | Svc(service: ServiceSync.Service)
    | Hooks(webhooks: WebhookSync.Configuration)
    | Plain(body: string)

  datatype St =
    | Blank
    | OfServer(conditions: seq<Stamped>)
    | OfWorkload(ready: int, updated: int, observed: int, generation: int)

  /** One object to bring about: how the stored one is merged in, and when a rewrite is needed. */
  datatype Step = Step(key: Key, desired: Payload, merge: (Payload, Payload) -> Payload,
                       needs: (Payload, Payload) -> bool)

  datatype FieldProblem = Affinity | Tolerations | NodeSelector | Resources | Labels

  /** Everything a run depends on besides the API server; rendering, hashing, library validators and
      owner-reference checks are arbitrary functions. */
  datatype Setting = Setting(
    createOnly: bool, now: nat, crKey: Key, ztwimKey: Key, serverConfigKey: Key, managerConfigKey: Key,
    workloadKey: Key, routeKey: Key, bundleKey: ZtwimSpec -> Key,
    serviceAccount: ServerSpec -> seq<Step>, services: ServerSpec -> seq<Step>, rbac: ServerSpec -> seq<Step>,
    webhook: ServerSpec -> seq<Step>,
    serverConf: (ServerSpec, ZtwimSpec) -> Option<string>, managerConf: (ServerSpec, ZtwimSpec) -> Option<string>,
    serverLabels: ServerSpec -> map<string, string>, managerLabels: map<string, string>,
    route: (ServerSpec, ZtwimSpec) -> Payload, sha: string -> string, ownable: Key -> bool,
    commonProblems: ServerSpec -> seq<FieldProblem>, jwtOk: ServerSpec -> bool,
    env: Proxy.Env, images: SpireStatefulSet.Images)

  predicate ManagedKind(k: Kind) {
    k.ServiceAccount? || k.Service? || k.ClusterRole? || k.ClusterRoleBinding? || k.Role? || k.RoleBinding?
    || k.ValidatingWebhook?
  }

  /** Steps on different objects, all of a kind handled by the common pattern. */
  ghost predicate ManagedSteps(steps: seq<Step>) {
    && (forall i :: 0 <= i < |steps| ==> ManagedKind(steps[i].key.kind))
    && (forall i, j :: 0 <= i < j < |steps| ==> steps[i].key != steps[j].key)
  }

  /** All objects handled by the common pattern, in the order of the run. */
  function Managed(s: Setting, spec: ServerSpec): seq<Step> {
    s.serviceAccount(spec) + s.services(spec) + s.rbac(spec) + s.webhook(spec)
  }

  /** Each fixed key is of its own kind, and the two configurations are different objects. */
  ghost predicate ProperKeys(s: Setting) {
    && s.crKey.kind == SpireServer && s.ztwimKey.kind == Ztwim
    && s.serverConfigKey.kind == ConfigMap && s.managerConfigKey.kind == ConfigMap
    && s.serverConfigKey != s.managerConfigKey
    && s.workloadKey.kind == StatefulSet && s.routeKey.kind == Route
    && (forall z :: s.bundleKey(z).kind == ConfigMap)
  }

  ghost predicate WellFormed(s: Setting) {
    ProperKeys(s) && forall x :: ManagedSteps(Managed(s, x))
  }

  // Reading a typed object out of a payload gives its zero value when it is of another kind.
  function DataOf(p: Payload): string { if p.ConfigData? then p.data else "" }
  function LabelsOf(p: Payload): map<string, string> { if p.ConfigData? then p.labels else map[] }

  function StsOf(p: Payload): Pods.StatefulSet {
    if p.Workload? then p.sts
    else Pods.StatefulSet(None, "", map[], map[], map[], Pods.PodSpec("", None, "", map[], None, [], [], [], []), [])
  }

  function ServerHash(p: Payload): string { Pods.Lookup(StsOf(p).annotations, Pods.SERVER_HASH_KEY) }
  function ManagerHash(p: Payload): string { Pods.Lookup(StsOf(p).annotations, Pods.MANAGER_HASH_KEY) }

  /** The hash function tells trimmed texts apart. */
  ghost predicate TellsApart(sha: string -> string) {
    forall a, b :: sha(TrimSpace(a)) == sha(TrimSpace(b)) ==> TrimSpace(a) == TrimSpace(b)
  }

  /** The annotation changes exactly with the text, white space at its ends apart. */
  lemma HashFollowsText(s: Setting, t1: string, t2: string)
    requires TellsApart(s.sha)
    ensures ConfigHash(s, t1) == ConfigHash(s, t2) <==> TrimSpace(t1) == TrimSpace(t2)
  {
  }

  /** The hash put on the pod template for a configuration text. */
  function ConfigHash(s: Setting, text: string): string {
    s.sha(TrimSpace(text))
  }

  // ---------- what a run may do to the store ----------

  /** What the operator may write: under create-only it only adds keys, its own resource apart, and it
      never leaves its scope. */
  datatype Rights = Rights(createOnly: bool, own: Key, scope: iset<Key>)

  ghost function RightsOf(s: Setting): Rights {
    Rights(s.createOnly, s.crKey, iset k | InScope(s, k))
  }

  /** The operator's own key, the fixed ones, the bundle of some top-level resource, and the managed
      objects of some specification. */
  ghost predicate InScope(s: Setting, k: Key) {
    || k in {s.crKey, s.serverConfigKey, s.managerConfigKey, s.workloadKey, s.routeKey}
    || (exists z :: k == s.bundleKey(z))
    || (exists spec, i :: 0 <= i < |Managed(s, spec)| && k == Managed(s, spec)[i].key)
  }

  /** Commit i is one the operator may make. */
  ghost predicate Allowed(w: World<Payload, St>, i: nat, r: Rights)
    requires i < |w.log| && |w.views| == |w.log| + 1
  {
    var k := w.log[i].key;
    && k in r.scope && OnlyAt(w.views[i], w.views[i + 1], k) && k in w.views[i + 1]
    && (r.createOnly && k != r.own ==> k !in w.views[i])
  }

  /** A later world: the past is kept, and every commit of the operator since then was allowed. */
  ghost predicate Advanced(w: World<Payload, St>, later: World<Payload, St>, r: Rights) {
    match later
    case World(views, log, _, _) =>
      && later.Valid() && w.log <= log && w.views <= views
      && forall i :: |w.log| <= i < |log| && log[i].author == Operator ==> Allowed(later, i, r)
  }

  lemma AdvancedChain(a: World<Payload, St>, b: World<Payload, St>, c: World<Payload, St>, r: Rights)
    requires a.Valid() && Advanced(a, b, r) && Advanced(b, c, r)
    ensures Advanced(a, c, r)
  {
    forall i | |a.log| <= i < |c.log| && c.log[i].author == Operator ensures Allowed(c, i, r) {
      if i < |b.log| {
        assert c.log[i] == b.log[i] && c.views[i] == b.views[i] && c.views[i + 1] == b.views[i + 1];
        assert Allowed(b, i, r);
      }
    }
  }

  lemma AdvancedOwnWrite(w: World<Payload, St>, later: World<Payload, St>, r: Rights, key: Key, committed: bool)
    requires w.Valid() && OwnWrite(w, later, key, committed) && key in r.scope
    requires committed ==>
               && |later.views| > 1 && key in later.Store()
               && later.Store() == later.views[|later.views| - 2][key := later.Store()[key]]
               && (r.createOnly && key != r.own ==> key !in later.views[|later.views| - 2])
    ensures Advanced(w, later, r)
  {
    forall i | |w.log| <= i < |later.log| && later.log[i].author == Operator ensures Allowed(later, i, r) {
      assert i == |later.log| - 1 && later.views[i + 1] == later.Store();
    }
  }

  /** Nobody but the operator has written since. */
  ghost predicate Alone(w: World<Payload, St>, later: World<Payload, St>) {
    forall i :: |w.log| <= i < |later.log| ==> later.log[i].author == Operator
  }

  /** Create-only safety over any number of runs: as long as nobody else writes, an object that was
      there before is there after every commit, unchanged, unless it is the operator's own resource. */
  lemma {:induction false} CreateOnlySafety(w: World<Payload, St>, later: World<Payload, St>, r: Rights, k: Key, n: nat)
    requires w.Valid() && Advanced(w, later, r) && Alone(w, later) && r.createOnly
    requires k != r.own && k in w.Store() && |w.log| <= n <= |later.log|
    ensures k in later.views[n] && later.views[n][k] == w.Store()[k]
    decreases n
  {
    if n == |w.log| {
      assert later.views[n] == w.views[n];
    } else {
      CreateOnlySafety(w, later, r, k, n - 1);
      assert later.log[n - 1].author == Operator && Allowed(later, n - 1, r);
      assert k != later.log[n - 1].key && SameAt(later.views[n - 1], later.views[n], k);
    }
  }

  /** In either mode, as long as nobody else writes, nothing outside the operator's scope is created,
      changed or removed. */
  lemma {:induction false} ScopeSafety(w: World<Payload, St>, later: World<Payload, St>, r: Rights, k: Key, n: nat)
    requires w.Valid() && Advanced(w, later, r) && Alone(w, later)
    requires k !in r.scope && |w.log| <= n <= |later.log|
    ensures SameAt(w.Store(), later.views[n], k)
    decreases n
  {
    if n == |w.log| {
      assert later.views[n] == w.views[n];
    } else {
      ScopeSafety(w, later, r, k, n - 1);
      assert later.log[n - 1].author == Operator && Allowed(later, n - 1, r);
      assert SameAt(later.views[n - 1], later.views[n], k);
    }
  }

  /** No key ever disappears by the operator's doing, in either mode. */
  lemma {:induction false} KeysOnlyGrow(w: World<Payload, St>, later: World<Payload, St>, r: Rights, k: Key, n: nat)
    requires w.Valid() && Advanced(w, later, r) && Alone(w, later)
    requires k in w.Store() && |w.log| <= n <= |later.log|
    ensures k in later.views[n]
    decreases n
  {
    if n == |w.log| {
      assert later.views[n] == w.views[n];
    } else {
      KeysOnlyGrow(w, later, r, k, n - 1);
      assert later.log[n - 1].author == Operator && Allowed(later, n - 1, r);
      if k != later.log[n - 1].key {
        assert SameAt(later.views[n - 1], later.views[n], k);
      }
    }
  }

  /** Admission leaves configuration data and the hash annotations alone. */
  ghost predicate KeepsConfig(sent: Payload, stored: Payload) {
    DataOf(stored) == DataOf(sent) && ServerHash(stored) == ServerHash(sent) && ManagerHash(stored) == ManagerHash(sent)
  }

  ghost predicate Faithful(script: Request -> Turn<Payload, St>) {
    forall q, p :: KeepsConfig(p, script(q).admit(p))
  }

  /** `stored` is what admission made of `p`. */
  ghost predicate Admitted(script: Request -> Turn<Payload, St>, p: Payload, stored: Payload) {
    exists q :: stored == script(q).admit(p)
  }

  /** What an undisturbed step that reports success has done to its key: created it, left it alone, or
      replaced it, under a new version, when a rewrite was needed and allowed. */
  ghost predicate Effect(before: Store<Payload, St>, after: Store<Payload, St>, key: Key, createOnly: bool,
                         script: Request -> Turn<Payload, St>, desired: Payload, merged: Payload, needed: bool)
  {
    match At(before, key)
    case None => key in after && Admitted(script, desired, after[key].res.spec)
    case Some(stored) =>
      && key in after
      && if createOnly || !needed then after[key] == stored
         else Admitted(script, merged, after[key].res.spec) && after[key].version != stored.version
  }

  ghost function At(store: Store<Payload, St>, key: Key): Option<Stored<Payload, St>> {
    if key in store then Some(store[key]) else None
  }

  // ---------- calls ----------

  /** A read is answered from the present store. */
  ghost predicate FreshRead(t: Turn<Payload, St>) {
    t.others == [] && t.fate == Served(0)
  }

  /** Calls of this kind on `key` are served. */
  ghost predicate Serves(script: Request -> Turn<Payload, St>, verb: Verb, key: Key) {
    forall n :: script(Request(n, verb, key)).fate.Served?
  }

  /** Call n, a read of `key`, is refused with an error other than not-found. */
  ghost predicate ReadRefused(script: Request -> Turn<Payload, St>, n: nat, key: Key) {
    var fate := script(Request(n, Verb.Get, key)).fate;
    fate.Refused? && fate.error != NotFound
  }

  method Read(c: Cluster<Payload, St>, s: Setting, key: Key) returns (r: Result<Stored<Payload, St>, Error>)
    requires c.world.Valid()
    modifies c
    ensures Advanced(old(c.world), c.world, RightsOf(s))
    ensures c.calls == old(c.calls) + [Call(Verb.Get, key, if r.Err? then Some(r.error) else None)]
    ensures ReadRefused(c.script, |old(c.calls)|, key) ==> r.Err? && r.error != NotFound
    ensures FreshRead(c.script(Request(|old(c.calls)|, Verb.Get, key))) && key in old(c.world).Store() ==>
              r == Ok(old(c.world).Store()[key])
    ensures AllQuiet(c.script) ==>
              && c.world == old(c.world)
              && (r.Ok? ==> key in c.world.Store() && c.world.Store()[key] == r.value)
    ensures AllQuiet(c.script) && Serves(c.script, Verb.Get, key) ==>
              if key in c.world.Store() then r.Ok? else r == Err(NotFound)
    ensures AllQuiet(c.script) && NeverDenied(c.script, key) && r == Err(NotFound) ==> key !in c.world.Store()
  {
    ghost var turn := c.script(Request(|c.calls|, Verb.Get, key));
    GetFacts(c.world, turn, key);
    if AllQuiet(c.script) {
      QuietFacts(c.world, turn, key, Resource(Plain(""), Blank), Verb.Update, 0);
      if turn.fate.Served? {
        ServedFacts(c.world, turn, Verb.Update, key, Resource(Plain(""), Blank));
      }
    }
    r := c.Get(key);
  }

  lemma MakeFacts(w: World<Payload, St>, turn: Turn<Payload, St>, r: Rights, key: Key, res: Resource<Payload, St>)
    requires w.Valid() && key in r.scope
    ensures var a := CreateAnswer(w, turn, key, res);
            && Advanced(w, a.world, r)
            && (a.reply.Ok? ==> key in a.world.Store() && a.world.Store()[key].res.spec == turn.admit(res.spec))
  {
    var a := CreateAnswer(w, turn, key, res);
    CreateFacts(w, turn, key, res);
    AdvancedOwnWrite(w, a.world, r, key, a.reply.Ok? || a.lost);
  }

  /** No refusal claims that an object exists. */
  ghost predicate Honest(script: Request -> Turn<Payload, St>) {
    forall q :: script(q).fate != Refused(AlreadyExists)
  }

  ghost predicate ServesKey(script: Request -> Turn<Payload, St>, key: Key) {
    Serves(script, Verb.Get, key) && Serves(script, Verb.Create, key) && Serves(script, Verb.Update, key)
  }

  ghost predicate WritesServed(script: Request -> Turn<Payload, St>, key: Key) {
    Serves(script, Verb.Create, key) && Serves(script, Verb.Update, key) && NeverDenied(script, key)
  }

  /** Every read of `key` is refused with an error other than not-found. */
  ghost predicate Denies(script: Request -> Turn<Payload, St>, key: Key) {
    forall n :: ReadRefused(script, n, key)
  }

  /** No refusal claims that `key` is not there. */
  ghost predicate NeverDenied(script: Request -> Turn<Payload, St>, key: Key) {
    forall n :: script(Request(n, Verb.Get, key)).fate != Refused(NotFound)
  }

  /** A read of one of the two objects whose read failures go unrecorded. */
  predicate Unrecorded(q: Request, s: Setting) {
    q.verb == Verb.Get && (q.key == s.ztwimKey || q.key == s.managerConfigKey)
  }

  /** Nothing goes wrong but, possibly, those two reads. */
  ghost predicate Obliging(script: Request -> Turn<Payload, St>, s: Setting) {
    && AllQuiet(script) && (forall k :: s.ownable(k))
    && (forall q :: script(q).fate.Served? || (Unrecorded(q, s) && script(q).fate != Refused(NotFound)))
  }

  lemma ObligingServes(script: Request -> Turn<Payload, St>, s: Setting, key: Key)
    requires Obliging(script, s)
    ensures Serves(script, Verb.Create, key) && Serves(script, Verb.Update, key)
    ensures Serves(script, Verb.UpdateStatus, key) && NeverDenied(script, key)
    ensures key != s.ztwimKey && key != s.managerConfigKey ==> ServesKey(script, key)
  {
    assert forall n, verb: Verb :: verb != Verb.Get ==> !Unrecorded(Request(n, verb, key), s);
    assert forall n :: key != s.ztwimKey && key != s.managerConfigKey ==> !Unrecorded(Request(n, Verb.Get, key), s);
  }

  method Make(c: Cluster<Payload, St>, s: Setting, key: Key, p: Payload) returns (r: Result<Stored<Payload, St>, Error>)
    requires c.world.Valid() && key in RightsOf(s).scope
    modifies c
    ensures Advanced(old(c.world), c.world, RightsOf(s))
    ensures c.calls == old(c.calls) + [Call(Verb.Create, key, if r.Err? then Some(r.error) else None)]
    ensures r.Ok? ==> key in c.world.Store() && Admitted(c.script, p, c.world.Store()[key].res.spec)
    ensures AllQuiet(c.script) ==>
              && OnlyAt(old(c.world).Store(), c.world.Store(), key)
              && (key in old(c.world).Store() ==> r.Err? && SameAt(old(c.world).Store(), c.world.Store(), key))
              && (r == Err(AlreadyExists) ==>
                    && SameAt(old(c.world).Store(), c.world.Store(), key)
                    && (Honest(c.script) ==> key in old(c.world).Store()))
    ensures AllQuiet(c.script) && Serves(c.script, Verb.Create, key) ==>
              if key in old(c.world).Store() then r == Err(AlreadyExists) else r.Ok?
  {
    var res := Resource(p, Blank);
    ghost var turn := c.script(Request(|c.calls|, Verb.Create, key));
    MakeFacts(c.world, turn, RightsOf(s), key, res);
    if AllQuiet(c.script) {
      QuietFacts(c.world, turn, key, res, Verb.Update, 0);
      if turn.fate.Served? {
        ServedFacts(c.world, turn, Verb.Update, key, res);
      }
    }
    r := c.Create(key, res);
  }

  lemma OverwriteFacts(w: World<Payload, St>, turn: Turn<Payload, St>, r: Rights, key: Key, res: Resource<Payload, St>,
                       version: nat)
    requires w.Valid() && key in r.scope && (r.createOnly ==> key == r.own)
    ensures var a := WriteAnswer(w, turn, Verb.Update, key, res, version);
            && Advanced(w, a.world, r)
            && (a.reply.Ok? ==>
                  && key in a.world.Store() && a.world.Store()[key] == a.reply.value
                  && a.reply.value.res.spec == turn.admit(res.spec))
  {
    var a := WriteAnswer(w, turn, Verb.Update, key, res, version);
    WriteFacts(w, turn, Verb.Update, key, res, version);
    AdvancedOwnWrite(w, a.world, r, key, a.reply.Ok? || a.lost);
  }

  method Overwrite(c: Cluster<Payload, St>, s: Setting, key: Key, p: Payload, version: nat)
    returns (r: Result<Stored<Payload, St>, Error>)
    requires c.world.Valid() && key in RightsOf(s).scope && (s.createOnly ==> key == s.crKey)
    modifies c
    ensures Advanced(old(c.world), c.world, RightsOf(s))
    ensures c.calls == old(c.calls) + [Call(Verb.Update, key, if r.Err? then Some(r.error) else None)]
    ensures r.Ok? ==>
              && key in c.world.Store() && c.world.Store()[key] == r.value
              && r.value.res.spec == c.script(Request(|old(c.calls)|, Verb.Update, key)).admit(p)
    ensures AllQuiet(c.script) ==> OnlyAt(old(c.world).Store(), c.world.Store(), key)
    ensures AllQuiet(c.script) && r.Ok? ==>
              key in old(c.world).Store() && r.value.version != old(c.world).Store()[key].version
    ensures AllQuiet(c.script) && Serves(c.script, Verb.Update, key) && key in old(c.world).Store() ==>
              (old(c.world).Store()[key].version == version ==> r.Ok?)
  {
    var res := Resource(p, Blank);
    ghost var turn := c.script(Request(|c.calls|, Verb.Update, key));
    OverwriteFacts(c.world, turn, RightsOf(s), key, res, version);
    if AllQuiet(c.script) {
      QuietFacts(c.world, turn, key, res, Verb.Update, version);
      WritesRenew(c.world, turn, Verb.Update, key, res, version);
      if turn.fate.Served? {
        ServedFacts(c.world, turn, Verb.Update, key, res);
      }
    }
    var lost;
    r, lost := c.Write(Verb.Update, key, res, version);
  }

  // ---------- recording conditions ----------

  /** Nothing recorded stands against readiness, and Ready itself is left to be derived. */
  ghost predicate Clean(conds: map<string, Condition>) {
    Keyed(conds) && READY !in conds && forall t :: t in conds ==> !Blocking(conds[t])
  }

  /** Some recorded condition is a failure, and Ready is left to be derived. */
  ghost predicate Stuck(conds: map<string, Condition>) {
    Keyed(conds) && READY !in conds && Any(conds, Failing)
  }

  // A type or a reason is told apart from the listed ones by its length and by single letters.
  lemma NotExempt(t: string)
    requires |t| > 8 && (|t| != 14 || t[0] != 'C')
    ensures t !in EXEMPT
  {
    assert |READY| == 5 && |"Degraded"| == 8 && |"CreateOnlyMode"| == 14 && "CreateOnlyMode"[0] == 'C';
  }

  lemma NotProgressing(r: string)
    requires r != "" && (r[|r| - 1] != 'y' || r[0] == 'I')
    ensures r !in PROGRESSING_REASONS
  {
    assert "StatefulSetNotReady"[18] == 'y' && "DaemonSetNotReady"[16] == 'y' && "DeploymentNotReady"[17] == 'y';
    assert "StatefulSetNotReady"[0] == 'S' && "DaemonSetNotReady"[0] == 'D' && "DeploymentNotReady"[0] == 'D';
  }

  method Fail(m: Manager, ctype: string, reason: string, message: string)
    requires Keyed(m.conditions) && READY !in m.conditions && ctype !in EXEMPT && reason !in PROGRESSING_REASONS
    modifies m
    ensures Stuck(m.conditions) && Undone(m.conditions, ctype) && m.conditions[ctype].reason == reason
  {
    m.AddCondition(ctype, reason, message, IsFalse);
    assert Failing(m.conditions[ctype]);
  }

  /** The condition is recorded as True. */
  ghost predicate Done(conds: map<string, Condition>, t: string) {
    t in conds && conds[t].status == IsTrue
  }

  /** The condition is recorded as False. */
  ghost predicate Undone(conds: map<string, Condition>, t: string) {
    t in conds && conds[t].status == IsFalse
  }

  ghost predicate KeepsDone(a: map<string, Condition>, b: map<string, Condition>) {
    forall t :: Done(a, t) ==> Done(b, t)
  }

  ghost predicate KeepsDoneBut(a: map<string, Condition>, b: map<string, Condition>, x: string) {
    forall t :: t != x && Done(a, t) ==> Done(b, t)
  }

  method Good(m: Manager, ctype: string, reason: string, message: string)
    requires Clean(m.conditions) && ctype != READY
    modifies m
    ensures Clean(m.conditions) && Done(m.conditions, ctype) && KeepsDone(old(m.conditions), m.conditions)
    ensures m.conditions[ctype].reason == reason
  {
    m.AddCondition(ctype, reason, message, IsTrue);
  }

  /** How bringing about one object failed. */
  datatype Failure = Generating | Reading(error: Error) | Creating(error: Error) | Updating(error: Error)

  function Explained(f: Failure): string {
    match f
    case Generating => "Failed to set owner reference"
    case Reading(e) => "Failed to get: " + Describe(e)
    case Creating(e) => "Failed to create: " + Describe(e)
    case Updating(e) => "Failed to update: " + Describe(e)
  }

  function Describe(e: Error): string {
    match e
    case NotFound => "not found"
    case AlreadyExists => "already exists"
    case Conflict => "the object has been modified"
    case Other(text) => text
  }

  /** A read that failed other than with not-found. */
  predicate FailedRead(call: Call) {
    call.verb == Verb.Get && call.error.Some? && call.error.value != NotFound
  }

  /** A failed read of one of the two objects whose read failures go unrecorded. */
  predicate SilentCall(call: Call, s: Setting) {
    FailedRead(call) && (call.key == s.ztwimKey || call.key == s.managerConfigKey)
  }

  /** Since the trace `calls`, one of those two reads has failed. */
  ghost predicate Silent(calls: seq<Call>, now: seq<Call>, s: Setting) {
    exists n :: |calls| <= n < |now| && SilentCall(now[n], s)
  }

  /** Since the trace `calls`, a plain write to the operator's own resource was made. */
  ghost predicate OwnerSent(calls: seq<Call>, now: seq<Call>, s: Setting) {
    exists n :: |calls| <= n < |now| && now[n].verb == Verb.Update && now[n].key == s.crKey
  }

  /** Since the trace `calls`, only `key` was addressed. */
  ghost predicate CallsOn(calls: seq<Call>, now: seq<Call>, key: Key) {
    RetryClient.CallsOn(calls, now, key)
  }

  /** What a part of a run guarantees of the world and the trace when neither of those reads failed. */
  ghost predicate Continued(w: World<Payload, St>, later: World<Payload, St>, calls: seq<Call>, now: seq<Call>,
                            s: Setting)
  {
    match later
    case World(_, _, _, _) => Advanced(w, later, RightsOf(s)) && calls <= now && !Silent(calls, now, s)
  }

  /** What a part of a run guarantees of the world, the trace and the conditions. */
  ghost predicate PartDone(w: World<Payload, St>, later: World<Payload, St>, calls: seq<Call>, now: seq<Call>,
                           s: Setting, conds: map<string, Condition>, ok: bool)
  {
    match ok
    case true => Continued(w, later, calls, now, s) && Clean(conds)
    case false => Continued(w, later, calls, now, s) && Stuck(conds)
  }

  lemma OtherKey(calls: seq<Call>, now: seq<Call>, s: Setting, key: Key)
    requires ProperKeys(s) && CallsOn(calls, now, key) && key.kind != Ztwim && key != s.managerConfigKey
    ensures calls <= now && !Silent(calls, now, s)
  {
  }

  /** Parts in sequence: silence of the whole is that of the last one. */
  lemma Chain(w: World<Payload, St>, mid: World<Payload, St>, later: World<Payload, St>, calls: seq<Call>,
              between: seq<Call>, now: seq<Call>, s: Setting)
    requires w.Valid() && Continued(w, mid, calls, between, s)
    requires Advanced(mid, later, RightsOf(s)) && between <= now
    ensures Advanced(w, later, RightsOf(s)) && calls <= now
    ensures Silent(calls, now, s) <==> Silent(between, now, s)
    ensures OwnerSent(calls, between, s) ==> OwnerSent(calls, now, s)
  {
    AdvancedChain(w, mid, later, RightsOf(s));
    assert forall n :: 0 <= n < |between| ==> between[n] == now[n];
  }

  /** All that a run checks and brings about before the StatefulSet is shown as valid or available, and so is
      create-only mode. */
  ghost predicate AllShown(conds: map<string, Condition>, createOnly: bool) {
    && GroupsShown(conds) && ConfigsShown(conds) && Done(conds, CONFIGURATION) && Done(conds, TTL_VALID)
    && (createOnly ==> Done(conds, MODE))
  }

  lemma AllGroups(conds: map<string, Condition>)
    requires Done(conds, GroupType(ServiceAccounts)) && Done(conds, GroupType(Services))
    requires Done(conds, GroupType(Rbac)) && Done(conds, GroupType(Webhooks))
    ensures GroupsShown(conds)
  {
    forall g: Group ensures Done(conds, GroupType(g)) {
      match g {
        case ServiceAccounts =>
        case Services =>
        case Rbac =>
        case Webhooks =>
      }
    }
  }

  lemma AllConfigs(conds: map<string, Condition>)
    requires Done(conds, ConfigType(ServerConfig)) && Done(conds, ConfigType(ManagerConfig))
    requires Done(conds, ConfigType(BundleConfig))
    ensures ConfigsShown(conds)
  {
    forall which: Configuration ensures Done(conds, ConfigType(which)) {
      match which {
        case ServerConfig =>
        case ManagerConfig =>
        case BundleConfig =>
      }
    }
  }

  ghost predicate GroupsShown(conds: map<string, Condition>) {
    forall g :: Done(conds, GroupType(g))
  }

  ghost predicate ConfigsShown(conds: map<string, Condition>) {
    forall which :: Done(conds, ConfigType(which))
  }

  // ---------- the common pattern: get, then create, or merge, compare and update ----------

  ghost predicate StepEffect(before: Store<Payload, St>, after: Store<Payload, St>, createOnly: bool,
                             script: Request -> Turn<Payload, St>, step: Step)
  {
    var stored := if step.key in before then before[step.key].res.spec else step.desired;
    var merged := step.merge(stored, step.desired);
    Effect(before, after, step.key, createOnly, script, step.desired, merged, step.needs(stored, merged))
  }

  /** The SPIRE server Service as a step. */
  function ServiceStep(key: Key, desired: ServiceSync.Service): Step {
    Step(key, Svc(desired),
         (e: Payload, d: Payload) => if e.Svc? && d.Svc? then Svc(ServiceSync.Merged(e.service, d.service)) else d,
         (e: Payload, m: Payload) => !(e.Svc? && m.Svc? && ServiceSync.UpToDate(e.service, m.service)))
  }

  /** The validating webhook configuration as a step. */
  function WebhookStep(key: Key, desired: WebhookSync.Configuration): Step {
    Step(key, Hooks(desired),
         (e: Payload, d: Payload) =>
           if e.Hooks? && d.Hooks? then Hooks(WebhookSync.Merged(e.webhooks, d.webhooks)) else d,
         (e: Payload, m: Payload) => !(e.Hooks? && m.Hooks? && WebhookSync.UpToDate(e.webhooks, m.webhooks)))
  }

  method SyncObject(c: Cluster<Payload, St>, s: Setting, step: Step) returns (failure: Option<Failure>)
    requires c.world.Valid() && step.key in RightsOf(s).scope
    modifies c
    ensures Advanced(old(c.world), c.world, RightsOf(s))
    ensures CallsOn(old(c.calls), c.calls, step.key)
    ensures AllQuiet(c.script) ==> OnlyAt(old(c.world).Store(), c.world.Store(), step.key)
    ensures AllQuiet(c.script) && failure.None? ==>
              StepEffect(old(c.world).Store(), c.world.Store(), s.createOnly, c.script, step)
    ensures AllQuiet(c.script) && ServesKey(c.script, step.key) && s.ownable(step.key) ==> failure.None?
  {
    if !s.ownable(step.key) {
      return Some(Generating);
    }
    var existing := Read(c, s, step.key);
    ghost var mid := c.world;
    if existing.Err? {
      if existing.error != NotFound {
        return Some(Reading(existing.error));
      }
      var made := Make(c, s, step.key, step.desired);
      AdvancedChain(old(c.world), mid, c.world, RightsOf(s));
      return if made.Err? then Some(Creating(made.error)) else None;
    }
    if s.createOnly {
      return None;
    }
    var merged := step.merge(existing.value.res.spec, step.desired);
    if !step.needs(existing.value.res.spec, merged) {
      return None;
    }
    var written := Overwrite(c, s, step.key, merged, existing.value.version);
    AdvancedChain(old(c.world), mid, c.world, RightsOf(s));
    return if written.Err? then Some(Updating(written.error)) else None;
  }

  /** The groups of objects that share one condition each. */
  datatype Group = ServiceAccounts | Services | Rbac | Webhooks

  function GroupType(g: Group): string {
    match g
    case ServiceAccounts => "ServiceAccountAvailable"
    case Services => "ServiceAvailable"
    case Rbac => "RBACAvailable"
    case Webhooks => "ValidatingWebhookAvailable"
  }

  /** The conditions of the groups. */
  lemma GroupNames()
    ensures GroupType(ServiceAccounts) == "ServiceAccountAvailable" && GroupType(Services) == "ServiceAvailable"
    ensures GroupType(Rbac) == "RBACAvailable" && GroupType(Webhooks) == "ValidatingWebhookAvailable"
  {
  }

  lemma GroupTypes(g: Group)
    ensures GroupType(g) !in EXEMPT && REASON_FAILED !in PROGRESSING_REASONS
  {
    NotExempt(GroupType(g));
    NotProgressing(REASON_FAILED);
  }

  method FailGroup(m: Manager, g: Group, failure: Failure)
    requires Keyed(m.conditions) && READY !in m.conditions
    modifies m
    ensures Stuck(m.conditions) && Undone(m.conditions, GroupType(g))
  {
    GroupTypes(g);
    Fail(m, GroupType(g), REASON_FAILED, Explained(failure));
  }

  method GroupDone(m: Manager, g: Group)
    requires Clean(m.conditions)
    modifies m
    ensures Clean(m.conditions) && Done(m.conditions, GroupType(g)) && KeepsDone(old(m.conditions), m.conditions)
  {
    GroupTypes(g);
    Good(m, GroupType(g), REASON_READY, "All resources available");
  }

  method ReconcileObject(c: Cluster<Payload, St>, m: Manager, s: Setting, g: Group, step: Step) returns (ok: bool)
    requires c.world.Valid() && Clean(m.conditions) && WellFormed(s)
    requires ManagedKind(step.key.kind) && step.key in RightsOf(s).scope
    modifies c, m
    ensures PartDone(old(c.world), c.world, old(c.calls), c.calls, s, m.conditions, ok)
    ensures AllQuiet(c.script) ==> OnlyAt(old(c.world).Store(), c.world.Store(), step.key)
    ensures AllQuiet(c.script) && ok ==> StepEffect(old(c.world).Store(), c.world.Store(), s.createOnly, c.script, step)
    ensures Obliging(c.script, s) ==> ok
    ensures if ok then m.conditions == old(m.conditions) else Undone(m.conditions, GroupType(g))
  {
    if Obliging(c.script, s) {
      ObligingServes(c.script, s, step.key);
    }
    var failure := SyncObject(c, s, step);
    OtherKey(old(c.calls), c.calls, s, step.key);
    ok := failure.None?;
    if !ok {
      FailGroup(m, g, failure.value);
    }
  }

  ghost predicate Outside(k: Key, steps: seq<Step>) {
    forall i :: 0 <= i < |steps| ==> steps[i].key != k
  }

  /** Every step has had its effect, and nothing else has changed. */
  ghost predicate GroupEffect(before: Store<Payload, St>, after: Store<Payload, St>, createOnly: bool,
                              script: Request -> Turn<Payload, St>, steps: seq<Step>)
  {
    && (forall k :: Outside(k, steps) ==> SameAt(before, after, k))
    && (forall i :: 0 <= i < |steps| ==> StepEffect(before, after, createOnly, script, steps[i]))
  }

  /** Groups of steps on different objects compose. */
  lemma GroupsCompose(a: Store<Payload, St>, mid: Store<Payload, St>, b: Store<Payload, St>, createOnly: bool,
                      script: Request -> Turn<Payload, St>, xs: seq<Step>, ys: seq<Step>)
    requires ManagedSteps(xs + ys)
    requires GroupEffect(a, mid, createOnly, script, xs) && GroupEffect(mid, b, createOnly, script, ys)
    ensures GroupEffect(a, b, createOnly, script, xs + ys)
  {
    var all := xs + ys;
    forall k | Outside(k, all) ensures SameAt(a, b, k) {
      assert forall i :: 0 <= i < |xs| ==> xs[i] == all[i];
      assert forall i :: 0 <= i < |ys| ==> ys[i] == all[|xs| + i];
      assert Outside(k, xs) && Outside(k, ys);
    }
    forall i | 0 <= i < |all| ensures StepEffect(a, b, createOnly, script, all[i]) {
      if i < |xs| {
        assert StepEffect(a, mid, createOnly, script, xs[i]);
        KeyOutside(all, i, ys, |xs|);
        assert SameAt(mid, b, all[i].key);
      } else {
        assert StepEffect(mid, b, createOnly, script, ys[i - |xs|]);
        KeyOutside(all, i, xs, 0);
        assert SameAt(a, mid, all[i].key);
      }
    }
  }

  lemma KeyOutside(all: seq<Step>, i: nat, part: seq<Step>, at: nat)
    requires ManagedSteps(all) && i < |all| && at + |part| <= |all| && all[at..at + |part|] == part
    requires i < at || at + |part| <= i
    ensures Outside(all[i].key, part)
  {
    forall j | 0 <= j < |part| ensures part[j].key != all[i].key {
      assert part[j] == all[at + j];
    }
  }

  lemma PartsAreManaged(xs: seq<Step>, ys: seq<Step>)
    requires ManagedSteps(xs + ys)
    ensures ManagedSteps(xs) && ManagedSteps(ys)
  {
    var all := xs + ys;
    assert forall i :: 0 <= i < |xs| ==> xs[i] == all[i];
    assert forall i :: 0 <= i < |ys| ==> ys[i] == all[|xs| + i];
  }

  lemma SingleEffect(a: Store<Payload, St>, b: Store<Payload, St>, createOnly: bool,
                     script: Request -> Turn<Payload, St>, step: Step)
    requires OnlyAt(a, b, step.key) && StepEffect(a, b, createOnly, script, step)
    ensures GroupEffect(a, b, createOnly, script, [step])
  {
    forall k | Outside(k, [step]) ensures SameAt(a, b, k) {
      assert [step][0].key != k;
    }
  }

  lemma HeadIsManaged(steps: seq<Step>, n: nat)
    requires ManagedSteps(steps) && n <= |steps|
    ensures ManagedSteps(steps[..n])
  {
    assert steps[..n] + steps[n..] == steps;
    PartsAreManaged(steps[..n], steps[n..]);
  }

  /** An object reconciled after others, `done`, in a group that began in the world `start`
      after the trace `calls`. */
  method ReconcileNextObject(c: Cluster<Payload, St>, m: Manager, s: Setting, g: Group, step: Step,
                             ghost start: World<Payload, St>, ghost calls: seq<Call>, ghost done: seq<Step>)
    returns (ok: bool)
    requires start.Valid() && Clean(m.conditions) && WellFormed(s)
    requires ManagedSteps(done + [step]) && Continued(start, c.world, calls, c.calls, s)
    requires step.key in RightsOf(s).scope
    requires AllQuiet(c.script) ==> GroupEffect(start.Store(), c.world.Store(), s.createOnly, c.script, done)
    modifies c, m
    ensures PartDone(start, c.world, calls, c.calls, s, m.conditions, ok)
    ensures AllQuiet(c.script) && ok ==>
              GroupEffect(start.Store(), c.world.Store(), s.createOnly, c.script, done + [step])
    ensures Obliging(c.script, s) ==> ok
    ensures if ok then m.conditions == old(m.conditions) else Undone(m.conditions, GroupType(g))
  {
    PartsAreManaged(done, [step]);
    assert ManagedKind([step][0].key.kind);
    ok := ReconcileObject(c, m, s, g, step);
    Chain(start, old(c.world), c.world, calls, old(c.calls), c.calls, s);
    if AllQuiet(c.script) && ok {
      SingleEffect(old(c.world).Store(), c.world.Store(), s.createOnly, c.script, step);
      GroupsCompose(start.Store(), old(c.world).Store(), c.world.Store(), s.createOnly, c.script, done, [step]);
    }
  }

  ghost predicate Scoped(s: Setting, steps: seq<Step>) {
    forall i :: 0 <= i < |steps| ==> steps[i].key in RightsOf(s).scope
  }

  /** A group of objects sharing one condition, recorded as available when all of them are done. */
  method ReconcileGroup(c: Cluster<Payload, St>, m: Manager, s: Setting, g: Group, steps: seq<Step>) returns (ok: bool)
    requires c.world.Valid() && Clean(m.conditions) && WellFormed(s)
    requires ManagedSteps(steps) && Scoped(s, steps)
    modifies c, m
    ensures PartDone(old(c.world), c.world, old(c.calls), c.calls, s, m.conditions, ok)
    ensures AllQuiet(c.script) && ok ==>
              GroupEffect(old(c.world).Store(), c.world.Store(), s.createOnly, c.script, steps)
    ensures Obliging(c.script, s) ==> ok
    ensures ok ==> Done(m.conditions, GroupType(g)) && KeepsDone(old(m.conditions), m.conditions)
    ensures !ok ==> Undone(m.conditions, GroupType(g))
  {
    for i := 0 to |steps|
      invariant PartDone(old(c.world), c.world, old(c.calls), c.calls, s, m.conditions, true)
      invariant m.conditions == old(m.conditions)
      invariant AllQuiet(c.script) ==>
                  GroupEffect(old(c.world).Store(), c.world.Store(), s.createOnly, c.script, steps[..i])
    {
      HeadIsManaged(steps, i + 1);
      assert steps[..i + 1] == steps[..i] + [steps[i]];
      ok := ReconcileNextObject(c, m, s, g, steps[i], old(c.world), old(c.calls), steps[..i]);
      if !ok {
        return;
      }
    }
    assert steps[..|steps|] == steps;
    GroupDone(m, g);
    ok := true;
  }

  // ---------- ConfigMaps ----------

  ghost predicate ConfigDiffers(store: Store<Payload, St>, key: Key, desired: Payload) {
    key in store ==>
      || DataOf(store[key].res.spec) != DataOf(desired)
      || LabelsOf(store[key].res.spec) != LabelsOf(desired)
  }

  /** Since the trace `calls`, `key` was read and then possibly written, nothing else. */
  ghost predicate SyncedOn(calls: seq<Call>, now: seq<Call>, key: Key, readFailed: bool) {
    match readFailed
    case true => CallsOn(calls, now, key) && exists n :: |calls| <= n < |now| && FailedRead(now[n])
    case false => CallsOn(calls, now, key) && forall n :: |calls| <= n < |now| ==> !FailedRead(now[n])
  }

  lemma ReadOnly(calls: seq<Call>, read: Call)
    ensures SyncedOn(calls, calls + [read], read.key, FailedRead(read))
  {
    assert (calls + [read])[|calls|] == read;
  }

  lemma ReadAndWritten(calls: seq<Call>, read: Call, write: Call)
    requires write.key == read.key && write.verb != Verb.Get && !FailedRead(read)
    ensures SyncedOn(calls, calls + [read] + [write], read.key, false)
  {
  }

  /** Brings a ConfigMap to the wanted data and labels. */
  method SyncConfig(c: Cluster<Payload, St>, s: Setting, key: Key, desired: Payload)
    returns (failure: Option<Failure>)
    requires c.world.Valid() && key in RightsOf(s).scope
    modifies c
    ensures Advanced(old(c.world), c.world, RightsOf(s))
    ensures SyncedOn(old(c.calls), c.calls, key, failure.Some? && failure.value.Reading?)
    ensures ReadRefused(c.script, |old(c.calls)|, key) ==> failure.Some? && failure.value.Reading?
    ensures AllQuiet(c.script) && WritesServed(c.script, key) ==>
              && (failure.None? || failure.value.Reading?)
              && (Serves(c.script, Verb.Get, key) ==> failure.None?)
    ensures AllQuiet(c.script) ==> OnlyAt(old(c.world).Store(), c.world.Store(), key)
    ensures AllQuiet(c.script) && failure.None? ==>
              Effect(old(c.world).Store(), c.world.Store(), key, s.createOnly, c.script, desired, desired,
                     ConfigDiffers(old(c.world).Store(), key, desired))
  {
    failure := None;
    var existing := Read(c, s, key);
    ghost var mid, read := c.world, c.calls[|old(c.calls)|];
    ReadOnly(old(c.calls), read);
    if existing.Err? {
      if existing.error == NotFound {
        var made := Make(c, s, key, desired);
        AdvancedChain(old(c.world), mid, c.world, RightsOf(s));
        ReadAndWritten(old(c.calls), read, c.calls[|old(c.calls)| + 1]);
        failure := if made.Err? then Some(Creating(made.error)) else None;
      } else {
        failure := Some(Reading(existing.error));
      }
    } else {
      var stored := existing.value.res.spec;
      if DataOf(stored) != DataOf(desired) || LabelsOf(stored) != LabelsOf(desired) {
        if !s.createOnly {
          var written := Overwrite(c, s, key, desired, existing.value.version);
          AdvancedChain(old(c.world), mid, c.world, RightsOf(s));
          ReadAndWritten(old(c.calls), read, c.calls[|old(c.calls)| + 1]);
          failure := if written.Err? then Some(Updating(written.error)) else None;
        }
      }
    }
  }

  datatype Configuration = ServerConfig | ManagerConfig | BundleConfig

  function ConfigType(which: Configuration): string {
    match which
    case ServerConfig => "ServerConfigMapAvailable"
    case ManagerConfig => "ControllerManagerConfigAvailable"
    case BundleConfig => "BundleConfigAvailable"
  }

  function ConfigFailure(which: Configuration): string {
    match which
    case ServerConfig => "SpireServerConfigMapGenerationFailed"
    case ManagerConfig => "SpireControllerManagerConfigMapGenerationFailed"
    case BundleConfig => "SpireBundleConfigMapGenerationFailed"
  }

  function ConfigSuccess(which: Configuration): string {
    match which
    case ServerConfig => "SpireConfigMapResourceCreated"
    case ManagerConfig => "SpireControllerManagerConfigMapCreated"
    case BundleConfig => "SpireBundleConfigMapCreated"
  }

  /** The conditions of the ConfigMaps. */
  lemma ConfigNames()
    ensures ConfigType(ServerConfig) == "ServerConfigMapAvailable"
    ensures ConfigType(BundleConfig) == "BundleConfigAvailable"
    ensures ConfigType(ManagerConfig) == "ControllerManagerConfigAvailable"
    ensures ConfigFailure(ServerConfig) == "SpireServerConfigMapGenerationFailed"
    ensures ConfigFailure(ManagerConfig) == "SpireControllerManagerConfigMapGenerationFailed"
    ensures ConfigFailure(BundleConfig) == "SpireBundleConfigMapGenerationFailed"
  {
  }

  lemma ConfigTypes(which: Configuration)
    ensures ConfigType(which) !in EXEMPT && ConfigFailure(which) !in PROGRESSING_REASONS
  {
    NotExempt(ConfigType(which));
    NotProgressing(ConfigFailure(which));
  }

  method FailConfig(m: Manager, which: Configuration, failure: Failure)
    requires Keyed(m.conditions) && READY !in m.conditions
    modifies m
    ensures Stuck(m.conditions) && Undone(m.conditions, ConfigType(which))
  {
    ConfigTypes(which);
    Fail(m, ConfigType(which), ConfigFailure(which), Explained(failure));
  }

  method ConfigDone(m: Manager, which: Configuration)
    requires Clean(m.conditions)
    modifies m
    ensures Clean(m.conditions) && Done(m.conditions, ConfigType(which)) && KeepsDone(old(m.conditions), m.conditions)
  {
    ConfigTypes(which);
    Good(m, ConfigType(which), ConfigSuccess(which), "config map resources applied");
  }

  function ServerConf(s: Setting, spec: ServerSpec, z: ZtwimSpec): Option<string> {
    if z.trustDomain == "" || z.bundleConfigMap == "" then None else s.serverConf(spec, z)
  }

  function ManagerConf(s: Setting, spec: ServerSpec, z: ZtwimSpec): Option<string> {
    if z.trustDomain == "" || z.clusterName == "" then None else s.managerConf(spec, z)
  }

  /** There is a configuration text when the settings it needs are there and it can be rendered. */
  lemma ConfExactly(s: Setting, spec: ServerSpec, z: ZtwimSpec, text: string)
    ensures ServerConf(s, spec, z) == Some(text) <==>
              z.trustDomain != "" && z.bundleConfigMap != "" && s.serverConf(spec, z) == Some(text)
    ensures ManagerConf(s, spec, z) == Some(text) <==>
              z.trustDomain != "" && z.clusterName != "" && s.managerConf(spec, z) == Some(text)
  {
  }

  ghost predicate ConfigEffect(before: Store<Payload, St>, after: Store<Payload, St>, s: Setting,
                               script: Request -> Turn<Payload, St>, key: Key, desired: Payload)
  {
    Effect(before, after, key, s.createOnly, script, desired, desired, ConfigDiffers(before, key, desired))
  }

  ghost predicate ServerConfigEffect(before: Store<Payload, St>, after: Store<Payload, St>, s: Setting,
                                     script: Request -> Turn<Payload, St>, spec: ServerSpec, z: ZtwimSpec)
  {
    && ServerConf(s, spec, z).Some?
    && ConfigEffect(before, after, s, script, s.serverConfigKey,
                    ConfigData(ServerConf(s, spec, z).value, s.serverLabels(spec)))
  }

  ghost predicate ManagerConfigEffect(before: Store<Payload, St>, after: Store<Payload, St>, s: Setting,
                                      script: Request -> Turn<Payload, St>, spec: ServerSpec, z: ZtwimSpec)
  {
    && ManagerConf(s, spec, z).Some?
    && ConfigEffect(before, after, s, script, s.managerConfigKey,
                    ConfigData(ManagerConf(s, spec, z).value, s.managerLabels))
  }

  method ReconcileServerConfig(c: Cluster<Payload, St>, m: Manager, s: Setting, spec: ServerSpec, z: ZtwimSpec)
    returns (ok: bool, hash: string)
    requires c.world.Valid() && Clean(m.conditions) && ProperKeys(s)
    modifies c, m
    ensures PartDone(old(c.world), c.world, old(c.calls), c.calls, s, m.conditions, ok)
    ensures ok ==> ServerConf(s, spec, z).Some? && hash == ConfigHash(s, ServerConf(s, spec, z).value)
    ensures ok ==> z.trustDomain != "" && z.bundleConfigMap != "" && s.serverConf(spec, z).Some?
    ensures ok ==> hash == s.sha(TrimSpace(s.serverConf(spec, z).value))
    ensures AllQuiet(c.script) ==> OnlyAt(old(c.world).Store(), c.world.Store(), s.serverConfigKey)
    ensures AllQuiet(c.script) && ok ==>
              ServerConfigEffect(old(c.world).Store(), c.world.Store(), s, c.script, spec, z)
    ensures Obliging(c.script, s) && ServerConf(s, spec, z).Some? ==> ok
    ensures ok ==> Done(m.conditions, ConfigType(ServerConfig)) && KeepsDone(old(m.conditions), m.conditions)
    ensures !ok ==> Undone(m.conditions, ConfigType(ServerConfig))
  {
    if Obliging(c.script, s) {
      ObligingServes(c.script, s, s.serverConfigKey);
    }
    ok, hash := false, "";
    var conf := ServerConf(s, spec, z);
    if conf.None? || !s.ownable(s.serverConfigKey) {
      FailConfig(m, ServerConfig, Generating);
    } else {
      var failure := SyncConfig(c, s, s.serverConfigKey, ConfigData(conf.value, s.serverLabels(spec)));
      OtherKey(old(c.calls), c.calls, s, s.serverConfigKey);
      if failure.Some? {
        FailConfig(m, ServerConfig, failure.value);
      } else {
        ConfigDone(m, ServerConfig);
        // The configuration is marshalled once more for the hash; that cannot fail after the first time.
        var again := s.serverConf(spec, z);
        if again.None? {
          assert false;
        }
        ok, hash := true, ConfigHash(s, again.value);
      }
    }
  }

  /** How far a part of a run gets when nothing goes wrong but, possibly, the two unrecorded reads: to its
      end, unless the read of the controller-manager ConfigMap fails. */
  ghost predicate Progress(script: Request -> Turn<Payload, St>, s: Setting, spec: ServerSpec, z: ZtwimSpec, ok: bool,
                           silent: bool)
  {
    Obliging(script, s) && ServerConf(s, spec, z).Some? && ManagerConf(s, spec, z).Some? ==>
      && (ok || silent)
      && (Denies(script, s.managerConfigKey) ==> silent)
      && (Serves(script, Verb.Get, s.managerConfigKey) ==> !silent)
  }

  method ReconcileManagerConfig(c: Cluster<Payload, St>, m: Manager, s: Setting, spec: ServerSpec, z: ZtwimSpec)
    returns (ok: bool, hash: string)
    requires c.world.Valid() && Clean(m.conditions) && ProperKeys(s)
    modifies c, m
    ensures Advanced(old(c.world), c.world, RightsOf(s)) && old(c.calls) <= c.calls
    // A failed read returns an error without recording anything; every other failure is recorded.
    ensures ok ==> Clean(m.conditions) && !Silent(old(c.calls), c.calls, s)
    ensures !ok ==> if Silent(old(c.calls), c.calls, s) then m.conditions == old(m.conditions)
                    else Stuck(m.conditions) && Undone(m.conditions, ConfigType(ManagerConfig))
    ensures ok ==> Done(m.conditions, ConfigType(ManagerConfig)) && KeepsDone(old(m.conditions), m.conditions)
    ensures Progress(c.script, s, spec, z, ok, Silent(old(c.calls), c.calls, s))
    ensures ok ==> ManagerConf(s, spec, z).Some? && hash == ConfigHash(s, ManagerConf(s, spec, z).value)
    ensures ok ==> z.trustDomain != "" && z.clusterName != "" && s.managerConf(spec, z).Some?
    ensures ok ==> hash == s.sha(TrimSpace(s.managerConf(spec, z).value))
    ensures AllQuiet(c.script) ==> OnlyAt(old(c.world).Store(), c.world.Store(), s.managerConfigKey)
    ensures AllQuiet(c.script) && ok ==>
              ManagerConfigEffect(old(c.world).Store(), c.world.Store(), s, c.script, spec, z)
  {
    if Obliging(c.script, s) {
      ObligingServes(c.script, s, s.managerConfigKey);
    }
    ok, hash := false, "";
    var conf := ManagerConf(s, spec, z);
    if conf.None? || !s.ownable(s.managerConfigKey) {
      FailConfig(m, ManagerConfig, Generating);
    } else {
      var failure := SyncConfig(c, s, s.managerConfigKey, ConfigData(conf.value, s.managerLabels));
      if failure.Some? {
        if !failure.value.Reading? {
          FailConfig(m, ManagerConfig, failure.value);
        }
      } else {
        ConfigDone(m, ManagerConfig);
        // The text is trimmed before the hash function trims it again.
        TrimIdempotent(conf.value);
        ok, hash := true, ConfigHash(s, TrimSpace(conf.value));
      }
    }
  }

  ghost predicate KeepsExisting(a: Store<Payload, St>, b: Store<Payload, St>) {
    forall k :: k in a ==> k in b && b[k] == a[k]
  }

  /** The bundle ConfigMap is there, as it was if it was there before; a server that falsely reports it to
      exist is believed. */
  ghost predicate BundleEffect(before: Store<Payload, St>, after: Store<Payload, St>, s: Setting,
                               script: Request -> Turn<Payload, St>, spec: ServerSpec, z: ZtwimSpec)
  {
    match At(before, s.bundleKey(z))
    case Some(stored) => s.bundleKey(z) in after && after[s.bundleKey(z)] == stored
    case None =>
      && (Honest(script) ==> s.bundleKey(z) in after)
      && (s.bundleKey(z) in after ==>
            Admitted(script, ConfigData("", s.serverLabels(spec)), after[s.bundleKey(z)].res.spec))
  }

  method MakeBundle(c: Cluster<Payload, St>, s: Setting, spec: ServerSpec, z: ZtwimSpec)
    returns (failure: Option<Failure>)
    requires c.world.Valid() && ProperKeys(s)
    modifies c
    ensures Continued(old(c.world), c.world, old(c.calls), c.calls, s)
    ensures AllQuiet(c.script) ==>
              && OnlyAt(old(c.world).Store(), c.world.Store(), s.bundleKey(z))
              && KeepsExisting(old(c.world).Store(), c.world.Store())
              && (failure.None? ==> BundleEffect(old(c.world).Store(), c.world.Store(), s, c.script, spec, z))
    ensures failure.None? ==>
              || c.calls == old(c.calls) + [Call(Verb.Create, s.bundleKey(z), Some(AlreadyExists))]
              || (&& c.calls == old(c.calls) + [Call(Verb.Create, s.bundleKey(z), None)]
                  && s.bundleKey(z) in c.world.Store())
    ensures AllQuiet(c.script) && Serves(c.script, Verb.Create, s.bundleKey(z)) ==> failure.None?
  {
    var made := Make(c, s, s.bundleKey(z), ConfigData("", s.serverLabels(spec)));
    if AllQuiet(c.script) {
      assert forall k :: k in old(c.world).Store() ==> SameAt(old(c.world).Store(), c.world.Store(), k);
    }
    assert c.calls[|old(c.calls)|].verb == Verb.Create;
    failure := if made.Err? && made.error != AlreadyExists then Some(Creating(made.error)) else None;
  }

  /** Only ever creates; the name is configured by the user and may be that of an existing object. */
  method ReconcileBundle(c: Cluster<Payload, St>, m: Manager, s: Setting, spec: ServerSpec, z: ZtwimSpec)
    returns (ok: bool)
    requires c.world.Valid() && Clean(m.conditions) && ProperKeys(s)
    modifies c, m
    ensures PartDone(old(c.world), c.world, old(c.calls), c.calls, s, m.conditions, ok)
    ensures AllQuiet(c.script) ==>
              && OnlyAt(old(c.world).Store(), c.world.Store(), s.bundleKey(z))
              && KeepsExisting(old(c.world).Store(), c.world.Store())
    // It is done when it was created just now or is reported to exist.
    ensures ok ==>
              || c.calls == old(c.calls) + [Call(Verb.Create, s.bundleKey(z), Some(AlreadyExists))]
              || (&& c.calls == old(c.calls) + [Call(Verb.Create, s.bundleKey(z), None)]
                  && s.bundleKey(z) in c.world.Store())
    ensures AllQuiet(c.script) && ok ==> BundleEffect(old(c.world).Store(), c.world.Store(), s, c.script, spec, z)
    ensures Obliging(c.script, s) && z.bundleConfigMap != "" ==> ok
    ensures ok ==> Done(m.conditions, ConfigType(BundleConfig)) && KeepsDone(old(m.conditions), m.conditions)
    ensures !ok ==> Undone(m.conditions, ConfigType(BundleConfig))
  {
    if Obliging(c.script, s) {
      ObligingServes(c.script, s, s.bundleKey(z));
    }
    ok := false;
    if z.bundleConfigMap == "" || !s.ownable(s.bundleKey(z)) {
      FailConfig(m, BundleConfig, Generating);
    } else {
      var failure := MakeBundle(c, s, spec, z);
      if failure.Some? {
        FailConfig(m, BundleConfig, failure.value);
      } else {
        ConfigDone(m, BundleConfig);
        ok := true;
      }
    }
  }

  // ---------- StatefulSet ----------

  const WORKLOAD := "StatefulSetAvailable"

  datatype Health = Healthy | NotReady | Unreadable

  /** All replicas that are asked for are ready and updated, for the generation that is asked for. */
  ghost predicate FullyUp(stored: Resource<Payload, St>) {
    && stored.spec.Workload? && stored.status.OfWorkload?
    && stored.spec.sts.replicas == Some(stored.status.ready) && stored.spec.sts.replicas == Some(stored.status.updated)
    && stored.status.observed == stored.status.generation
  }

  /** What was found out about the workload is so in the store. */
  ghost predicate HealthTold(store: Store<Payload, St>, s: Setting, health: Health) {
    match health
    case Healthy => s.workloadKey in store && FullyUp(store[s.workloadKey].res)
    case NotReady => s.workloadKey in store && !FullyUp(store[s.workloadKey].res)
    case Unreadable => true
  }

  predicate IsHealthy(p: Payload, status: St) {
    && StsOf(p).replicas.Some? && status.OfWorkload?
    && status.ready == StsOf(p).replicas.value && status.updated == StsOf(p).replicas.value
    && status.observed == status.generation
  }

  function MetaOf(p: Payload): map<string, string> { if p.Workload? then p.meta else map[] }

  /** The stored workload shows both hashes, the labels and everything the comparison looks at. */
  ghost predicate WorkloadShows(current: Payload, desired: Payload) {
    && ServerHash(current) == ServerHash(desired) && ManagerHash(current) == ManagerHash(desired)
    && Included(MetaOf(desired), MetaOf(current))
    && Comparison.ScalarsMatch(StsOf(current), StsOf(desired))
    && Comparison.ListsMatch(StsOf(current).pod, StsOf(desired).pod)
  }

  /** The separate tests of the two hashes add nothing to the comparison. */
  lemma WorkloadShowsExactly(current: Payload, desired: Payload)
    ensures WorkloadShows(current, desired) <==>
              && (forall k :: k in MetaOf(desired) ==> k in MetaOf(current) && MetaOf(current)[k] == MetaOf(desired)[k])
              && Comparison.SameButLists(StsOf(current), StsOf(desired))
              && Comparison.ListsMatch(StsOf(current).pod, StsOf(desired).pod)
  {
    Comparison.ScalarsExactly(StsOf(current), StsOf(desired));
  }

  method NeedsUpdate(current: Payload, desired: Payload) returns (needed: bool)
    ensures needed <==> !WorkloadShows(current, desired)
  {
    if ServerHash(current) != ServerHash(desired) {
      return true;
    } else if ManagerHash(current) != ManagerHash(desired) {
      return true;
    }
    var labels := LabelsMatch(MetaOf(current), MetaOf(desired));
    if !labels {
      return true;
    }
    needed := Comparison.StatefulSetNeedsUpdate(StsOf(current), StsOf(desired));
  }

  ghost predicate WorkloadEffect(before: Store<Payload, St>, after: Store<Payload, St>, s: Setting,
                                 script: Request -> Turn<Payload, St>, desired: Payload)
  {
    Effect(before, after, s.workloadKey, s.createOnly, script, desired, desired,
           s.workloadKey in before ==> !WorkloadShows(before[s.workloadKey].res.spec, desired))
  }

  /** The StatefulSet that is generated for a specification. */
  function WorkloadOf(s: Setting, spec: ServerSpec, serverHash: string, managerHash: string): Payload {
    var config := spec.workload.(federation := spec.federation);
    Workload(config.labels, SpireStatefulSet.Generated(config, s.images, s.env, serverHash, managerHash))
  }

  ghost predicate IsGenerated(p: Payload, s: Setting, spec: ServerSpec, serverHash: string, managerHash: string) {
    p == WorkloadOf(s, spec, serverHash, managerHash)
  }

  /** The workload was brought to the one generated with both hashes. */
  ghost predicate WorkloadRolledOut(before: Store<Payload, St>, after: Store<Payload, St>, s: Setting,
                                    script: Request -> Turn<Payload, St>, spec: ServerSpec, serverHash: string,
                                    managerHash: string)
  {
    forall desired ::
      IsGenerated(desired, s, spec, serverHash, managerHash) ==> WorkloadEffect(before, after, s, script, desired)
  }

  method SyncWorkload(c: Cluster<Payload, St>, s: Setting, desired: Payload) returns (failure: Option<Failure>)
    requires c.world.Valid() && s.workloadKey in RightsOf(s).scope
    modifies c
    ensures Advanced(old(c.world), c.world, RightsOf(s))
    ensures CallsOn(old(c.calls), c.calls, s.workloadKey)
    ensures AllQuiet(c.script) ==> OnlyAt(old(c.world).Store(), c.world.Store(), s.workloadKey)
    ensures AllQuiet(c.script) && failure.None? ==>
              WorkloadEffect(old(c.world).Store(), c.world.Store(), s, c.script, desired)
    ensures AllQuiet(c.script) && ServesKey(c.script, s.workloadKey) ==> failure.None?
  {
    failure := None;
    var existing := Read(c, s, s.workloadKey);
    ghost var mid := c.world;
    if existing.Err? {
      if existing.error == NotFound {
        var made := Make(c, s, s.workloadKey, desired);
        AdvancedChain(old(c.world), mid, c.world, RightsOf(s));
        if made.Err? {
          failure := Some(Creating(made.error));
        }
      } else {
        failure := Some(Reading(existing.error));
      }
    } else {
      failure := RewriteWorkload(c, s, existing.value, desired);
      AdvancedChain(old(c.world), mid, c.world, RightsOf(s));
    }
  }

  /** Replaces a stored workload that does not show what is desired. */
  method RewriteWorkload(c: Cluster<Payload, St>, s: Setting, stored: Stored<Payload, St>, desired: Payload)
    returns (failure: Option<Failure>)
    requires c.world.Valid() && s.workloadKey in RightsOf(s).scope
    modifies c
    ensures Advanced(old(c.world), c.world, RightsOf(s)) && CallsOn(old(c.calls), c.calls, s.workloadKey)
    ensures AllQuiet(c.script) ==> OnlyAt(old(c.world).Store(), c.world.Store(), s.workloadKey)
    ensures AllQuiet(c.script) && At(old(c.world).Store(), s.workloadKey) == Some(stored) ==>
              && (failure.None? ==> WorkloadEffect(old(c.world).Store(), c.world.Store(), s, c.script, desired))
              && (Serves(c.script, Verb.Update, s.workloadKey) ==> failure.None?)
  {
    failure := None;
    var needed := NeedsUpdate(stored.res.spec, desired);
    if needed && !s.createOnly {
      var written := Overwrite(c, s, s.workloadKey, desired, stored.version);
      if written.Err? {
        failure := Some(Updating(written.error));
      }
    }
  }

  /** All recorded conditions stand for readiness, except that the workload's one follows its health. */
  ghost predicate CleanButWorkload(conds: map<string, Condition>, health: Health) {
    && Keyed(conds) && READY !in conds && WORKLOAD in conds && Shows(conds[WORKLOAD], health)
    && (forall t :: t in conds && t != WORKLOAD ==> !Blocking(conds[t]))
  }

  ghost predicate Shows(workload: Condition, health: Health) {
    match health
    case Healthy => !Blocking(workload)
    case NotReady => Starting(workload)
    case Unreadable => Failing(workload)
  }

  method FailWorkload(m: Manager, failure: Failure)
    requires Keyed(m.conditions) && READY !in m.conditions
    modifies m
    ensures Stuck(m.conditions) && Undone(m.conditions, WORKLOAD)
  {
    var reason := match failure
      case Generating => "SpireServerStatefulSetGenerationFailed"
      case Reading(_) => "SpireServerStatefulSetGetFailed"
      case Creating(_) => "SpireServerStatefulSetCreationFailed"
      case Updating(_) => "SpireServerStatefulSetUpdateFailed";
    NotExempt(WORKLOAD);
    NotProgressing(reason);
    Fail(m, WORKLOAD, reason, Explained(failure));
  }

  method RecordHealth(m: Manager, health: Health)
    requires Clean(m.conditions)
    modifies m
    ensures CleanButWorkload(m.conditions, health) && KeepsDoneBut(old(m.conditions), m.conditions, WORKLOAD)
    ensures health.Healthy? <==> Done(m.conditions, WORKLOAD)
  {
    NotExempt(WORKLOAD);
    match health {
      case Unreadable =>
        NotProgressing("StatefulSetNotFound");
        m.AddCondition(WORKLOAD, "StatefulSetNotFound", "Failed to get StatefulSet", IsFalse);
      case NotReady =>
        m.AddCondition(WORKLOAD, "StatefulSetNotReady", "StatefulSet is not ready", IsFalse);
      case Healthy =>
        m.AddCondition(WORKLOAD, "StatefulSetReady", "StatefulSet is healthy", IsTrue);
    }
  }

  method CheckHealth(c: Cluster<Payload, St>, m: Manager, s: Setting) returns (health: Health)
    requires c.world.Valid() && Clean(m.conditions) && ProperKeys(s)
    modifies c, m
    ensures Continued(old(c.world), c.world, old(c.calls), c.calls, s)
    ensures AllQuiet(c.script) ==> c.world == old(c.world)
    ensures AllQuiet(c.script) && !health.Unreadable? ==>
              && s.workloadKey in c.world.Store()
              && var stored := c.world.Store()[s.workloadKey].res;
              (health.Healthy? <==>
                 && stored.spec.Workload? && stored.status.OfWorkload? && stored.spec.sts.replicas.Some?
                 && stored.status.ready == stored.spec.sts.replicas.value
                 && stored.status.updated == stored.spec.sts.replicas.value
                 && stored.status.observed == stored.status.generation)
    ensures AllQuiet(c.script) ==> HealthTold(c.world.Store(), s, health)
    ensures AllQuiet(c.script) && ServesKey(c.script, s.workloadKey) ==>
              (health.Unreadable? <==> s.workloadKey !in c.world.Store())
    ensures CleanButWorkload(m.conditions, health) && KeepsDoneBut(old(m.conditions), m.conditions, WORKLOAD)
  {
    var read := Read(c, s, s.workloadKey);
    OtherKey(old(c.calls), c.calls, s, s.workloadKey);
    health := if read.Err? then Unreadable
              else if IsHealthy(read.value.res.spec, read.value.res.status) then Healthy
              else NotReady;
    RecordHealth(m, health);
  }

  method DesiredWorkload(s: Setting, spec: ServerSpec, serverHash: string, managerHash: string) returns (p: Payload)
    ensures forall desired :: IsGenerated(desired, s, spec, serverHash, managerHash) <==> desired == p
  {
    var config := spec.workload.(federation := spec.federation);
    var sts := SpireStatefulSet.Generate(config, s.images, s.env, serverHash, managerHash);
    p := Workload(sts.labels, sts);
  }

  /** What is generated carries both hashes and is well formed; and the comparison never takes a stored
      StatefulSet for it whose protocols are filled in. */
  lemma GeneratedWorkload(s: Setting, spec: ServerSpec, serverHash: string, managerHash: string)
    ensures var p := WorkloadOf(s, spec, serverHash, managerHash);
            && ServerHash(p) == serverHash && ManagerHash(p) == managerHash
            && SpireStatefulSet.WellFormed(p.sts.pod) && p.meta == spec.workload.labels && |p.sts.pod.containers| == 2
            && (spec.federation.Some? <==> Pods.Port("federation", 8443, "TCP") in p.sts.pod.containers[0].ports)
            && forall stored :: SpireStatefulSet.ProtocolsFilled(StsOf(stored).pod) ==> !WorkloadShows(stored, p)
  {
    var config := spec.workload.(federation := spec.federation);
    SpireStatefulSet.GeneratedHashes(config, s.images, s.env, serverHash, managerHash);
    SpireStatefulSet.GeneratedFacts(config, s.images, s.env, serverHash, managerHash);
    SpireStatefulSet.FederationPort(config, s.images, s.env, serverHash, managerHash);
  }

  method RollOut(c: Cluster<Payload, St>, s: Setting, spec: ServerSpec, serverHash: string, managerHash: string)
    returns (failure: Option<Failure>)
    requires c.world.Valid() && ProperKeys(s)
    modifies c
    ensures Continued(old(c.world), c.world, old(c.calls), c.calls, s)
    ensures AllQuiet(c.script) ==> OnlyAt(old(c.world).Store(), c.world.Store(), s.workloadKey)
    ensures AllQuiet(c.script) && failure.None? ==>
              WorkloadRolledOut(old(c.world).Store(), c.world.Store(), s, c.script, spec, serverHash, managerHash)
    ensures Obliging(c.script, s) ==> failure.None?
  {
    if Obliging(c.script, s) {
      ObligingServes(c.script, s, s.workloadKey);
    }
    var desired := DesiredWorkload(s, spec, serverHash, managerHash);
    failure := SyncWorkload(c, s, desired);
    OtherKey(old(c.calls), c.calls, s, s.workloadKey);
  }

  method ReconcileWorkload(c: Cluster<Payload, St>, m: Manager, s: Setting, spec: ServerSpec, serverHash: string,
                           managerHash: string)
    returns (ok: bool, health: Health)
    requires c.world.Valid() && Clean(m.conditions) && ProperKeys(s)
    modifies c, m
    ensures Continued(old(c.world), c.world, old(c.calls), c.calls, s)
    ensures ok ==> CleanButWorkload(m.conditions, health) && KeepsDoneBut(old(m.conditions), m.conditions, WORKLOAD)
    ensures !ok ==> Stuck(m.conditions) && Undone(m.conditions, WORKLOAD)
    ensures AllQuiet(c.script) && ok ==> HealthTold(c.world.Store(), s, health)
    ensures AllQuiet(c.script) ==> OnlyAt(old(c.world).Store(), c.world.Store(), s.workloadKey)
    ensures AllQuiet(c.script) && ok ==>
              WorkloadRolledOut(old(c.world).Store(), c.world.Store(), s, c.script, spec, serverHash, managerHash)
    ensures Obliging(c.script, s) ==> ok
  {
    ok, health := false, Healthy;
    if !s.ownable(s.workloadKey) {
      FailWorkload(m, Generating);
    } else {
      var failure := RollOut(c, s, spec, serverHash, managerHash);
      if failure.Some? {
        FailWorkload(m, failure.value);
      } else {
        ghost var mid, calls := c.world, c.calls;
        health := CheckHealth(c, m, s);
        Chain(old(c.world), mid, c.world, old(c.calls), calls, c.calls, s);
        ok := true;
      }
    }
  }

  // ---------- Route ----------

  const ROUTE := "RouteAvailable"

  predicate RouteManaged(spec: ServerSpec) {
    spec.federation.Some? && spec.federation.value.managedRoute == "true"
  }

  ghost predicate RouteEffect(before: Store<Payload, St>, after: Store<Payload, St>, s: Setting,
                              script: Request -> Turn<Payload, St>, desired: Payload)
  {
    Effect(before, after, s.routeKey, s.createOnly, script, desired, desired,
           s.routeKey in before ==> before[s.routeKey].res.spec != desired)
  }

  predicate RouteDisabled(spec: ServerSpec) {
    spec.federation.Some? && spec.federation.value.managedRoute != "true"
  }

  /** The final picture of a run that reached its end. */
  ghost predicate Concluded(conds: map<string, Condition>, health: Health, disabled: bool) {
    && Keyed(conds) && READY !in conds && WORKLOAD in conds && Shows(conds[WORKLOAD], health)
    && (forall t :: t in conds && t != WORKLOAD && t != ROUTE ==> !Blocking(conds[t]))
    && (disabled ==> ROUTE in conds && Failing(conds[ROUTE]))
    && (!disabled && ROUTE in conds ==> !Blocking(conds[ROUTE]))
  }

  datatype RouteOutcome = RouteCreated | RouteUpdated | RouteUpToDate

  method SyncRoute(c: Cluster<Payload, St>, s: Setting, desired: Payload)
    returns (failure: Option<Failure>, success: Option<RouteOutcome>)
    requires c.world.Valid() && s.routeKey in RightsOf(s).scope
    modifies c
    ensures Advanced(old(c.world), c.world, RightsOf(s))
    ensures CallsOn(old(c.calls), c.calls, s.routeKey)
    ensures failure.None? && success.None? ==> s.createOnly
    ensures AllQuiet(c.script) ==> OnlyAt(old(c.world).Store(), c.world.Store(), s.routeKey)
    ensures AllQuiet(c.script) && failure.None? ==>
              RouteEffect(old(c.world).Store(), c.world.Store(), s, c.script, desired)
    ensures AllQuiet(c.script) && ServesKey(c.script, s.routeKey) ==> failure.None?
  {
    failure, success := None, None;
    var existing := Read(c, s, s.routeKey);
    ghost var mid := c.world;
    if existing.Err? {
      if existing.error == NotFound {
        var made := Make(c, s, s.routeKey, desired);
        AdvancedChain(old(c.world), mid, c.world, RightsOf(s));
        if made.Err? {
          failure := Some(Creating(made.error));
        } else {
          success := Some(RouteCreated);
        }
      } else {
        failure := Some(Reading(existing.error));
      }
    } else if existing.value.res.spec != desired {
      if !s.createOnly {
        var written := Overwrite(c, s, s.routeKey, desired, existing.value.version);
        AdvancedChain(old(c.world), mid, c.world, RightsOf(s));
        if written.Err? {
          failure := Some(Updating(written.error));
        } else {
          success := Some(RouteUpdated);
        }
      }
    } else {
      success := Some(RouteUpToDate);
    }
  }

  method ReconcileRoute(c: Cluster<Payload, St>, m: Manager, s: Setting, spec: ServerSpec, z: ZtwimSpec,
                        stored: seq<Stamped>, ghost health: Health)
    returns (ok: bool)
    requires c.world.Valid() && CleanButWorkload(m.conditions, health) && ProperKeys(s)
    modifies c, m
    ensures Continued(old(c.world), c.world, old(c.calls), c.calls, s)
    ensures ok ==> Concluded(m.conditions, health, RouteDisabled(spec))
    ensures ok ==> KeepsDoneBut(old(m.conditions), m.conditions, ROUTE)
    ensures ok && RouteManaged(spec) && !s.createOnly ==> Done(m.conditions, ROUTE) || ShownTrue(stored, ROUTE)
    ensures !ok ==> Stuck(m.conditions) && Undone(m.conditions, ROUTE)
    ensures AllQuiet(c.script) ==> OnlyAt(old(c.world).Store(), c.world.Store(), s.routeKey)
    ensures AllQuiet(c.script) && ok && RouteManaged(spec) ==>
              RouteEffect(old(c.world).Store(), c.world.Store(), s, c.script, s.route(spec, z))
    ensures !RouteManaged(spec) ==> c.world == old(c.world) && c.calls == old(c.calls)
    ensures RouteManaged(spec) <==> spec.federation.Some? && spec.federation.value.managedRoute == "true"
    ensures spec.federation.Some? && spec.federation.value.managedRoute != "true" ==> Undone(m.conditions, ROUTE)
    ensures spec.federation.None? ==> m.conditions == old(m.conditions)
    ensures Obliging(c.script, s) ==> ok
  {
    if RouteManaged(spec) {
      ok := ReconcileManagedRoute(c, m, s, s.route(spec, z), stored, health);
    } else {
      ok := true;
      RecordUnmanagedRoute(m, spec, health);
    }
  }

  method ReconcileManagedRoute(c: Cluster<Payload, St>, m: Manager, s: Setting, desired: Payload, stored: seq<Stamped>,
                               ghost health: Health)
    returns (ok: bool)
    requires c.world.Valid() && CleanButWorkload(m.conditions, health) && ProperKeys(s)
    modifies c, m
    ensures Continued(old(c.world), c.world, old(c.calls), c.calls, s)
    ensures ok ==> Concluded(m.conditions, health, false) && KeepsDoneBut(old(m.conditions), m.conditions, ROUTE)
    ensures ok && !s.createOnly ==> Done(m.conditions, ROUTE) || ShownTrue(stored, ROUTE)
    ensures !ok ==> Stuck(m.conditions) && Undone(m.conditions, ROUTE)
    ensures AllQuiet(c.script) ==> OnlyAt(old(c.world).Store(), c.world.Store(), s.routeKey)
    ensures AllQuiet(c.script) && ok ==> RouteEffect(old(c.world).Store(), c.world.Store(), s, c.script, desired)
    ensures Obliging(c.script, s) ==> ok
  {
    if Obliging(c.script, s) {
      ObligingServes(c.script, s, s.routeKey);
    }
    var failure, success := SyncRoute(c, s, desired);
    OtherKey(old(c.calls), c.calls, s, s.routeKey);
    ok := RecordManagedRoute(m, failure, success, stored, health);
  }

  method FailRoute(m: Manager, failure: Failure)
    requires Keyed(m.conditions) && READY !in m.conditions
    modifies m
    ensures Stuck(m.conditions) && Undone(m.conditions, ROUTE)
  {
    assert ROUTE[0] == 'R';
    var reason := match failure
      case Reading(_) => "FederationRouteRetrievalFailed"
      case Updating(_) => "FederationRouteUpdateFailed"
      case _ => "FederationRouteCreationFailed";
    NotExempt(ROUTE);
    NotProgressing(reason);
    Fail(m, ROUTE, reason, Explained(failure));
  }

  method RouteDone(m: Manager, success: RouteOutcome, ghost health: Health)
    requires CleanButWorkload(m.conditions, health)
    modifies m
    ensures Concluded(m.conditions, health, false) && Done(m.conditions, ROUTE)
    ensures KeepsDoneBut(old(m.conditions), m.conditions, ROUTE)
  {
    assert |ROUTE| == 14 && |WORKLOAD| == 20 && |READY| == 5;
    var reason := match success
      case RouteCreated => "FederationRouteCreated"
      case RouteUpdated => "FederationRouteUpdated"
      case RouteUpToDate => "RouteAvailable";
    m.AddCondition(ROUTE, reason, "Federation route is ready", IsTrue);
  }

  ghost predicate ShownTrue(list: seq<Stamped>, t: string) {
    Find(list, t).Some? && Find(list, t).value.cond.status == IsTrue
  }

  method RecordManagedRoute(m: Manager, failure: Option<Failure>, success: Option<RouteOutcome>, stored: seq<Stamped>,
                            ghost health: Health)
    returns (ok: bool)
    requires CleanButWorkload(m.conditions, health)
    modifies m
    ensures ok <==> failure.None?
    ensures ok ==> Concluded(m.conditions, health, false) && KeepsDoneBut(old(m.conditions), m.conditions, ROUTE)
    ensures ok && success.Some? ==> Done(m.conditions, ROUTE) || ShownTrue(stored, ROUTE)
    ensures !ok ==> Stuck(m.conditions) && Undone(m.conditions, ROUTE)
  {
    ok := failure.None?;
    if failure.Some? {
      FailRoute(m, failure.value);
    } else if success.Some? {
      // An up-to-date route overwrites the condition only if it is not already shown as available.
      var shown := Find(stored, ROUTE);
      if !success.value.RouteUpToDate? || shown.None? || shown.value.cond.status != IsTrue {
        RouteDone(m, success.value, health);
      }
    }
  }

  method RecordUnmanagedRoute(m: Manager, spec: ServerSpec, ghost health: Health)
    requires CleanButWorkload(m.conditions, health)
    requires !RouteManaged(spec)
    modifies m
    ensures Concluded(m.conditions, health, RouteDisabled(spec))
    ensures KeepsDoneBut(old(m.conditions), m.conditions, ROUTE)
    ensures if RouteDisabled(spec) then Undone(m.conditions, ROUTE) else m.conditions == old(m.conditions)
  {
    assert ROUTE[0] == 'R' && |ROUTE| == 14 && |WORKLOAD| == 20 && |READY| == 5;
    if spec.federation.Some? {
      NotExempt(ROUTE);
      NotProgressing("FederationRouteDisabled");
      m.AddCondition(ROUTE, "FederationRouteDisabled", "Federation managed route disabled", IsFalse);
    }
  }

  // ---------- validation ----------

  const MODE := "CreateOnlyMode"
  const CONFIGURATION := "ConfigurationValid"
  const TTL_VALID := "TTLConfigurationValid"

  datatype ConfigurationProblem = BadField(field: FieldProblem) | BadProxy | BadIssuer | BadFederation

  function ProblemReason(p: ConfigurationProblem): string {
    match p
    case BadField(Affinity) => "InvalidAffinity"
    case BadField(Tolerations) => "InvalidTolerations"
    case BadField(NodeSelector) => "InvalidNodeSelector"
    case BadField(Resources) => "InvalidResources"
    case BadField(Labels) => "InvalidLabels"
    case BadProxy => "ProxyConfigurationInvalid"
    case BadIssuer => "InvalidJWTIssuerURL"
    case BadFederation => "InvalidFederationConfiguration"
  }

  /** The reasons under which they are shown. */
  lemma ProblemNames()
    ensures ProblemReason(BadField(Affinity)) == "InvalidAffinity"
    ensures ProblemReason(BadField(Tolerations)) == "InvalidTolerations"
    ensures ProblemReason(BadField(NodeSelector)) == "InvalidNodeSelector"
    ensures ProblemReason(BadField(Resources)) == "InvalidResources"
    ensures ProblemReason(BadField(Labels)) == "InvalidLabels"
  {
  }

  method FailConfiguration(m: Manager, problem: ConfigurationProblem)
    requires Keyed(m.conditions) && READY !in m.conditions
    modifies m
    ensures Stuck(m.conditions) && Undone(m.conditions, CONFIGURATION)
    ensures m.conditions[CONFIGURATION].reason == ProblemReason(problem)
  {
    NotExempt(CONFIGURATION);
    NotProgressing(ProblemReason(problem));
    Fail(m, CONFIGURATION, ProblemReason(problem), "configuration validation failed");
  }

  /** What a configuration must satisfy before any object is touched. */
  ghost predicate ConfigurationOk(s: Setting, spec: ServerSpec, trustDomain: string) {
    && s.commonProblems(spec) == [] && s.jwtOk(spec)
    && (s.env.httpProxy != "" || s.env.httpsProxy != "" ==> s.env.caConfigMap != "")
    && (spec.federation.Some? ==>
          && Federation.EndpointOk(spec.federation.value.endpoint)
          && |spec.federation.value.federatesWith| <= 50
          && Federation.EntriesOk(spec.federation.value.federatesWith, trustDomain))
  }

  ghost predicate Acceptable(s: Setting, spec: ServerSpec, trustDomain: string) {
    ConfigurationOk(s, spec, trustDomain) && Ttl.Accepted(spec.ttl)
  }

  method ValidateConfiguration(m: Manager, s: Setting, spec: ServerSpec, trustDomain: string, stored: seq<Stamped>)
    returns (ok: bool)
    requires Clean(m.conditions)
    modifies m
    ensures ok <==> ConfigurationOk(s, spec, trustDomain)
    ensures ok ==> Clean(m.conditions) && Done(m.conditions, CONFIGURATION)
    ensures ok ==> KeepsDone(old(m.conditions), m.conditions)
    ensures !ok ==> Stuck(m.conditions) && Undone(m.conditions, CONFIGURATION)
    // The reason shown is that of the first check that fails, of several bad fields the last.
    ensures !ok ==>
              m.conditions[CONFIGURATION].reason ==
                if s.commonProblems(spec) != []
                then ProblemReason(BadField(s.commonProblems(spec)[|s.commonProblems(spec)| - 1]))
                else if !s.env.ProxyConfigurationValid() then "ProxyConfigurationInvalid"
                else if !s.jwtOk(spec) then "InvalidJWTIssuerURL"
                else "InvalidFederationConfiguration"
  {
    ok := false;
    var problems := s.commonProblems(spec);
    if problems != [] {
      for i := 0 to |problems|
        invariant if i == 0 then Clean(m.conditions) else Stuck(m.conditions) && Undone(m.conditions, CONFIGURATION)
        invariant i > 0 ==> m.conditions[CONFIGURATION].reason == ProblemReason(BadField(problems[i - 1]))
      {
        FailConfiguration(m, BadField(problems[i]));
      }
      return;
    }
    assert |CONFIGURATION| == 18 && |READY| == 5;
    Good(m, CONFIGURATION, CONFIGURATION, "All configuration fields are valid");
    if !s.env.ProxyConfigurationValid() {
      FailConfiguration(m, BadProxy);
      return;
    }
    if !s.jwtOk(spec) {
      FailConfiguration(m, BadIssuer);
      return;
    }
    if spec.federation.Some? {
      var problem := Federation.Validate(spec.federation.value, trustDomain);
      if problem.Some? {
        FailConfiguration(m, BadFederation);
        return;
      }
    }
    var shown := Find(stored, CONFIGURATION);
    if shown.Some? && shown.value.cond.status == IsFalse {
      Good(m, CONFIGURATION, REASON_READY, "Configuration validation passed");
    }
    ok := true;
  }

  method HandleTtlValidation(m: Manager, spec: ServerSpec) returns (ok: bool)
    requires Clean(m.conditions)
    modifies m
    ensures ok <==> Ttl.Accepted(spec.ttl)
    ensures ok ==> Clean(m.conditions) && Done(m.conditions, TTL_VALID) && KeepsDone(old(m.conditions), m.conditions)
    ensures !ok ==> Stuck(m.conditions) && Undone(m.conditions, TTL_VALID)
    ensures ok ==>
              (m.conditions[TTL_VALID].reason == "TTLValidationWarning" <==>
                 !Ttl.Compatible(spec.ttl.ca, spec.ttl.x509) || !Ttl.Compatible(spec.ttl.ca, spec.ttl.jwt))
  {
    assert |TTL_VALID| == 21 && |READY| == 5 && |"TTLValidationWarning"| != |"TTLValidationSucceeded"|;
    var verdict := Ttl.Validate(spec.ttl);
    ok := verdict.Valid?;
    if !ok {
      NotExempt(TTL_VALID);
      NotProgressing("TTLValidationFailed");
      Fail(m, TTL_VALID, "TTLValidationFailed", verdict.error);
    } else if verdict.warnings != [] {
      Good(m, TTL_VALID, "TTLValidationWarning", "TTL configuration warnings found");
    } else {
      Good(m, TTL_VALID, "TTLValidationSucceeded", "TTL configuration is valid");
    }
  }
}
