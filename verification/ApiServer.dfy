/** The API server the operator talks to: a versioned object store shared with other writers.
    Every call first lets the others write, then reads a possibly stale view, is refused, takes
    effect, or takes effect while its reply is lost. */
module ApiServer {
  import opened Wrappers

  datatype Kind =
    | SpireServer | Ztwim | ServiceAccount | Service | ClusterRole | ClusterRoleBinding | Role
    | RoleBinding | ValidatingWebhook | ConfigMap | StatefulSet | Route

  datatype Key = Key(kind: Kind, namespace: string, name: string)

  datatype Error = NotFound | AlreadyExists | Conflict | Other(text: string)

  /** `spec` is everything a plain write sets, `status` what the status subresource sets. */
  datatype Resource<S, T> = Resource(spec: S, status: T)
  datatype Stored<S, T> = Stored(res: Resource<S, T>, version: nat)
  type Store<S, T> = map<Key, Stored<S, T>>

  datatype Writer = Operator | Others

  /** Entry i of the log says who wrote which key to turn view i of the store into view i + 1. */
  datatype Commit = Commit(author: Writer, key: Key)

  datatype Move<S, T> = Put(key: Key, res: Resource<S, T>) | Remove(key: Key)

  /** What becomes of one call: served (reads see the store as it was `lag` commits ago),
      refused, or carried out with the reply lost on the way back. */
  datatype Fate = Served(lag: nat) | Refused(error: Error) | Unseen(text: string)

  /** `admit` is what admission and defaulting make of a written spec. */
  datatype Turn<!S, T> = Turn(others: seq<Move<S, T>>, fate: Fate, admit: S -> S)

  datatype Verb = Get | Create | Update | UpdateStatus
  datatype Call = Call(verb: Verb, key: Key, error: Option<Error>)

  /** A call as the server sees it: the n-th one, and what it asks for. */
  datatype Request = Request(n: nat, verb: Verb, key: Key)

  /** The state of the server: all views of the store so far, the log between them, and what every
      version was issued for. */
  datatype World<S, T> = World(views: seq<Store<S, T>>, log: seq<Commit>,
                               issued: map<(Key, nat), Resource<S, T>>, nextVersion: nat)
  {
    function Store(): Store<S, T>
      requires |views| > 0
    {
      views[|views| - 1]
    }

    ghost predicate Valid() {
      && |views| == |log| + 1
      && AllKnown(views, issued)
      && (forall p :: p in issued ==> p.1 < nextVersion)
    }

    function WithPut(author: Writer, key: Key, res: Resource<S, T>): World<S, T>
      requires |views| > 0
    {
      World(views + [Store()[key := Stored(res, nextVersion)]], log + [Commit(author, key)],
            issued[(key, nextVersion) := res], nextVersion + 1)
    }

    function WithRemove(author: Writer, key: Key): World<S, T>
      requires |views| > 0
    {
      World(views + [Store() - {key}], log + [Commit(author, key)], issued, nextVersion)
    }
  }

  /** The reply to a call; `lost` when the call took effect but its reply never arrived. */
  datatype Answer<S, T> = Answer(world: World<S, T>, reply: Result<Stored<S, T>, Error>, lost: bool)

  function AfterOthers<S, T>(w: World<S, T>, moves: seq<Move<S, T>>): (r: World<S, T>)
    requires |w.views| > 0
    ensures |r.views| > 0
  {
    if moves == [] then w
    else
      var before := AfterOthers(w, moves[..|moves| - 1]);
      match moves[|moves| - 1]
      case Put(key, res) => before.WithPut(Others, key, res)
      case Remove(key) => before.WithRemove(Others, key)
  }

  function GetAnswer<S, T>(w: World<S, T>, turn: Turn<S, T>, key: Key): Answer<S, T>
    requires |w.views| > 0
  {
    var now := AfterOthers(w, turn.others);
    var view := now.views[if turn.fate.Served? && turn.fate.lag < |now.views|
                          then |now.views| - 1 - turn.fate.lag else 0];
    Answer(now,
           match turn.fate
           case Refused(error) => Err(error)
           case Unseen(text) => Err(Other(text))
           case Served(_) => if key in view then Ok(view[key]) else Err(NotFound),
           false)
  }

  function CreateAnswer<S, T>(w: World<S, T>, turn: Turn<S, T>, key: Key, res: Resource<S, T>): Answer<S, T>
    requires |w.views| > 0
  {
    var now := AfterOthers(w, turn.others);
    if turn.fate.Refused? then Answer(now, Err(turn.fate.error), false)
    else if key in now.Store() then
      Answer(now, Err(if turn.fate.Unseen? then Other(turn.fate.text) else AlreadyExists), false)
    else
      Committed(now, key, Resource(turn.admit(res.spec), res.status), turn.fate)
  }

  /** A plain write sets the spec and keeps the stored status; a write to the status subresource
      sets the status and keeps whatever spec is stored. Both refuse a version that is not current. */
  function WriteAnswer<S, T>(w: World<S, T>, turn: Turn<S, T>, verb: Verb, key: Key, res: Resource<S, T>,
                             version: nat): Answer<S, T>
    requires |w.views| > 0
  {
    var now := AfterOthers(w, turn.others);
    if turn.fate.Refused? then Answer(now, Err(turn.fate.error), false)
    else if key !in now.Store() || now.Store()[key].version != version then
      Answer(now, Err(if turn.fate.Unseen? then Other(turn.fate.text)
                      else if key !in now.Store() then NotFound else Conflict), false)
    else
      Committed(now, key, Written(verb, now.Store()[key].res, res, turn.admit), turn.fate)
  }

  function Committed<S, T>(w: World<S, T>, key: Key, res: Resource<S, T>, fate: Fate): Answer<S, T>
    requires |w.views| > 0 && !fate.Refused?
  {
    var done := w.WithPut(Operator, key, res);
    Answer(done, if fate.Unseen? then Err(Other(fate.text)) else Ok(done.Store()[key]), fate.Unseen?)
  }

  function Written<S, T>(verb: Verb, stored: Resource<S, T>, sent: Resource<S, T>, admit: S -> S): Resource<S, T> {
    if verb == Verb.UpdateStatus then stored.(status := sent.status) else stored.(spec := admit(sent.spec))
  }

  // ---------- what holds of every call ----------

  ghost predicate SameAt<S, T>(a: Store<S, T>, b: Store<S, T>, k: Key) {
    (k in a <==> k in b) && (k in a ==> a[k] == b[k])
  }

  /** Every entry of the view is the one its version was issued for. */
  ghost predicate Known<S, T>(view: Store<S, T>, issued: map<(Key, nat), Resource<S, T>>) {
    forall k :: k in view ==> (k, view[k].version) in issued && issued[(k, view[k].version)] == view[k].res
  }

  ghost predicate AllKnown<S, T>(views: seq<Store<S, T>>, issued: map<(Key, nat), Resource<S, T>>) {
    views == [] || (Known(views[|views| - 1], issued) && AllKnown(views[..|views| - 1], issued))
  }

  lemma {:induction false} IssuingKeepsKnown<S, T>(views: seq<Store<S, T>>, issued: map<(Key, nat), Resource<S, T>>,
                                                   stamp: (Key, nat), res: Resource<S, T>)
    requires AllKnown(views, issued) && stamp !in issued
    ensures AllKnown(views, issued[stamp := res])
  {
    if views != [] {
      IssuingKeepsKnown(views[..|views| - 1], issued, stamp, res);
    }
  }

  lemma {:induction false} KnownAt<S, T>(views: seq<Store<S, T>>, issued: map<(Key, nat), Resource<S, T>>, i: nat)
    requires AllKnown(views, issued) && i < |views|
    ensures Known(views[i], issued)
  {
    if i < |views| - 1 {
      KnownAt(views[..|views| - 1], issued, i);
    }
  }

  lemma ValidPut<S, T>(w: World<S, T>, author: Writer, key: Key, res: Resource<S, T>)
    requires w.Valid()
    ensures w.WithPut(author, key, res).Valid()
  {
    var after := w.WithPut(author, key, res);
    IssuingKeepsKnown(w.views, w.issued, (key, w.nextVersion), res);
    assert after.views[..|w.views|] == w.views;
  }

  lemma ValidRemove<S, T>(w: World<S, T>, author: Writer, key: Key)
    requires w.Valid()
    ensures w.WithRemove(author, key).Valid()
  {
    assert w.WithRemove(author, key).views[..|w.views|] == w.views;
  }

  /** A later world: nothing of the past is rewritten, and every commit since is by the others. */
  ghost predicate OnlyOthersSince<S, T>(w: World<S, T>, later: World<S, T>) {
    && later.Valid() && w.log <= later.log && w.views <= later.views
    && forall i :: |w.log| <= i < |later.log| ==> later.log[i].author == Others
  }

  lemma {:induction false} AfterOthersFacts<S, T>(w: World<S, T>, moves: seq<Move<S, T>>)
    requires w.Valid()
    ensures OnlyOthersSince(w, AfterOthers(w, moves))
  {
    if moves != [] {
      AfterOthersFacts(w, moves[..|moves| - 1]);
      var before := AfterOthers(w, moves[..|moves| - 1]);
      match moves[|moves| - 1] {
        case Put(key, res) => ValidPut(before, Others, key, res);
        case Remove(key) => ValidRemove(before, Others, key);
      }
    }
  }

  /** Other writers may put or remove any object, */
  lemma OthersAct<S, T>(w: World<S, T>, key: Key, res: Resource<S, T>)
    requires |w.views| > 0
    ensures var put, removed := AfterOthers(w, [Put(key, res)]).Store(), AfterOthers(w, [Remove(key)]).Store();
            && key in put && put[key].res == res && put[key].version == w.nextVersion
            && key !in removed
            && forall k :: k != key ==> SameAt(w.Store(), put, k) && SameAt(w.Store(), removed, k)
  {
    assert AfterOthers(w, [Put(key, res)]) == w.WithPut(Others, key, res);
    assert AfterOthers(w, [Remove(key)]) == w.WithRemove(Others, key);
  }

  /** and one after the other as many as they like. */
  lemma {:induction false} OthersCompose<S, T>(w: World<S, T>, xs: seq<Move<S, T>>, ys: seq<Move<S, T>>)
    requires |w.views| > 0
    ensures AfterOthers(w, xs + ys) == AfterOthers(AfterOthers(w, xs), ys)
  {
    if ys == [] {
      assert xs + ys == xs;
    } else {
      OthersCompose(w, xs, ys[..|ys| - 1]);
      assert (xs + ys)[..|xs + ys| - 1] == xs + ys[..|ys| - 1];
    }
  }

  /** Versions identify objects: two views that give a key one version agree on its object. */
  lemma SameVersionSameObject<S, T>(w: World<S, T>, i: nat, j: nat, key: Key)
    requires w.Valid() && i < |w.views| && j < |w.views|
    requires key in w.views[i] && key in w.views[j] && w.views[i][key].version == w.views[j][key].version
    ensures w.views[i][key] == w.views[j][key]
  {
    KnownAt(w.views, w.issued, i);
    KnownAt(w.views, w.issued, j);
  }

  /** Between two worlds the operator committed once, last and at `key`, or not at all. */
  ghost predicate OwnWrite<S, T>(w: World<S, T>, later: World<S, T>, key: Key, committed: bool) {
    && later.Valid() && w.log <= later.log && w.views <= later.views
    && (forall i :: |w.log| <= i < |later.log| && later.log[i].author == Operator ==>
          i == |later.log| - 1 && later.log[i].key == key)
    && (committed <==> |w.log| < |later.log| && later.log[|later.log| - 1].author == Operator)
  }

  lemma OwnWriteChain<S, T>(w: World<S, T>, mid: World<S, T>, later: World<S, T>, key: Key, committed: bool)
    requires w.Valid() && OwnWrite(w, mid, key, false) && OwnWrite(mid, later, key, committed)
    ensures OwnWrite(w, later, key, committed)
  {
  }

  /** The last commit replaced what was stored at `key` under `version`, changing only what `verb` writes. */
  ghost predicate Replaced<S, T>(w: World<S, T>, verb: Verb, key: Key, version: nat,
                                 res: Resource<S, T>, admit: S -> S)
  {
    && |w.views| > 1
    && var before, after := w.views[|w.views| - 2], w.views[|w.views| - 1];
    && key in before && before[key].version == version
    && key in after && after == before[key := after[key]]
    && after[key].res == Written(verb, before[key].res, res, admit)
  }

  lemma CommittedFacts<S, T>(w: World<S, T>, key: Key, res: Resource<S, T>, fate: Fate)
    requires w.Valid() && !fate.Refused?
    ensures var a := Committed(w, key, res, fate);
            && OwnWrite(w, a.world, key, true) && a.world.views == w.views + [a.world.Store()]
            && key in a.world.Store() && a.world.Store() == w.Store()[key := a.world.Store()[key]]
            && a.world.Store()[key].res == res
            && (a.reply.Ok? ==> !a.lost && a.reply.value == a.world.Store()[key])
            && (a.reply.Err? ==> a.lost && a.reply.error.Other?)
  {
    ValidPut(w, Operator, key, res);
  }

  lemma GetFacts<S, T>(w: World<S, T>, turn: Turn<S, T>, key: Key)
    requires w.Valid()
    ensures var a := GetAnswer(w, turn, key);
            && OnlyOthersSince(w, a.world) && OwnWrite(w, a.world, key, false)
            && (a.reply.Ok? ==> exists i :: 0 <= i < |a.world.views| && key in a.world.views[i]
                                            && a.world.views[i][key] == a.reply.value)
  {
    AfterOthersFacts(w, turn.others);
  }

  lemma CreateFacts<S, T>(w: World<S, T>, turn: Turn<S, T>, key: Key, res: Resource<S, T>)
    requires w.Valid()
    ensures var a := CreateAnswer(w, turn, key, res);
            && OwnWrite(w, a.world, key, a.reply.Ok? || a.lost)
            && (a.reply.Ok? || a.lost ==>
                  && var before, after := a.world.views[|a.world.views| - 2], a.world.Store();
                  && key !in before && key in after && after == before[key := after[key]]
                  && after[key].res == Resource(turn.admit(res.spec), res.status)
                  && (a.reply.Ok? ==> after[key] == a.reply.value))
  {
    AfterOthersFacts(w, turn.others);
    var now := AfterOthers(w, turn.others);
    if !turn.fate.Refused? && key !in now.Store() {
      CommittedFacts(now, key, Resource(turn.admit(res.spec), res.status), turn.fate);
    }
  }

  lemma WriteFacts<S, T>(w: World<S, T>, turn: Turn<S, T>, verb: Verb, key: Key, res: Resource<S, T>, version: nat)
    requires w.Valid()
    ensures var a := WriteAnswer(w, turn, verb, key, res, version);
            && OwnWrite(w, a.world, key, a.reply.Ok? || a.lost)
            && (a.reply.Ok? || a.lost ==> Replaced(a.world, verb, key, version, res, turn.admit))
            && (a.reply.Ok? ==> key in a.world.Store() && a.world.Store()[key] == a.reply.value)
            && (a.lost ==> a.reply.Err? && a.reply.error.Other?)
  {
    AfterOthersFacts(w, turn.others);
    var now := AfterOthers(w, turn.others);
    OthersThenNothing(w, now, key);
    if !turn.fate.Refused? && key in now.Store() && now.Store()[key].version == version {
      var written := Written(verb, now.Store()[key].res, res, turn.admit);
      var a := Committed(now, key, written, turn.fate);
      CommittedFacts(now, key, written, turn.fate);
      OwnWriteChain(w, now, a.world, key, true);
      CommitReplaces(now, verb, key, res, turn.admit, turn.fate);
    }
  }

  lemma CommitReplaces<S, T>(w: World<S, T>, verb: Verb, key: Key, res: Resource<S, T>, admit: S -> S, fate: Fate)
    requires w.Valid() && key in w.Store() && !fate.Refused?
    ensures var done := Committed(w, key, Written(verb, w.Store()[key].res, res, admit), fate).world;
            Replaced(done, verb, key, w.Store()[key].version, res, admit)
  {
    CommittedFacts(w, key, Written(verb, w.Store()[key].res, res, admit), fate);
  }

  lemma OthersThenNothing<S, T>(w: World<S, T>, now: World<S, T>, key: Key)
    requires OnlyOthersSince(w, now)
    ensures OwnWrite(w, now, key, false)
  {
  }

  /** Why a call that is served fails: a create because the object exists, a write because it does not or
      because its version is not the current one. */
  lemma ServedErrors<S, T>(w: World<S, T>, turn: Turn<S, T>, verb: Verb, key: Key, res: Resource<S, T>, version: nat)
    requires |w.views| > 0 && turn.fate.Served?
    ensures var store := AfterOthers(w, turn.others).Store();
            && (CreateAnswer(w, turn, key, res).reply == Err(AlreadyExists) <==> key in store)
            && (WriteAnswer(w, turn, verb, key, res, version).reply == Err(NotFound) <==> key !in store)
            && (WriteAnswer(w, turn, verb, key, res, version).reply == Err(Conflict) <==>
                  key in store && store[key].version != version)
  {
  }

  /** No other writer acts and reads are up to date. */
  ghost predicate Quiet<S, T>(t: Turn<S, T>) {
    t.others == [] && (t.fate.Served? ==> t.fate.lag == 0)
  }

  ghost predicate AllQuiet<S(!new), T(!new)>(script: Request -> Turn<S, T>) {
    forall q :: Quiet(script(q))
  }

  /** The stores differ at most at `key`. */
  ghost predicate OnlyAt<S, T>(a: Store<S, T>, b: Store<S, T>, key: Key) {
    forall k :: k != key ==> SameAt(a, b, k)
  }

  /** A write that is answered with success gives its object a version it did not have. */
  lemma WritesRenew<S, T>(w: World<S, T>, turn: Turn<S, T>, verb: Verb, key: Key, res: Resource<S, T>, version: nat)
    requires w.Valid() && Quiet(turn)
    ensures var a := WriteAnswer(w, turn, verb, key, res, version);
            a.reply.Ok? ==> key in w.Store() && a.reply.value.version != w.Store()[key].version
  {
    assert AfterOthers(w, turn.others) == w;
    KnownAt(w.views, w.issued, |w.views| - 1);
  }

  /** Under a quiet turn that is served, a create succeeds where nothing is stored, and a write of the
      current version succeeds. */
  lemma ServedFacts<S, T>(w: World<S, T>, turn: Turn<S, T>, verb: Verb, key: Key, res: Resource<S, T>)
    requires w.Valid() && Quiet(turn) && turn.fate.Served?
    ensures GetAnswer(w, turn, key).reply == if key in w.Store() then Ok(w.Store()[key]) else Err(NotFound)
    ensures if key in w.Store() then CreateAnswer(w, turn, key, res).reply == Err(AlreadyExists)
            else CreateAnswer(w, turn, key, res).reply.Ok?
    ensures key in w.Store() ==> WriteAnswer(w, turn, verb, key, res, w.Store()[key].version).reply.Ok?
  {
    assert AfterOthers(w, turn.others) == w;
  }

  /** What a write does to a store that nobody else writes: only its key changes, and a status write
      leaves the spec there alone. */
  ghost predicate OwnEffect<S, T>(verb: Verb, a: Store<S, T>, b: Store<S, T>, key: Key) {
    OnlyAt(a, b, key) && (verb == Verb.UpdateStatus ==> SpecKept(a, b, key))
  }

  ghost predicate SpecKept<S, T>(a: Store<S, T>, b: Store<S, T>, key: Key) {
    (key in a <==> key in b) && (key in a ==> a[key].res.spec == b[key].res.spec)
  }

  lemma OwnEffectChain<S, T>(verb: Verb, a: Store<S, T>, b: Store<S, T>, c: Store<S, T>, key: Key)
    requires OwnEffect(verb, a, b, key) && OwnEffect(verb, b, c, key)
    ensures OwnEffect(verb, a, c, key)
  {
    forall k | k != key ensures SameAt(a, c, k) {
      assert SameAt(a, b, k) && SameAt(b, c, k);
    }
  }

  lemma QuietFacts<S, T>(w: World<S, T>, turn: Turn<S, T>, key: Key, res: Resource<S, T>, verb: Verb, version: nat)
    requires w.Valid() && Quiet(turn)
    ensures var a := GetAnswer(w, turn, key);
            a.world == w && (a.reply.Ok? ==> key in w.Store() && a.reply.value == w.Store()[key])
    ensures var a := CreateAnswer(w, turn, key, res);
            |a.world.views| > 0 && OnlyAt(w.Store(), a.world.Store(), key)
            && (key in w.Store() ==> a.reply.Err? && SameAt(w.Store(), a.world.Store(), key))
            && (a.reply == Err(AlreadyExists) ==> SameAt(w.Store(), a.world.Store(), key))
            && (a.reply == Err(AlreadyExists) && turn.fate != Refused(AlreadyExists) ==> key in w.Store())
    ensures var a := WriteAnswer(w, turn, verb, key, res, version);
            |a.world.views| > 0 && OwnEffect(verb, w.Store(), a.world.Store(), key)
  {
    assert AfterOthers(w, turn.others) == w;
  }

  /** The server as the client sees it: one shared world, a trace of the operator's calls, and a
      script that decides what becomes of each of them. */
  class Cluster<S(==,!new), T(==,!new)> {
    const script: Request -> Turn<S, T>
    var world: World<S, T>
    var calls: seq<Call>

    constructor (world: World<S, T>, script: Request -> Turn<S, T>)
      ensures this.world == world && this.script == script && calls == []
    {
      this.world, this.script, calls := world, script, [];
    }

    method Get(key: Key) returns (r: Result<Stored<S, T>, Error>)
      requires world.Valid()
      modifies this
      ensures world == GetAnswer(old(world), script(Request(|old(calls)|, Verb.Get, key)), key).world
      ensures r == GetAnswer(old(world), script(Request(|old(calls)|, Verb.Get, key)), key).reply
      ensures calls == old(calls) + [Call(Verb.Get, key, if r.Err? then Some(r.error) else None)]
    {
      var a := GetAnswer(world, script(Request(|calls|, Verb.Get, key)), key);
      r := a.reply;
      world, calls := a.world, calls + [Call(Verb.Get, key, if r.Err? then Some(r.error) else None)];
    }

    method Create(key: Key, res: Resource<S, T>) returns (r: Result<Stored<S, T>, Error>)
      requires world.Valid()
      modifies this
      ensures world == CreateAnswer(old(world), script(Request(|old(calls)|, Verb.Create, key)), key, res).world
      ensures r == CreateAnswer(old(world), script(Request(|old(calls)|, Verb.Create, key)), key, res).reply
      ensures calls == old(calls) + [Call(Verb.Create, key, if r.Err? then Some(r.error) else None)]
    {
      var a := CreateAnswer(world, script(Request(|calls|, Verb.Create, key)), key, res);
      r := a.reply;
      world, calls := a.world, calls + [Call(Verb.Create, key, if r.Err? then Some(r.error) else None)];
    }

    method Write(verb: Verb, key: Key, res: Resource<S, T>, version: nat)
      returns (r: Result<Stored<S, T>, Error>, lost: bool)
      requires world.Valid()
      modifies this
      ensures Answer(world, r, lost) ==
                WriteAnswer(old(world), script(Request(|old(calls)|, verb, key)), verb, key, res, version)
      ensures calls == old(calls) + [Call(verb, key, if r.Err? then Some(r.error) else None)]
    {
      var a := WriteAnswer(world, script(Request(|calls|, verb, key)), verb, key, res, version);
      r, lost := a.reply, a.lost;
      world, calls := a.world, calls + [Call(verb, key, if r.Err? then Some(r.error) else None)];
    }
  }
}

/** The retry helpers of the operator's client: re-read the version, stamp it on the caller's
    object, write, and try again only after a conflict. */
module RetryClient {
  import opened Wrappers
  import opened ApiServer

  const RETRY_STEPS: nat := 5

  /** What a finished round, or a finished helper, has done to the world: at most one commit and
      nothing after it; if it committed, it replaced exactly the object it had just read. */
  ghost predicate Outcome<S, T>(w: World<S, T>, later: World<S, T>, verb: Verb, key: Key, res: Resource<S, T>,
                                admit: S -> S, r: Result<Stored<S, T>, Error>, lost: bool, read: Option<Stored<S, T>>)
  {
    && OwnWrite(w, later, key, r.Ok? || lost)
    && (r.Ok? || lost ==>
          && read.Some? && Replaced(later, verb, key, read.value.version, res, admit)
          && later.views[|later.views| - 2][key] == read.value)
    && (r.Ok? ==> key in later.Store() && later.Store()[key] == r.value)
    && (lost ==> r.Err? && r.error.Other?)
  }

  lemma LaterOutcome<S, T>(w: World<S, T>, mid: World<S, T>, later: World<S, T>, verb: Verb, key: Key,
                           res: Resource<S, T>, admit: S -> S, r: Result<Stored<S, T>, Error>, lost: bool,
                           read: Option<Stored<S, T>>)
    requires w.Valid() && OwnWrite(w, mid, key, false)
    requires Outcome(mid, later, verb, key, res, admit, r, lost, read)
    ensures Outcome(w, later, verb, key, res, admit, r, lost, read)
  {
    OwnWriteChain(w, mid, later, key, r.Ok? || lost);
  }

  lemma RoundOutcome<S, T>(w: World<S, T>, mid: World<S, T>, seen: nat, turn: Turn<S, T>, verb: Verb, key: Key,
                           res: Resource<S, T>)
    requires w.Valid() && OwnWrite(w, mid, key, false)
    requires seen < |mid.views| && key in mid.views[seen]
    ensures var read := mid.views[seen][key];
            var a := WriteAnswer(mid, turn, verb, key, res, read.version);
            Outcome(w, a.world, verb, key, res, turn.admit, a.reply, a.lost, Some(read))
  {
    var read := mid.views[seen][key];
    var a := WriteAnswer(mid, turn, verb, key, res, read.version);
    WriteFacts(mid, turn, verb, key, res, read.version);
    OutcomeFrom(w, mid, a.world, seen, verb, key, res, turn.admit, a.reply, a.lost);
  }

  lemma OutcomeFrom<S, T>(w: World<S, T>, mid: World<S, T>, later: World<S, T>, seen: nat, verb: Verb, key: Key,
                          res: Resource<S, T>, admit: S -> S, r: Result<Stored<S, T>, Error>, lost: bool)
    requires w.Valid() && OwnWrite(w, mid, key, false) && OwnWrite(mid, later, key, r.Ok? || lost)
    requires seen < |mid.views| && key in mid.views[seen]
    requires r.Ok? || lost ==> Replaced(later, verb, key, mid.views[seen][key].version, res, admit)
    requires r.Ok? ==> key in later.Store() && later.Store()[key] == r.value
    requires lost ==> r.Err? && r.error.Other?
    ensures Outcome(w, later, verb, key, res, admit, r, lost, Some(mid.views[seen][key]))
  {
    OwnWriteChain(w, mid, later, key, r.Ok? || lost);
    if r.Ok? || lost {
      ReadIsReplaced(mid, later, seen, key);
    }
  }

  lemma ReadIsReplaced<S, T>(mid: World<S, T>, later: World<S, T>, seen: nat, key: Key)
    requires later.Valid() && mid.views <= later.views && |later.views| > 1
    requires seen < |mid.views| && key in mid.views[seen] && key in later.views[|later.views| - 2]
    requires later.views[|later.views| - 2][key].version == mid.views[seen][key].version
    ensures later.views[|later.views| - 2][key] == mid.views[seen][key]
  {
    assert later.views[seen] == mid.views[seen];
    SameVersionSameObject(later, seen, |later.views| - 2, key);
  }

  /** Since the trace `calls`, only calls on `key` were made. */
  ghost predicate CallsOn(calls: seq<Call>, later: seq<Call>, key: Key) {
    calls <= later && forall i :: |calls| <= i < |later| ==> later[i].key == key
  }

  /** Since the trace `calls`, only the last call failed, other than with an error in `again`, and with what
      is returned. */
  ghost predicate RetriedOn<S, T>(calls: seq<Call>, now: seq<Call>, r: Result<Stored<S, T>, Error>, again: set<Error>) {
    && |calls| < |now|
    && now[|now| - 1].error == (if r.Err? then Some(r.error) else None)
    && forall i :: |calls| <= i < |now| - 1 ==> now[i].error == None || now[i].error.value in again
  }

  datatype Round<S, T> = Round(answer: Answer<S, T>, read: Option<Stored<S, T>>, made: nat)

  /** One round: read the current version, then write the caller's object at that version. */
  function RoundAnswer<S, T>(w: World<S, T>, script: Request -> Turn<S, T>, at: nat, verb: Verb, key: Key,
                             res: Resource<S, T>): Round<S, T>
    requires w.Valid()
  {
    var got := GetAnswer(w, script(Request(at, Verb.Get, key)), key);
    GetFacts(w, script(Request(at, Verb.Get, key)), key);
    if got.reply.Err? then Round(got, None, 1)
    else
      var found := got.reply.value;
      Round(WriteAnswer(got.world, script(Request(at + 1, verb, key)), verb, key, res, found.version), Some(found), 2)
  }

  lemma RoundFacts<S, T>(w: World<S, T>, script: Request -> Turn<S, T>, at: nat, verb: Verb, key: Key,
                         res: Resource<S, T>)
    requires w.Valid()
    ensures var round := RoundAnswer(w, script, at, verb, key, res);
            Outcome(w, round.answer.world, verb, key, res, script(Request(at + round.made - 1, verb, key)).admit,
                    round.answer.reply, round.answer.lost, round.read)
  {
    GetFacts(w, script(Request(at, Verb.Get, key)), key);
    var got := GetAnswer(w, script(Request(at, Verb.Get, key)), key);
    if got.reply.Ok? {
      var seen :| 0 <= seen < |got.world.views| && key in got.world.views[seen]
                  && got.world.views[seen][key] == got.reply.value;
      RoundOutcome(w, got.world, seen, script(Request(at + 1, verb, key)), verb, key, res);
    }
  }

  lemma QuietRound<S(!new), T(!new)>(w: World<S, T>, script: Request -> Turn<S, T>, at: nat, verb: Verb, key: Key,
                                     res: Resource<S, T>)
    requires w.Valid() && AllQuiet(script)
    ensures var later := RoundAnswer(w, script, at, verb, key, res).answer.world;
            |later.views| > 0 && OwnEffect(verb, w.Store(), later.Store(), key)
  {
    QuietFacts(w, script(Request(at, Verb.Get, key)), key, res, verb, 0);
    var got := GetAnswer(w, script(Request(at, Verb.Get, key)), key);
    if got.reply.Ok? {
      QuietFacts(w, script(Request(at + 1, verb, key)), key, res, verb, got.reply.value.version);
    }
  }

  /** A round read up to date, after whatever others wrote, and then written undisturbed. */
  ghost predicate FreshRound<S, T>(w: World<S, T>, script: Request -> Turn<S, T>, at: nat, verb: Verb, key: Key)
    requires |w.views| > 0
  {
    && script(Request(at, Verb.Get, key)).fate == Served(0)
    && script(Request(at + 1, verb, key)).others == [] && script(Request(at + 1, verb, key)).fate.Served?
    && key in AfterOthers(w, script(Request(at, Verb.Get, key)).others).Store()
  }

  /** Because each round restamps the caller's object with the version it finds, an edit made by
      others after the caller built the object never surfaces as a conflict: a fresh, undisturbed
      round always succeeds. A status write leaves that edit in place, a plain write overwrites it. */
  lemma RestampingNeverConflicts<S, T>(w: World<S, T>, script: Request -> Turn<S, T>, at: nat, verb: Verb, key: Key,
                                       res: Resource<S, T>)
    requires w.Valid() && FreshRound(w, script, at, verb, key)
    ensures var edited := AfterOthers(w, script(Request(at, Verb.Get, key)).others).Store()[key];
            var round := RoundAnswer(w, script, at, verb, key, res);
            var admit := script(Request(at + 1, verb, key)).admit;
            && round.answer.reply.Ok?
            && round.answer.world.Store()[key].res == Written(verb, edited.res, res, admit)
            && (verb == Verb.UpdateStatus ==> round.answer.world.Store()[key].res.spec == edited.res.spec)
            && (verb == Verb.Update ==> round.answer.world.Store()[key].res.spec == admit(res.spec))
  {
    AfterOthersFacts(w, script(Request(at, Verb.Get, key)).others);
    var now := AfterOthers(w, script(Request(at, Verb.Get, key)).others);
    assert GetAnswer(w, script(Request(at, Verb.Get, key)), key).reply == Ok(now.Store()[key]);
    WriteFacts(now, script(Request(at + 1, verb, key)), verb, key, res, now.Store()[key].version);
  }

  method Attempt<S(==,!new), T(==,!new)>(c: Cluster<S, T>, verb: Verb, key: Key, res: Resource<S, T>)
    returns (r: Result<Stored<S, T>, Error>, lost: bool, read: Option<Stored<S, T>>)
    requires c.world.Valid()
    modifies c
    ensures CallsOn(old(c.calls), c.calls, key) && RetriedOn(old(c.calls), c.calls, r, {})
    ensures Round(Answer(c.world, r, lost), read, |c.calls| - |old(c.calls)|) ==
              RoundAnswer(old(c.world), c.script, |old(c.calls)|, verb, key, res)
  {
    GetFacts(c.world, c.script(Request(|c.calls|, Verb.Get, key)), key);
    lost, read := false, None;
    var current := c.Get(key);
    if current.Err? {
      r := Err(current.error);
    } else {
      read := Some(current.value);
      r, lost := c.Write(verb, key, res, current.value.version);
    }
  }

  /** A round of a helper that began in world `start` and has committed nothing yet. */
  method NextAttempt<S(==,!new), T(==,!new)>(c: Cluster<S, T>, verb: Verb, key: Key, res: Resource<S, T>,
                                             ghost start: World<S, T>)
    returns (r: Result<Stored<S, T>, Error>, lost: bool, read: Option<Stored<S, T>>)
    requires start.Valid() && OwnWrite(start, c.world, key, false)
    requires AllQuiet(c.script) ==> OwnEffect(verb, start.Store(), c.world.Store(), key)
    modifies c
    ensures CallsOn(old(c.calls), c.calls, key) && |old(c.calls)| < |c.calls| <= |old(c.calls)| + 2
    ensures RetriedOn(old(c.calls), c.calls, r, {})
    ensures Outcome(start, c.world, verb, key, res, c.script(Request(|c.calls| - 1, verb, key)).admit, r, lost, read)
    ensures AllQuiet(c.script) ==> OwnEffect(verb, start.Store(), c.world.Store(), key)
    ensures FreshRound(old(c.world), c.script, |old(c.calls)|, verb, key) ==> r.Ok?
  {
    NextFacts(start, c.world, c.script, |c.calls|, verb, key, res);
    r, lost, read := Attempt(c, verb, key, res);
  }

  lemma NextFacts<S(!new), T(!new)>(start: World<S, T>, w: World<S, T>, script: Request -> Turn<S, T>, at: nat,
                                    verb: Verb, key: Key, res: Resource<S, T>)
    requires start.Valid() && OwnWrite(start, w, key, false)
    requires AllQuiet(script) ==> OwnEffect(verb, start.Store(), w.Store(), key)
    ensures var round := RoundAnswer(w, script, at, verb, key, res);
            && Outcome(start, round.answer.world, verb, key, res, script(Request(at + round.made - 1, verb, key)).admit,
                       round.answer.reply, round.answer.lost, round.read)
            && (AllQuiet(script) ==> OwnEffect(verb, start.Store(), round.answer.world.Store(), key))
            && (FreshRound(w, script, at, verb, key) ==> round.answer.reply.Ok?)
  {
    if FreshRound(w, script, at, verb, key) {
      RestampingNeverConflicts(w, script, at, verb, key, res);
    }
    var round := RoundAnswer(w, script, at, verb, key, res);
    RoundFacts(w, script, at, verb, key, res);
    LaterOutcome(start, w, round.answer.world, verb, key, res, script(Request(at + round.made - 1, verb, key)).admit,
                 round.answer.reply, round.answer.lost, round.read);
    if AllQuiet(script) {
      QuietRound(w, script, at, verb, key, res);
      OwnEffectChain(verb, start.Store(), w.Store(), round.answer.world.Store(), key);
    }
  }

  /** UpdateWithRetry and StatusUpdateWithRetry; `verb` picks the plain or the status write. `read` is the
      last object read, whose version is then on the caller's object, written or not. */
  method WriteWithRetry<S(==,!new), T(==,!new)>(c: Cluster<S, T>, verb: Verb, key: Key, res: Resource<S, T>)
    returns (r: Result<Stored<S, T>, Error>, lost: bool, read: Option<Stored<S, T>>, attempts: nat)
    requires c.world.Valid()
    modifies c
    // The budget: at most five rounds of one read and one write each.
    ensures 1 <= attempts <= 5
    ensures CallsOn(old(c.calls), c.calls, key) && |old(c.calls)| < |c.calls| <= |old(c.calls)| + 2 * attempts
    // At most one commit, of exactly the object the last round read; none unless the call
    // succeeded or the reply to the commit was lost.
    ensures Outcome(old(c.world), c.world, verb, key, res, c.script(Request(|c.calls| - 1, verb, key)).admit,
                    r, lost, read)
    // A conflict is what is left only when every round of the budget met one.
    ensures r == Err(Conflict) ==> attempts == RETRY_STEPS
    // A round is repeated only after a conflict.
    ensures RetriedOn(old(c.calls), c.calls, r, {Conflict})
    ensures AllQuiet(c.script) ==> OwnEffect(verb, old(c.world).Store(), c.world.Store(), key)
    // A fresh first round is the only one.
    ensures FreshRound(old(c.world), c.script, |old(c.calls)|, verb, key) ==> r.Ok? && attempts == 1
  {
    attempts := 0;
    r, lost, read := Err(Conflict), false, None;
    ghost var turn := c.script(Request(0, verb, key));
    while attempts < RETRY_STEPS && r == Err(Conflict)
      invariant attempts <= RETRY_STEPS && (attempts == 0 ==> r == Err(Conflict) && !lost)
      invariant CallsOn(old(c.calls), c.calls, key) && |c.calls| <= |old(c.calls)| + 2 * attempts
      invariant attempts > 0 ==> RetriedOn(old(c.calls), c.calls, r, {Conflict})
      invariant attempts > 0 ==> turn == c.script(Request(|c.calls| - 1, verb, key))
      invariant Outcome(old(c.world), c.world, verb, key, res, turn.admit, r, lost, read)
      invariant AllQuiet(c.script) ==> OwnEffect(verb, old(c.world).Store(), c.world.Store(), key)
      invariant attempts == 0 ==> c.world == old(c.world) && c.calls == old(c.calls)
      invariant attempts > 0 && FreshRound(old(c.world), c.script, |old(c.calls)|, verb, key) ==> r.Ok? && attempts == 1
    {
      attempts := attempts + 1;
      var got;
      r, lost, got := NextAttempt(c, verb, key, res, old(c.world));
      if got.Some? {
        read := got;
      }
      turn := c.script(Request(|c.calls| - 1, verb, key));
    }
  }

  method UpdateWithRetry<S(==,!new), T(==,!new)>(c: Cluster<S, T>, key: Key, res: Resource<S, T>)
    returns (r: Result<Stored<S, T>, Error>, lost: bool, read: Option<Stored<S, T>>)
    requires c.world.Valid()
    modifies c
    ensures CallsOn(old(c.calls), c.calls, key) && |old(c.calls)| < |c.calls| <= |old(c.calls)| + 10
    ensures RetriedOn(old(c.calls), c.calls, r, {Conflict})
    ensures Outcome(old(c.world), c.world, Verb.Update, key, res,
                    c.script(Request(|c.calls| - 1, Verb.Update, key)).admit, r, lost, read)
    // Success: the store took the caller's spec, over exactly the object last read, in one commit.
    ensures r.Ok? ==>
              && key in c.world.Store() && c.world.Store()[key] == r.value && read.Some?
              && r.value.res == Resource(c.script(Request(|c.calls| - 1, Verb.Update, key)).admit(res.spec),
                                         read.value.res.status)
    // Failure whose write was not carried out unseen: every change came from the others.
    ensures r.Err? && !lost ==> OnlyOthersSince(old(c.world), c.world)
    ensures FreshRound(old(c.world), c.script, |old(c.calls)|, Verb.Update, key) ==> r.Ok?
    ensures AllQuiet(c.script) ==> OnlyAt(old(c.world).Store(), c.world.Store(), key)
  {
    var attempts;
    r, lost, read, attempts := WriteWithRetry(c, Verb.Update, key, res);
  }

  method StatusUpdateWithRetry<S(==,!new), T(==,!new)>(c: Cluster<S, T>, key: Key, res: Resource<S, T>)
    returns (r: Result<Stored<S, T>, Error>, lost: bool, read: Option<Stored<S, T>>)
    requires c.world.Valid()
    modifies c
    ensures CallsOn(old(c.calls), c.calls, key) && |old(c.calls)| < |c.calls| <= |old(c.calls)| + 10
    ensures RetriedOn(old(c.calls), c.calls, r, {Conflict})
    ensures Outcome(old(c.world), c.world, Verb.UpdateStatus, key, res,
                    c.script(Request(|c.calls| - 1, Verb.UpdateStatus, key)).admit, r, lost, read)
    // Success: the store took the caller's status next to whatever spec was stored at that moment,
    // so no concurrent edit of the spec is lost.
    ensures r.Ok? ==>
              && key in c.world.Store() && c.world.Store()[key] == r.value && read.Some?
              && r.value.res == Resource(read.value.res.spec, res.status)
              && c.world.views[|c.world.views| - 2][key].res.spec == r.value.res.spec
    ensures r.Err? && !lost ==> OnlyOthersSince(old(c.world), c.world)
    ensures FreshRound(old(c.world), c.script, |old(c.calls)|, Verb.UpdateStatus, key) ==> r.Ok?
    ensures AllQuiet(c.script) ==> OwnEffect(Verb.UpdateStatus, old(c.world).Store(), c.world.Store(), key)
  {
    var attempts;
    r, lost, read, attempts := WriteWithRetry(c, Verb.UpdateStatus, key, res);
  }
}
