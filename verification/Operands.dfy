/** The top-level controller: reads the four operand resources back, classifies and counts them, and
    derives its own Ready condition and the Upgradeable condition shown to the lifecycle manager. */
module Operands {
  import opened Wrappers
  import opened KeyedLists
  import opened Conditions
  import opened StatusManager
  import opened ApiServer
  import RetryClient

  const CR_NOT_FOUND := "CR not found"
  const WAITING_INITIAL := "Waiting for initial reconciliation"
  const RECONCILING := "Reconciling"
  const INITIAL_MESSAGE := "Reconciling ZeroTrustWorkloadIdentityManager"
  const OPERANDS_AVAILABLE := "OperandsAvailable"
  const CREATE_ONLY := "CreateOnlyMode"
  const REASON_OPERANDS_NOT_READY := "OperandsNotReady"
  const PROGRESSING_STATES: set<string> := {REASON_PROGRESSING, "NotFound", "InitialReconcile", "Reconciling"}
  const FAILED_STATES: set<string> := {REASON_FAILED, "Unhealthy"}

  datatype Class = Progressing | Failed | Ready

  /** What reading one operand resource gave. */
  datatype Read = Missing | Unreadable(text: string) | Present(conditions: seq<Stamped>)

  datatype OperandStatus = OperandStatus(kind: string, name: string, ready: string, message: string,
                                         conditions: seq<Stamped>)

  datatype Status = Status(conditions: seq<Stamped>, operands: seq<OperandStatus>)

  predicate StringToBool(s: string) {
    s == "true"
  }

  function LowerChar(c: char): char {
    if 'A' <= c <= 'Z' then c - 'A' + 'a' else c
  }

  function Lower(s: string): string {
    seq(|s|, i requires 0 <= i < |s| => LowerChar(s[i]))
  }

  predicate OccursAt(s: string, sub: string, i: nat) {
    i + |sub| <= |s| && s[i..i + |sub|] == sub
  }

  /** Case-insensitive substring test. */
  predicate Contains(s: string, sub: string) {
    exists i: nat | i <= |s| :: OccursAt(Lower(s), Lower(sub), i)
  }

  /** A text contains another if some stretch of it is the same but for the case of its letters. */
  lemma ContainsExactly(s: string, sub: string)
    ensures Contains(s, sub) <==> exists before, word, after :: s == before + word + after && SameWord(word, sub)
  {
    if i: nat :| i <= |s| && OccursAt(Lower(s), Lower(sub), i) {
      assert s == s[..i] + s[i..i + |sub|] + s[i + |sub|..];
      forall k | 0 <= k < |sub| ensures SameLetter(s[i..i + |sub|][k], sub[k]) {
        assert Lower(s)[i..i + |sub|][k] == Lower(sub)[k];
      }
      assert SameWord(s[i..i + |sub|], sub);
    }
    if before, word, after :| s == before + word + after && SameWord(word, sub) {
      WordOccurs(before, word, after, sub);
    }
  }

  lemma WordOccurs(before: string, word: string, after: string, sub: string)
    requires SameWord(word, sub)
    ensures Contains(before + word + after, sub)
  {
    var s := before + word + after;
    assert forall k :: 0 <= k < |sub| ==> s[|before| + k] == word[k];
    assert Lower(s)[|before|..|before| + |sub|] == Lower(sub);
    assert OccursAt(Lower(s), Lower(sub), |before|);
  }

  ghost predicate SameWord(word: string, sub: string) {
    |word| == |sub| && forall i :: 0 <= i < |sub| ==> SameLetter(word[i], sub[i])
  }

  predicate SameLetter(c: char, d: char) {
    c == d || ('A' <= c <= 'Z' && d as int == c as int + 32) || ('A' <= d <= 'Z' && c as int == d as int + 32)
  }

  predicate Hints(m: string) {
    Contains(m, "not found") || Contains(m, "initial") || Contains(m, "reconciling") || Contains(m, "progressing")
  }

  function Classify(operand: OperandStatus, ready: Option<Stamped>): Class {
    if StringToBool(operand.ready) then Ready
    else if ready.Some? && ready.value.cond.reason in PROGRESSING_STATES then Progressing
    else if ready.Some? && ready.value.cond.reason in FAILED_STATES then Failed
    else if ready.Some? && ready.value.cond.reason == REASON_READY then Ready
    else if operand.message == CR_NOT_FOUND || operand.message == WAITING_INITIAL || operand.message == RECONCILING
    then Progressing
    else if Hints(operand.message) then Progressing
    else Failed
  }

  /** Reasons that are known decide; otherwise the message does, by the words it contains. That the source asks
      for three whole messages first makes no difference. */
  lemma ClassifyExactly(operand: OperandStatus, ready: Option<Stamped>)
    ensures var reason := if ready.Some? then ready.value.cond.reason else "";
            match Classify(operand, ready)
            case Ready => operand.ready == "true" || reason == "Ready"
            case Progressing =>
              && operand.ready != "true"
              && (|| reason in ["Progressing", "NotFound", "InitialReconcile", "Reconciling"]
                  || (reason !in ["Failed", "Unhealthy", "Ready"] && Hints(operand.message)))
            case Failed =>
              && operand.ready != "true"
              && (|| reason in ["Failed", "Unhealthy"]
                  || (&& reason !in ["Progressing", "NotFound", "InitialReconcile", "Reconciling", "Ready"]
                      && !Hints(operand.message)))
    ensures Hints(operand.message) <==>
              || Contains(operand.message, "not found") || Contains(operand.message, "initial")
              || Contains(operand.message, "reconciling") || Contains(operand.message, "progressing")
  {
    WholeMessagesHint();
  }

  lemma WholeMessagesHint()
    ensures Hints(CR_NOT_FOUND) && Hints(WAITING_INITIAL) && Hints(RECONCILING)
  {
    MissingHints();
    InitialHints();
    ReconcilingHints();
  }

  lemma MissingHints()
    ensures Contains(CR_NOT_FOUND, "not found")
  {
    var word := "not found";
    assert SameWord(word, word);
    assert CR_NOT_FOUND == "CR " + word + "";
    WordOccurs("CR ", word, "", word);
  }

  lemma InitialHints()
    ensures Contains(WAITING_INITIAL, "initial")
  {
    var word := "initial";
    assert SameWord(word, word);
    assert WAITING_INITIAL == "Waiting for " + word + " reconciliation";
    WordOccurs("Waiting for ", word, " reconciliation", word);
  }

  lemma ReconcilingHints()
    ensures Contains(RECONCILING, "reconciling")
  {
    SameBut('R', 'r', "econciling");
    WordOccurs("", ['R'] + "econciling", "", ['r'] + "econciling");
    assert RECONCILING == "" + (['R'] + "econciling") + "" && "reconciling" == ['r'] + "econciling";
  }

  lemma SameBut(c: char, d: char, tail: string)
    requires SameLetter(c, d)
    ensures SameWord([c] + tail, [d] + tail)
  {
  }

  function ClassOf(operand: OperandStatus): Class {
    Classify(operand, Find(operand.conditions, READY))
  }

  predicate FailedOther(c: Stamped) {
    c.cond.ctype != READY && c.cond.ctype != CREATE_ONLY && c.cond.status == IsFalse
  }

  function FailedOthers(conditions: seq<Stamped>): seq<Stamped> {
    Filtered(conditions, FailedOther)
  }

  /** Of an operand that is not ready the summary keeps its Ready condition and every other False one, and
      create-only mode if it is on; of a ready one only the latter. */
  lemma KeyConditionsExactly(conditions: seq<Stamped>, isReady: bool, c: Stamped)
    ensures c in KeyConditions(conditions, isReady) <==>
              || (c.cond.status == IsTrue && Find(conditions, "CreateOnlyMode") == Some(c))
              || (!isReady && Find(conditions, "Ready") == Some(c))
              || (!isReady && c in conditions && c.cond.status == IsFalse
                  && c.cond.ctype != "Ready" && c.cond.ctype != "CreateOnlyMode")
  {
    FilteredMembers(conditions, FailedOther);
  }

  function KeyConditions(conditions: seq<Stamped>, isReady: bool): seq<Stamped> {
    var createOnly, ready := Find(conditions, CREATE_ONLY), Find(conditions, READY);
    (if createOnly.Some? && createOnly.value.cond.status == IsTrue then [createOnly.value] else []) +
    (if isReady then []
     else (if ready.Some? then [ready.value] else []) + FailedOthers(conditions))
  }

  method ExtractKeyConditions(conditions: seq<Stamped>, isReady: bool) returns (kept: seq<Stamped>)
    ensures kept == KeyConditions(conditions, isReady)
  {
    kept := [];
    var createOnly := Find(conditions, CREATE_ONLY);
    if createOnly.Some? && createOnly.value.cond.status == IsTrue {
      kept := kept + [createOnly.value];
    }
    if isReady {
      return;
    }
    var ready := Find(conditions, READY);
    if ready.Some? {
      kept := kept + [ready.value];
    }
    var others := CollectFailedOthers(conditions);
    kept := kept + others;
  }

  method CollectFailedOthers(conditions: seq<Stamped>) returns (others: seq<Stamped>)
    ensures others == FailedOthers(conditions)
  {
    others := [];
    for i := 0 to |conditions|
      invariant others == FailedOthers(conditions[..i])
    {
      assert conditions[..i + 1][..i] == conditions[..i];
      var c := conditions[i];
      if c.cond.ctype == READY || c.cond.ctype == CREATE_ONLY {
        continue;
      }
      if c.cond.status == IsFalse {
        others := others + [c];
      }
    }
    assert conditions[..|conditions|] == conditions;
  }

  function StatusOf(kind: string, read: Read): OperandStatus {
    match read
    case Missing => OperandStatus(kind, "cluster", "false", CR_NOT_FOUND, [])
    case Unreadable(text) => OperandStatus(kind, "cluster", "false", "Failed to get CR: " + text, [])
    case Present(conditions) =>
      if conditions == [] then OperandStatus(kind, "cluster", "false", WAITING_INITIAL, [])
      else
        var ready := Find(conditions, READY);
        if ready.Some? && ready.value.cond.status == IsTrue
        then OperandStatus(kind, "cluster", "true", "Ready", KeyConditions(conditions, true))
        else OperandStatus(kind, "cluster", "false",
                           if ready.Some? then ready.value.cond.message else RECONCILING,
                           KeyConditions(conditions, false))
  }

  /** What the summary of an operand says: whether it is ready, what is known of it otherwise, and the key
      conditions of a resource that has any. */
  lemma SummaryFacts(kind: string, read: Read)
    ensures var o := StatusOf(kind, read);
            var ready := if read.Present? then Find(read.conditions, "Ready") else None;
            && o.kind == kind && o.name == "cluster"
            && o.ready == (if ready.Some? && ready.value.cond.status == IsTrue then "true" else "false")
            && (o.ready == "true" ==> o.message == "Ready")
            && (o.ready == "false" && ready.Some? ==> o.message == ready.value.cond.message)
            && (ready.None? ==>
                  o.message == match read
                               case Missing => "CR not found"
                               case Unreadable(text) => "Failed to get CR: " + text
                               case Present(conditions) =>
                                 if conditions == [] then "Waiting for initial reconciliation" else "Reconciling")
            && (read.Present? ==> o.conditions == KeyConditions(read.conditions, o.ready == "true"))
            && (!read.Present? ==> o.conditions == [])
  {
    assert "true"[0] != "false"[0];
  }

  // ---------- what the operand controllers write ----------

  /** The messages a Ready condition gets from the operand controllers and the status manager. */
  ghost predicate OperatorMessage(m: string) {
    || m == ALL_READY_MESSAGE || "Failed to " <= m || "failed to " <= m || "Reconciling " <= m
    || exists c: Condition :: m == MessageOf(c)
  }

  ghost predicate ReadyAsWritten(c: Condition) {
    && c.ctype == READY
    && ((c.status == IsTrue && c.reason == REASON_READY)
        || (c.status == IsFalse && (c.reason == REASON_FAILED || c.reason == REASON_PROGRESSING)))
    && OperatorMessage(c.message)
  }

  ghost predicate AsWritten(read: Read) {
    read.Present? && read.conditions != [] ==>
      Find(read.conditions, READY).Some? && ReadyAsWritten(Find(read.conditions, READY).value.cond)
  }

  /** No Ready message the operator produces is the sentinel for a missing resource. */
  lemma NoSentinelCollision(m: string)
    requires OperatorMessage(m)
    ensures m != CR_NOT_FOUND
  {
    assert CR_NOT_FOUND[0] == 'C' && ALL_READY_MESSAGE[0] == 'A';
    assert "Failed to " <= m ==> m[0] == 'F';
    assert "failed to " <= m ==> m[0] == 'f';
    assert "Reconciling " <= m ==> m[0] == 'R';
    if c: Condition :| m == MessageOf(c) {
      assert m[|c.ctype|] == ':';
      assert forall i :: 0 <= i < |CR_NOT_FOUND| ==> CR_NOT_FOUND[i] != ':';
    }
  }

  /** A derived Ready condition is of the written form, in every iteration order. */
  lemma DerivedAsWritten(conds: map<string, Condition>, order: seq<string>)
    requires Enumerates(order, conds.Keys)
    ensures ReadyAsWritten(Derived(conds, order))
  {
    DerivedFacts(conds, order);
    var m := Derived(conds, order).message;
    if m != ALL_READY_MESSAGE {
      var t :| t in conds && m == MessageOf(conds[t]);
    }
  }

  /** Whatever an operand run leaves in the status of its resource is of the written form, when the
      Ready conditions it set by hand were. */
  method OperandRunWrites(m: Manager, stored: seq<Stamped>, now: nat) returns (applied: seq<Stamped>)
    requires Keyed(m.conditions)
    requires READY in m.conditions ==> ReadyAsWritten(m.conditions[READY])
    modifies m
    ensures AsWritten(Present(applied)) && applied != []
  {
    var changed;
    ghost var before := m.conditions;
    applied, changed := m.ApplyStatus(stored, now);
    if READY !in before {
      ghost var order :| Enumerates(order, before.Keys) && m.conditions == before[READY := Derived(before, order)];
      DerivedAsWritten(before, order);
    }
  }

  // ---------- classification ----------

  /** The state of an operand, read directly off its resource. */
  function StateOf(read: Read): Class {
    match read
    case Missing => Progressing
    case Unreadable(text) => if Hints("Failed to get CR: " + text) then Progressing else Failed
    case Present(conditions) =>
      match Find(conditions, READY)
      case None => Progressing
      case Some(c) => if c.cond.status == IsTrue then Ready
                      else if c.cond.reason == REASON_PROGRESSING then Progressing else Failed
  }

  lemma NoReadyAmongOthers(conditions: seq<Stamped>)
    ensures forall c :: c in FailedOthers(conditions) ==> c.cond.ctype != READY
  {
    FilteredMembers(conditions, FailedOther);
  }

  lemma ReadyIsKept(conditions: seq<Stamped>)
    ensures Find(KeyConditions(conditions, false), READY) == Find(conditions, READY)
  {
    NoReadyAmongOthers(conditions);
    var key, ready := KeyConditions(conditions, false), Find(conditions, READY);
    var createOnly := Find(conditions, CREATE_ONLY);
    var n := if createOnly.Some? && createOnly.value.cond.status == IsTrue then 1 else 0;
    FirstIndex(key, READY, if ready.Some? then n else |key|);
  }

  lemma ClassIsState(kind: string, read: Read)
    requires AsWritten(read)
    ensures ClassOf(StatusOf(kind, read)) == StateOf(read)
    ensures StringToBool(StatusOf(kind, read).ready) <==> StateOf(read) == Ready
    ensures StatusOf(kind, read).message == CR_NOT_FOUND <==> read.Missing?
  {
    match read {
      case Missing =>
      case Unreadable(text) =>
        var m := "Failed to get CR: " + text;
        assert m[0] == 'F';
      case Present(conditions) =>
        ReadyIsKept(conditions);
        if conditions != [] {
          NoSentinelCollision(Find(conditions, READY).value.cond.message);
        }
    }
  }

  // ---------- counting ----------

  function Count(operands: seq<OperandStatus>, p: OperandStatus -> bool): nat {
    if operands == [] then 0
    else Count(operands[..|operands| - 1], p) + (if p(operands[|operands| - 1]) then 1 else 0)
  }

  predicate IsReady(o: OperandStatus) {
    StringToBool(o.ready)
  }

  predicate Pending(o: OperandStatus) {
    !IsReady(o) && ClassOf(o) == Progressing
  }

  predicate Broken(o: OperandStatus) {
    !IsReady(o) && ClassOf(o) != Progressing
  }

  predicate Named(o: OperandStatus) {
    ClassOf(o) == Failed
  }

  /** Not ready, yet carrying a Ready condition whose reason says ready: counted as failed, never named. */
  predicate Unnamed(o: OperandStatus) {
    !IsReady(o) && ClassOf(o) == Ready
  }

  lemma {:induction false} CountSum(operands: seq<OperandStatus>, p: OperandStatus -> bool, q: OperandStatus -> bool,
                                    r: OperandStatus -> bool)
    requires forall o :: o in operands ==> (p(o) <==> q(o) || r(o)) && !(q(o) && r(o))
    ensures Count(operands, p) == Count(operands, q) + Count(operands, r)
  {
    if operands != [] {
      CountSum(operands[..|operands| - 1], p, q, r);
    }
  }

  lemma {:induction false} CountAtMost(operands: seq<OperandStatus>, p: OperandStatus -> bool)
    ensures Count(operands, p) <= |operands|
  {
    if operands != [] {
      CountAtMost(operands[..|operands| - 1], p);
    }
  }

  lemma {:induction false} CountNone(operands: seq<OperandStatus>, p: OperandStatus -> bool)
    ensures Count(operands, p) == 0 <==> forall i :: 0 <= i < |operands| ==> !p(operands[i])
  {
    if operands != [] {
      CountNone(operands[..|operands| - 1], p);
    }
  }

  lemma {:induction false} CountAllOf(operands: seq<OperandStatus>, p: OperandStatus -> bool)
    ensures Count(operands, p) == |operands| <==> forall i :: 0 <= i < |operands| ==> p(operands[i])
  {
    if operands != [] {
      CountAtMost(operands[..|operands| - 1], p);
      CountAllOf(operands[..|operands| - 1], p);
    }
  }

  lemma CountBounds(operands: seq<OperandStatus>, p: OperandStatus -> bool)
    ensures Count(operands, p) <= |operands|
    ensures Count(operands, p) == 0 <==> forall o :: o in operands ==> !p(o)
    ensures Count(operands, p) == |operands| <==> forall o :: o in operands ==> p(o)
  {
    CountAtMost(operands, p);
    CountNone(operands, p);
    CountAllOf(operands, p);
    assert forall i :: 0 <= i < |operands| ==> operands[i] in operands;
  }

  lemma {:induction false} NamesCounted(operands: seq<OperandStatus>, render: OperandStatus -> string)
    ensures |NamesOf(operands, Named, render)| == Count(operands, Named)
  {
    if operands != [] {
      NamesCounted(operands[..|operands| - 1], render);
    }
  }

  /** The classes partition any list of operands. */
  lemma Conservation(operands: seq<OperandStatus>)
    ensures Count(operands, IsReady) + Count(operands, Pending) + Count(operands, Broken) == |operands|
    ensures Count(operands, Broken) == |NamesOf(operands, Named, QualifiedName)| + Count(operands, Unnamed)
  {
    CountSum(operands, o => !IsReady(o), Pending, Broken);
    CountSum(operands, o => true, IsReady, o => !IsReady(o));
    CountBounds(operands, o => true);
    CountSum(operands, Broken, Named, Unnamed);
    NamesCounted(operands, QualifiedName);
  }

  function NamesOf(operands: seq<OperandStatus>, keep: OperandStatus -> bool, render: OperandStatus -> string)
    : seq<string>
  {
    if operands == [] then []
    else NamesOf(operands[..|operands| - 1], keep, render) +
         (if keep(operands[|operands| - 1]) then [render(operands[|operands| - 1])] else [])
  }

  /** The names are those of the operands that are kept, in their order. */
  lemma {:induction false} NamesExactly(operands: seq<OperandStatus>, keep: OperandStatus -> bool,
                                        render: OperandStatus -> string)
    ensures var kept := Filtered(operands, keep);
            |NamesOf(operands, keep, render)| == |kept|
            && forall i :: 0 <= i < |kept| ==> NamesOf(operands, keep, render)[i] == render(kept[i])
  {
    if operands != [] {
      NamesExactly(operands[..|operands| - 1], keep, render);
    }
  }

  class AggregateState {
    var allReady: bool
    var notCreatedCount: nat
    var failedCount: nat
    var anyOperandExists: bool

    constructor ()
      ensures allReady && notCreatedCount == 0 && failedCount == 0 && !anyOperandExists
    {
      allReady, notCreatedCount, failedCount, anyOperandExists := true, 0, 0, false;
    }

    method ProcessOperandStatus(operand: OperandStatus)
      modifies this
      ensures anyOperandExists == (old(anyOperandExists) || Exists(operand))
      ensures allReady == (old(allReady) && IsReady(operand))
      ensures notCreatedCount == old(notCreatedCount) + (if Pending(operand) then 1 else 0)
      ensures failedCount == old(failedCount) + (if Broken(operand) then 1 else 0)
    {
      if operand.message != CR_NOT_FOUND {
        anyOperandExists := true;
      }
      if !StringToBool(operand.ready) {
        allReady := false;
        if ClassOf(operand) == Progressing {
          notCreatedCount := notCreatedCount + 1;
        } else {
          failedCount := failedCount + 1;
        }
      }
    }
  }

  datatype Aggregate = Aggregate(operands: seq<OperandStatus>, allReady: bool, notCreated: nat, failed: nat,
                                 anyExists: bool)

  /** Counting over any list of operands loses and invents none. */
  method AggregateOperandStatus(operands: seq<OperandStatus>) returns (a: Aggregate)
    ensures a.operands == operands
    ensures Count(operands, IsReady) + a.notCreated + a.failed == |operands|
    ensures a.allReady <==> a.notCreated == 0 && a.failed == 0
    ensures a.allReady <==> forall o :: o in operands ==> IsReady(o)
    ensures a.failed > 0 <==> exists o :: o in operands && Broken(o)
    ensures a.anyExists <==> exists o :: o in operands && Exists(o)
    // The failed are those named as failed plus those that can be named neither way.
    ensures a.failed == |NamesOf(operands, Named, QualifiedName)| + Count(operands, Unnamed)
  {
    a := CountAll(operands);
    Conservation(operands);
    CountBounds(operands, IsReady);
    CountBounds(operands, Broken);
    CountBounds(operands, Exists);
  }

  predicate Exists(o: OperandStatus) {
    o.message != CR_NOT_FOUND
  }

  lemma CountStep(operands: seq<OperandStatus>, i: nat, p: OperandStatus -> bool)
    requires i < |operands|
    ensures Count(operands[..i + 1], p) == Count(operands[..i], p) + (if p(operands[i]) then 1 else 0)
    ensures Count(operands[..i], p) <= i
  {
    assert operands[..i + 1][..i] == operands[..i];
    CountBounds(operands[..i], p);
  }

  method CountAll(operands: seq<OperandStatus>) returns (a: Aggregate)
    ensures a.operands == operands
    ensures a.allReady <==> Count(operands, IsReady) == |operands|
    ensures a.notCreated == Count(operands, Pending) && a.failed == Count(operands, Broken)
    ensures a.anyExists <==> Count(operands, Exists) > 0
  {
    var state := new AggregateState();
    for i := 0 to |operands|
      invariant state.allReady <==> Count(operands[..i], IsReady) == i
      invariant state.notCreatedCount == Count(operands[..i], Pending)
      invariant state.failedCount == Count(operands[..i], Broken)
      invariant state.anyOperandExists <==> Count(operands[..i], Exists) > 0
    {
      CountStep(operands, i, IsReady);
      CountStep(operands, i, Pending);
      CountStep(operands, i, Broken);
      CountStep(operands, i, Exists);
      state.ProcessOperandStatus(operands[i]);
    }
    assert operands[..|operands|] == operands;
    a := Aggregate(operands, state.allReady, state.notCreatedCount, state.failedCount, state.anyOperandExists);
  }

  function QualifiedName(o: OperandStatus): string {
    o.kind + "/" + o.name
  }

  function PendingName(o: OperandStatus): string {
    o.kind + (if o.message == CR_NOT_FOUND then "(not created)" else "(reconciling)")
  }

  method CollectNames(operands: seq<OperandStatus>, keep: OperandStatus -> bool, render: OperandStatus -> string)
    returns (names: seq<string>)
    ensures names == NamesOf(operands, keep, render)
  {
    names := [];
    for i := 0 to |operands|
      invariant names == NamesOf(operands[..i], keep, render)
    {
      assert operands[..i + 1][..i] == operands[..i];
      if keep(operands[i]) {
        names := names + [render(operands[i])];
      }
    }
    assert operands[..|operands|] == operands;
  }

  function Join(names: seq<string>): string {
    if names == [] then "" else if |names| == 1 then names[0] else names[0] + " " + Join(names[1..])
  }

  /** One more name is added after a blank. */
  lemma {:induction false} JoinStep(names: seq<string>, x: string)
    ensures Join(names + [x]) == if names == [] then x else Join(names) + " " + x
  {
    if |names| > 1 {
      JoinStep(names[1..], x);
      assert (names + [x])[1..] == names[1..] + [x];
    } else if |names| == 1 {
      assert (names + [x])[1..] == [x];
    }
  }

  function Bracketed(names: seq<string>): string {
    "[" + Join(names) + "]"
  }

  // ---------- the reconciliation ----------

  predicate ReadyOrAbsent(o: OperandStatus) {
    IsReady(o) || o.message == CR_NOT_FOUND
  }

  /** An operand that stands in the way of an upgrade. */
  predicate Blocks(o: OperandStatus) {
    o.ready != "true" && o.message != "CR not found"
  }

  function KindOf(o: OperandStatus): string { o.kind }

  /** The Upgradeable condition for the lifecycle manager. */
  method Upgradeable(createOnly: bool, operands: seq<OperandStatus>) returns (c: Condition)
    ensures c.ctype == "Upgradeable" && c.status != IsUnknown
    ensures c.status == IsTrue <==>
              !createOnly && forall o :: o in operands ==> ReadyOrAbsent(o)
    ensures c.reason == (if c.status == IsTrue then "Ready" else "OperandsNotReady")
    ensures c.message == if c.status == IsTrue then "Operator is Upgradeable"
                         else if createOnly
                         then "Not safe to upgrade - create-only mode is enabled on one or more operands"
                         else "Not safe to upgrade - existing operands are not ready: "
                              + Bracketed(NamesOf(operands, Blocks, KindOf))
  {
    c := Condition("Upgradeable", IsTrue, REASON_READY, "Operator is Upgradeable");
    if createOnly {
      c := Condition("Upgradeable", IsFalse, REASON_OPERANDS_NOT_READY,
                     "Not safe to upgrade - create-only mode is enabled on one or more operands");
    } else {
      var blocking := [];
      for i := 0 to |operands|
        invariant |blocking| == Count(operands[..i], Blocks) && blocking == NamesOf(operands[..i], Blocks, KindOf)
      {
        assert operands[..i + 1][..i] == operands[..i];
        if !StringToBool(operands[i].ready) && operands[i].message != CR_NOT_FOUND {
          blocking := blocking + [operands[i].kind];
        }
      }
      assert operands[..|operands|] == operands;
      CountBounds(operands, Blocks);
      if blocking != [] {
        c := Condition("Upgradeable", IsFalse, REASON_OPERANDS_NOT_READY,
                       "Not safe to upgrade - existing operands are not ready: " + Bracketed(blocking));
      }
    }
  }

  function AllStatuses(kinds: seq<string>, observed: seq<Read>): (r: seq<OperandStatus>)
    requires |kinds| == |observed|
    ensures |r| == |observed| && forall i :: 0 <= i < |r| ==> r[i] == StatusOf(kinds[i], observed[i])
  {
    seq(|observed|, i requires 0 <= i < |observed| => StatusOf(kinds[i], observed[i]))
  }

  /** OperandsAvailable says what Ready says, in its own words only when all is well. */
  ghost predicate SameVerdict(available: Condition, ready: Condition) {
    && available.ctype == OPERANDS_AVAILABLE
    && available.status == ready.status && available.reason == ready.reason
    && (ready.status != IsTrue ==> available.message == ready.message)
  }

  /** Records OperandsAvailable and Ready according to the aggregate. */
  method RecordReady(m: Manager, a: Aggregate)
    requires Keyed(m.conditions)
    requires a.allReady <==> a.notCreated == 0 && a.failed == 0
    modifies m
    ensures Keyed(m.conditions) && READY in m.conditions
    ensures m.conditions.Keys == old(m.conditions).Keys + {READY, OPERANDS_AVAILABLE}
    ensures forall t :: t in old(m.conditions) && t != READY && t != OPERANDS_AVAILABLE ==>
              m.conditions[t] == old(m.conditions)[t]
    ensures SameVerdict(m.conditions[OPERANDS_AVAILABLE], m.conditions[READY])
    ensures var ready := m.conditions[READY];
            && ready.status == (if a.allReady then IsTrue else IsFalse)
            && ready.reason == (if a.allReady then REASON_READY
                                else if a.failed > 0 then REASON_FAILED else REASON_PROGRESSING)
            && ready.message ==
                 (if a.allReady then ALL_READY_MESSAGE
                  else if a.failed > 0
                  then "Some operands not ready: " + Bracketed(NamesOf(a.operands, Named, QualifiedName))
                  else "Waiting for operands: " + Bracketed(NamesOf(a.operands, Pending, PendingName)))
  {
    if a.allReady {
      m.AddCondition(OPERANDS_AVAILABLE, REASON_READY, "All operand CRs are ready", IsTrue);
      m.AddCondition(READY, REASON_READY, ALL_READY_MESSAGE, IsTrue);
    } else if a.notCreated > 0 && a.failed == 0 {
      var pending := CollectNames(a.operands, Pending, PendingName);
      var message := "Waiting for operands: " + Bracketed(pending);
      m.AddCondition(OPERANDS_AVAILABLE, REASON_PROGRESSING, message, IsFalse);
      m.AddCondition(READY, REASON_PROGRESSING, message, IsFalse);
    } else {
      var unhealthy := CollectNames(a.operands, Named, QualifiedName);
      var message := "Some operands not ready: " + Bracketed(unhealthy);
      m.AddCondition(OPERANDS_AVAILABLE, REASON_FAILED, message, IsFalse);
      m.AddCondition(READY, REASON_FAILED, message, IsFalse);
    }
  }

  method SetCreateOnlyModeCondition(m: Manager, createOnly: bool, existing: seq<Stamped>)
    requires Keyed(m.conditions)
    modifies m
    ensures Keyed(m.conditions)
    ensures forall t :: t != CREATE_ONLY ==> (t in m.conditions <==> t in old(m.conditions))
    ensures forall t :: t != CREATE_ONLY && t in m.conditions ==> m.conditions[t] == old(m.conditions)[t]
    ensures createOnly ==>
              && CREATE_ONLY in m.conditions && m.conditions[CREATE_ONLY].status == IsTrue
              && m.conditions[CREATE_ONLY].reason == "CreateOnlyModeEnabled"
    // Leaving the mode is recorded once: only while the stored condition still says it is on.
    ensures !createOnly ==>
              if Find(existing, CREATE_ONLY).Some? && Find(existing, CREATE_ONLY).value.cond.status == IsTrue
              then CREATE_ONLY in m.conditions && m.conditions[CREATE_ONLY].status == IsFalse
              else m.conditions == old(m.conditions)
  {
    if createOnly {
      m.AddCondition(CREATE_ONLY, "CreateOnlyModeEnabled",
                     "Create-only mode is enabled: Updates are not reconciled to existing resources", IsTrue);
    } else {
      var found := Find(existing, CREATE_ONLY);
      if found.Some? && found.value.cond.status == IsTrue {
        m.AddCondition(CREATE_ONLY, "CreateOnlyModeDisabled", "Create-only mode is disabled", IsFalse);
      }
    }
  }

  /** The marker set at the start: Ready False with a message no later Ready condition repeats. */
  method SetInitialReconciliationStatus(stored: seq<Stamped>, now: nat)
    returns (marked: seq<Stamped>, changed: bool)
    ensures Find(marked, READY).Some?
    ensures Find(marked, READY).value.cond == Condition(READY, IsFalse, REASON_PROGRESSING, INITIAL_MESSAGE)
    ensures forall t :: t != READY ==> Find(marked, t) == Find(stored, t)
  {
    var m := new Manager();
    m.AddCondition(READY, REASON_PROGRESSING, INITIAL_MESSAGE, IsFalse);
    marked, changed := m.ApplyStatus(stored, now);
  }

  /** One run over the resource stored at `key`, whose in-memory status is `status`. */
  method Reconcile<S(==,!new)>(c: Cluster<S, Status>, key: Key, spec: S, status: Status, kinds: seq<string>,
                          observed: seq<Read>, createOnly: bool, now: nat)
    returns (final: Status, sent: bool, wrote: Result<Stored<S, Status>, Error>, upgradeable: Condition)
    requires c.world.Valid() && |kinds| == |observed|
    modifies c
    ensures c.world.Valid()
    // The marker never survives: the final write always fires and always carries the new operands.
    ensures sent && final.operands == AllStatuses(kinds, observed)
    ensures wrote.Ok? ==> key in c.world.Store() && c.world.Store()[key].res.status == final
    ensures Find(final.conditions, READY).Some?
    ensures Find(final.conditions, READY).value.cond.message != INITIAL_MESSAGE
    ensures Verdict(Find(final.conditions, READY).value.cond, upgradeable, createOnly, final.operands)
    ensures Find(final.conditions, OPERANDS_AVAILABLE).Some?
    ensures SameVerdict(Find(final.conditions, OPERANDS_AVAILABLE).value.cond, Find(final.conditions, READY).value.cond)
    ensures createOnly ==>
              && Find(final.conditions, CREATE_ONLY).Some?
              && Find(final.conditions, CREATE_ONLY).value.cond.status == IsTrue
  {
    // The reply to the first write refreshes the in-memory object; its conditions come back as sent.
    var marked, changed := SetInitialReconciliationStatus(status.conditions, now);
    if changed {
      wrote := Send(c, key, Resource(spec, Status(marked, status.operands)));
    }
    var m := new Manager();
    var operands := AllStatuses(kinds, observed);
    upgradeable := Decide(m, operands, createOnly, marked);
    var applied;
    applied, sent := m.ApplyStatus(marked, now);
    final := Status(applied, operands);
    wrote := Err(Other("no write"));
    if sent {
      wrote := Send(c, key, Resource(spec, final));
    }
  }

  /** Records the conditions the operands call for, and derives Upgradeable. */
  method Decide(m: Manager, operands: seq<OperandStatus>, createOnly: bool, existing: seq<Stamped>)
    returns (upgradeable: Condition)
    requires Keyed(m.conditions)
    modifies m
    ensures Keyed(m.conditions) && READY in m.conditions && m.conditions[READY].message != INITIAL_MESSAGE
    ensures Verdict(m.conditions[READY], upgradeable, createOnly, operands)
    ensures createOnly ==> CREATE_ONLY in m.conditions && m.conditions[CREATE_ONLY].status == IsTrue
    ensures OPERANDS_AVAILABLE in m.conditions && SameVerdict(m.conditions[OPERANDS_AVAILABLE], m.conditions[READY])
  {
    OtherTypes();
    DecideReady(m, operands);
    SetCreateOnlyModeCondition(m, createOnly, existing);
    upgradeable := Upgradeable(createOnly, operands);
  }

  method DecideReady(m: Manager, operands: seq<OperandStatus>)
    requires Keyed(m.conditions)
    modifies m
    ensures Keyed(m.conditions) && READY in m.conditions && m.conditions[READY].message != INITIAL_MESSAGE
    ensures ReadyVerdict(m.conditions[READY], operands)
    ensures OPERANDS_AVAILABLE in m.conditions && SameVerdict(m.conditions[OPERANDS_AVAILABLE], m.conditions[READY])
  {
    var a := AggregateOperandStatus(operands);
    RecordReady(m, a);
    FirstLetters(m.conditions[READY].message, a);
  }

  lemma OtherTypes()
    ensures CREATE_ONLY != READY && CREATE_ONLY != OPERANDS_AVAILABLE && READY != OPERANDS_AVAILABLE
  {
    assert |CREATE_ONLY| == 14 && |READY| == 5 && |OPERANDS_AVAILABLE| == 17;
  }

  lemma FirstLetters(message: string, a: Aggregate)
    requires || message == ALL_READY_MESSAGE
             || message == "Some operands not ready: " + Bracketed(NamesOf(a.operands, Named, QualifiedName))
             || message == "Waiting for operands: " + Bracketed(NamesOf(a.operands, Pending, PendingName))
    ensures message != INITIAL_MESSAGE
  {
    assert message[0] in ['A', 'S', 'W'];
    assert INITIAL_MESSAGE[0] == 'R';
  }

  method Send<S(==,!new)>(c: Cluster<S, Status>, key: Key, res: Resource<S, Status>)
    returns (r: Result<Stored<S, Status>, Error>)
    requires c.world.Valid()
    modifies c
    ensures c.world.Valid()
    ensures r.Ok? ==> key in c.world.Store() && c.world.Store()[key].res.status == res.status
  {
    var lost, read;
    r, lost, read := RetryClient.StatusUpdateWithRetry(c, key, res);
  }

  ghost predicate ReadyVerdict(ready: Condition, operands: seq<OperandStatus>) {
    && (ready.status == IsTrue <==> forall o :: o in operands ==> IsReady(o))
    && (ready.reason == REASON_FAILED <==> exists o :: o in operands && Broken(o))
    && (ready.status == IsTrue || ready.status == IsFalse)
    && ready.reason in {REASON_READY, REASON_FAILED, REASON_PROGRESSING}
    && (ready.reason == REASON_READY <==> ready.status == IsTrue)
  }

  /** What a run concludes from the operand statuses alone. */
  ghost predicate Verdict(ready: Condition, upgradeable: Condition, createOnly: bool, operands: seq<OperandStatus>) {
    && ReadyVerdict(ready, operands)
    && (upgradeable.status == IsTrue <==>
          !createOnly && forall o :: o in operands ==> ReadyOrAbsent(o))
  }

  /** The whole chain, for operands in any of the four situations: Ready exactly when every operand
      is ready, Failed exactly when one has failed, Progressing otherwise; upgradeable exactly when
      not in create-only mode and every operand is ready or absent. */
  lemma VerdictFromReads(ready: Condition, upgradeable: Condition, createOnly: bool, kinds: seq<string>,
                         observed: seq<Read>)
    requires |kinds| == |observed| && forall r :: r in observed ==> AsWritten(r)
    requires Verdict(ready, upgradeable, createOnly, AllStatuses(kinds, observed))
    ensures ready.status == IsTrue <==> forall r :: r in observed ==> StateOf(r) == Ready
    ensures ready.reason == REASON_FAILED <==> exists r :: r in observed && StateOf(r) == Failed
    ensures ready.reason == REASON_PROGRESSING <==>
              && (exists r :: r in observed && StateOf(r) == Progressing)
              && !(exists r :: r in observed && StateOf(r) == Failed)
    ensures upgradeable.status == IsTrue <==>
              !createOnly && forall r :: r in observed ==> StateOf(r) == Ready || r.Missing?
  {
    var operands := AllStatuses(kinds, observed);
    Corresponds(kinds, observed);
    Transfer(operands, observed, IsReady, r => StateOf(r) == Ready);
    Transfer(operands, observed, Broken, r => StateOf(r) == Failed);
    Transfer(operands, observed, ReadyOrAbsent, r => StateOf(r) == Ready || r.Missing?);
    StatesPartition(observed);
  }

  lemma Corresponds(kinds: seq<string>, observed: seq<Read>)
    requires |kinds| == |observed| && forall r :: r in observed ==> AsWritten(r)
    ensures var operands := AllStatuses(kinds, observed);
            forall i :: 0 <= i < |observed| ==>
              && (IsReady(operands[i]) <==> StateOf(observed[i]) == Ready)
              && (Broken(operands[i]) <==> StateOf(observed[i]) == Failed)
              && (ReadyOrAbsent(operands[i]) <==> StateOf(observed[i]) == Ready || observed[i].Missing?)
  {
    var operands := AllStatuses(kinds, observed);
    forall i | 0 <= i < |observed|
      ensures IsReady(operands[i]) <==> StateOf(observed[i]) == Ready
      ensures Broken(operands[i]) <==> StateOf(observed[i]) == Failed
      ensures ReadyOrAbsent(operands[i]) <==> StateOf(observed[i]) == Ready || observed[i].Missing?
    {
      assert observed[i] in observed;
      ClassIsState(kinds[i], observed[i]);
    }
  }

  lemma StatesPartition(observed: seq<Read>)
    ensures (forall r :: r in observed ==> StateOf(r) == Ready)
            <==> && !(exists r :: r in observed && StateOf(r) == Failed)
                 && !(exists r :: r in observed && StateOf(r) == Progressing)
  {
    if r :| r in observed && StateOf(r) != Ready {
      assert StateOf(r) == Failed || StateOf(r) == Progressing;
    }
  }

  lemma Transfer(operands: seq<OperandStatus>, observed: seq<Read>, p: OperandStatus -> bool, q: Read -> bool)
    requires |operands| == |observed| && forall i :: 0 <= i < |observed| ==> (p(operands[i]) <==> q(observed[i]))
    ensures (forall o :: o in operands ==> p(o)) <==> (forall r :: r in observed ==> q(r))
    ensures (exists o :: o in operands && p(o)) <==> (exists r :: r in observed && q(r))
  {
    if o :| o in operands && !p(o) {
      var i :| 0 <= i < |operands| && operands[i] == o;
      assert observed[i] in observed;
    }
    if o :| o in operands && p(o) {
      var i :| 0 <= i < |operands| && operands[i] == o;
      assert observed[i] in observed;
    }
    if r :| r in observed && !q(r) {
      var i :| 0 <= i < |observed| && observed[i] == r;
      assert operands[i] in operands;
    }
    if r :| r in observed && q(r) {
      var i :| 0 <= i < |observed| && observed[i] == r;
      assert operands[i] in operands;
    }
  }

  /** Ready is there and not True. */
  ghost predicate Denied(read: Read) {
    && read.Present? && Find(read.conditions, READY).Some?
    && Find(read.conditions, READY).value.cond.status != IsTrue
  }

  /** A Ready condition that is not True although its reason says ready. */
  ghost predicate Contradictory(read: Read) {
    Denied(read) && Find(read.conditions, READY).value.cond.reason == REASON_READY
  }

  /** A Ready condition that is not True and whose message is the sentinel for a missing resource. */
  ghost predicate Masquerading(read: Read) {
    Denied(read) && Find(read.conditions, READY).value.cond.message == CR_NOT_FOUND
  }

  /** Whatever wrote the status: an operand is counted as failed and never named exactly when its Ready
      condition contradicts itself. */
  lemma UnnamedExactly(kind: string, read: Read)
    ensures Unnamed(StatusOf(kind, read)) <==> Contradictory(read)
  {
    if read.Present? {
      ReadyIsKept(read.conditions);
    } else {
      assert REASON_READY != REASON_FAILED;
    }
  }

  /** Whatever wrote the status: the sentinel message stands for a missing resource unless a Ready
      condition carries it. */
  lemma SentinelExactly(kind: string, read: Read)
    ensures (StatusOf(kind, read).message == CR_NOT_FOUND <==> read.Missing?) <==> !Masquerading(read)
    ensures ReadyOrAbsent(StatusOf(kind, read)) <==>
              IsReady(StatusOf(kind, read)) || read.Missing? || Masquerading(read)
  {
    assert CR_NOT_FOUND[0] == 'C' && WAITING_INITIAL[0] == 'W' && RECONCILING[0] == 'R';
    match read {
      case Missing =>
      case Unreadable(text) =>
        assert ("Failed to get CR: " + text)[0] == 'F';
      case Present(conditions) =>
    }
  }

  lemma StatusesStep(kinds: seq<string>, observed: seq<Read>, n: nat)
    requires |kinds| == |observed| == n + 1
    ensures Count(AllStatuses(kinds, observed), Unnamed) ==
              Count(AllStatuses(kinds[..n], observed[..n]), Unnamed) + (if Contradictory(observed[n]) then 1 else 0)
  {
    assert AllStatuses(kinds, observed)[..n] == AllStatuses(kinds[..n], observed[..n]);
    UnnamedExactly(kinds[n], observed[n]);
  }

  /** No Ready condition that the status manager wrote contradicts itself. */
  lemma WrittenIsNotContradictory(read: Read)
    requires AsWritten(read)
    ensures !Contradictory(read)
  {
    assert |REASON_READY| == 5 && |REASON_FAILED| == 6 && |REASON_PROGRESSING| == 11;
  }

  /** The names listed number the failed operands exactly when no Ready condition contradicts itself. */
  lemma {:induction false} FailedAreNamedExactly(kinds: seq<string>, observed: seq<Read>)
    requires |kinds| == |observed|
    ensures Count(AllStatuses(kinds, observed), Unnamed) == 0 <==> forall r :: r in observed ==> !Contradictory(r)
  {
    if observed != [] {
      var n := |observed| - 1;
      assert observed == observed[..n] + [observed[n]];
      FailedAreNamedExactly(kinds[..n], observed[..n]);
      StatusesStep(kinds, observed, n);
    }
  }

  /** For operands written by the status manager every failed one is named. */
  lemma WrittenAreNamed(kinds: seq<string>, observed: seq<Read>)
    requires |kinds| == |observed| && forall r :: r in observed ==> AsWritten(r)
    ensures Count(AllStatuses(kinds, observed), Unnamed) == 0
  {
    forall r | r in observed ensures !Contradictory(r) {
      WrittenIsNotContradictory(r);
    }
    FailedAreNamedExactly(kinds, observed);
  }

  /** Hand-written conditions of both kinds: the first is counted as failed and never named, the second
      does not block an upgrade although the resource exists and is not ready. */
  lemma HandWrittenConditionsMislead(kind: string, since: nat)
    ensures Unnamed(StatusOf(kind, Present([Stamped(Condition(READY, IsFalse, REASON_READY, "x"), since)])))
    ensures var s := StatusOf(kind, Present([Stamped(Condition(READY, IsFalse, REASON_FAILED, CR_NOT_FOUND), since)]));
            !IsReady(s) && ReadyOrAbsent(s)
  {
    var c := Present([Stamped(Condition(READY, IsFalse, REASON_READY, "x"), since)]);
    var d := Present([Stamped(Condition(READY, IsFalse, REASON_FAILED, CR_NOT_FOUND), since)]);
    UnnamedExactly(kind, c);
    SentinelExactly(kind, d);
    assert Find(d.conditions, READY) == Some(d.conditions[0]);
  }
}
