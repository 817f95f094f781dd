/** Status conditions and the list operations of the API machinery that the operator uses on them. */
module Conditions {
  import opened Wrappers
  import opened KeyedLists

  datatype Truth = IsTrue | IsFalse | IsUnknown
  datatype Condition = Condition(ctype: string, status: Truth, reason: string, message: string)

  /** A condition as stored, with the time its status last changed. */
  datatype Stamped = Stamped(cond: Condition, since: nat)

  function IndexOf(list: seq<Stamped>, t: string): (i: nat)
    ensures i <= |list|
    ensures i < |list| ==> list[i].cond.ctype == t
    ensures forall j :: 0 <= j < i ==> list[j].cond.ctype != t
  {
    if list == [] || list[0].cond.ctype == t then 0 else 1 + IndexOf(list[1..], t)
  }

  function Find(list: seq<Stamped>, t: string): Option<Stamped> {
    var i := IndexOf(list, t);
    if i < |list| then Some(list[i]) else None
  }

  /** Replace the first condition of the type in place, moving its time only with its status, or append. */
  function Set(list: seq<Stamped>, c: Condition, now: nat): seq<Stamped> {
    var i := IndexOf(list, c.ctype);
    if i == |list| then list + [Stamped(c, now)]
    else list[i := Stamped(c, if list[i].cond.status == c.status then list[i].since else now)]
  }

  function SetAll(list: seq<Stamped>, conds: map<string, Condition>, order: seq<string>, now: nat): seq<Stamped>
    requires forall t :: t in order ==> t in conds
  {
    if order == [] then list
    else Set(SetAll(list, conds, order[..|order| - 1], now), conds[order[|order| - 1]], now)
  }

  /** The stored conditions of all other types, in order. */
  function Rest(list: seq<Stamped>, types: set<string>): seq<Stamped> {
    if list == [] then []
    else Rest(list[..|list| - 1], types) +
         (if list[|list| - 1].cond.ctype in types then [] else [list[|list| - 1]])
  }

  ghost predicate Enumerates(order: seq<string>, keys: set<string>) {
    Distinct(order) && Elements(order) == keys
  }

  /** Each recorded condition stands in the list as recorded. */
  ghost predicate Reflects(list: seq<Stamped>, conds: map<string, Condition>) {
    forall t :: t in conds ==> Find(list, t).Some? && Find(list, t).value.cond == conds[t]
  }

  ghost predicate Keyed(conds: map<string, Condition>) {
    forall t :: t in conds ==> conds[t].ctype == t
  }

  lemma FirstIndex(list: seq<Stamped>, t: string, i: nat)
    requires i <= |list| && (i < |list| ==> list[i].cond.ctype == t)
    requires forall j :: 0 <= j < i ==> list[j].cond.ctype != t
    ensures IndexOf(list, t) == i
  {
    var k := IndexOf(list, t);
  }

  lemma FindAfterSet(list: seq<Stamped>, c: Condition, now: nat, t: string)
    ensures t == c.ctype ==> Find(Set(list, c, now), t).Some? && Find(Set(list, c, now), t).value.cond == c
    ensures t != c.ctype ==> Find(Set(list, c, now), t) == Find(list, t)
  {
    var out, i, k := Set(list, c, now), IndexOf(list, c.ctype), IndexOf(list, t);
    if t == c.ctype {
      FirstIndex(out, t, i);
    } else {
      FirstIndex(out, t, if k == |list| then |out| else k);
    }
  }

  lemma {:induction false} RestAfterUpdate(list: seq<Stamped>, i: nat, s: Stamped, types: set<string>)
    requires i < |list| && list[i].cond.ctype in types && s.cond.ctype in types
    ensures Rest(list[i := s], types) == Rest(list, types)
  {
    var out, n := list[i := s], |list| - 1;
    if i == n {
      assert out[..n] == list[..n];
    } else {
      RestAfterUpdate(list[..n], i, s, types);
      assert out[..n] == list[..n][i := s];
    }
  }

  lemma RestAfterSet(list: seq<Stamped>, c: Condition, now: nat, types: set<string>)
    requires c.ctype in types
    ensures Rest(Set(list, c, now), types) == Rest(list, types)
  {
    var out, i := Set(list, c, now), IndexOf(list, c.ctype);
    if i == |list| {
      assert out[..|list|] == list;
    } else {
      RestAfterUpdate(list, i, out[i], types);
    }
  }

  /** Applying recorded conditions, in any order: each of them is then in the list as recorded, and
      what the list says about any other type is untouched. */
  lemma {:induction false} SetAllFacts(list: seq<Stamped>, conds: map<string, Condition>, order: seq<string>, now: nat)
    requires Keyed(conds) && (forall t :: t in order ==> t in conds)
    ensures var out := SetAll(list, conds, order, now);
            && (forall t :: t in order ==> Find(out, t).Some? && Find(out, t).value.cond == conds[t])
            && (forall t :: t !in order ==> Find(out, t) == Find(list, t))
            && Rest(out, conds.Keys) == Rest(list, conds.Keys)
  {
    if order != [] {
      var init, last := order[..|order| - 1], order[|order| - 1];
      assert order == init + [last];
      SetAllFacts(list, conds, init, now);
      var mid := SetAll(list, conds, init, now);
      forall t { FindAfterSet(mid, conds[last], now, t); }
      RestAfterSet(mid, conds[last], now, conds.Keys);
    }
  }

  /** A condition bears the time at which its status last changed. */
  ghost predicate Timely(before: seq<Stamped>, after: seq<Stamped>, t: string, now: nat) {
    match Find(after, t)
    case None => Find(before, t).None?
    case Some(shown) =>
      if Find(before, t).Some? && Find(before, t).value.cond.status == shown.cond.status
      then shown.since == Find(before, t).value.since
      else shown.since == now
  }

  lemma TimelyAfterSet(list: seq<Stamped>, c: Condition, now: nat)
    ensures Timely(list, Set(list, c, now), c.ctype, now)
  {
    FirstIndex(Set(list, c, now), c.ctype, IndexOf(list, c.ctype));
  }

  /** Applying recorded conditions, each of them once, moves the times of those whose status changes. */
  lemma {:induction false} SetAllTimes(list: seq<Stamped>, conds: map<string, Condition>, order: seq<string>, now: nat)
    requires Keyed(conds) && Distinct(order) && (forall t :: t in order ==> t in conds)
    ensures forall t :: t in order ==> Timely(list, SetAll(list, conds, order, now), t, now)
  {
    if order != [] {
      var init, last := order[..|order| - 1], order[|order| - 1];
      assert order == init + [last] && last !in init;
      SetAllTimes(list, conds, init, now);
      SetAllFacts(list, conds, init, now);
      var mid := SetAll(list, conds, init, now);
      TimelyAfterSet(mid, conds[last], now);
      forall t | t in init ensures Timely(list, SetAll(list, conds, order, now), t, now) {
        FindAfterSet(mid, conds[last], now, t);
      }
    }
  }

  /** Applying conditions the list already reflects changes nothing, times included. */
  lemma {:induction false} SetAllNoop(list: seq<Stamped>, conds: map<string, Condition>, order: seq<string>, now: nat)
    requires Keyed(conds) && (forall t :: t in order ==> t in conds) && Reflects(list, conds)
    ensures SetAll(list, conds, order, now) == list
  {
    if order != [] {
      SetAllNoop(list, conds, order[..|order| - 1], now);
      var c := conds[order[|order| - 1]];
      var i := IndexOf(list, c.ctype);
      assert Find(list, c.ctype) == Some(list[i]);
      assert list[i := list[i]] == list;
    }
  }

  /** The change test: the list differs after applying exactly when it did not reflect the conditions. */
  lemma ChangedIffNotReflected(list: seq<Stamped>, conds: map<string, Condition>, order: seq<string>, now: nat)
    requires Keyed(conds) && Enumerates(order, conds.Keys)
    ensures SetAll(list, conds, order, now) != list <==> !Reflects(list, conds)
    ensures Reflects(SetAll(list, conds, order, now), conds)
  {
    SetAllFacts(list, conds, order, now);
    if Reflects(list, conds) {
      SetAllNoop(list, conds, order, now);
    }
  }

  /** Some enumeration of a set starts with any element one likes. */
  lemma {:induction false} EnumerationFrom(keys: set<string>, first: string) returns (order: seq<string>)
    requires first in keys
    ensures Enumerates(order, keys) && |order| > 0 && order[0] == first
    decreases keys
  {
    order := [first];
    var todo := keys - {first};
    while todo != {}
      invariant |order| > 0 && order[0] == first && Distinct(order)
      invariant todo <= keys && Elements(order) == keys - todo
      decreases todo
    {
      var t :| t in todo;
      assert Elements(order + [t]) == Elements(order) + {t};
      order, todo := order + [t], todo - {t};
    }
  }

  /** The keys of a map in whatever order the runtime iterates over it. */
  method Enumerate(keys: set<string>) returns (order: seq<string>)
    ensures Enumerates(order, keys)
  {
    order := [];
    var todo := keys;
    while todo != {}
      invariant todo <= keys && Distinct(order) && Elements(order) == keys - todo
      decreases todo
    {
      var t :| t in todo;
      assert Elements(order + [t]) == Elements(order) + {t};
      order, todo := order + [t], todo - {t};
    }
  }
}

/** The status manager: collects the conditions of one reconciliation, derives Ready from them and
    applies them to the status of the resource. */
module StatusManager {
  import opened Conditions

  const READY := "Ready"
  const EXEMPT: set<string> := {READY, "Degraded", "CreateOnlyMode"}
  const PROGRESSING_REASONS: set<string> := {"StatefulSetNotReady", "DaemonSetNotReady", "DeploymentNotReady"}
  const REASON_FAILED := "Failed"
  const REASON_PROGRESSING := "Progressing"
  const REASON_READY := "Ready"
  const ALL_READY_MESSAGE := "All components are ready"

  predicate Blocking(c: Condition) {
    c.ctype !in EXEMPT && c.status == IsFalse
  }

  predicate Failing(c: Condition) {
    Blocking(c) && c.reason !in PROGRESSING_REASONS
  }

  predicate Starting(c: Condition) {
    Blocking(c) && c.reason in PROGRESSING_REASONS
  }

  function MessageOf(c: Condition): string {
    c.ctype + ": " + c.message
  }

  function Messages(conds: map<string, Condition>, order: seq<string>, keep: Condition -> bool): seq<string>
    requires forall t :: t in order ==> t in conds
  {
    if order == [] then []
    else Messages(conds, order[..|order| - 1], keep) +
         (var c := conds[order[|order| - 1]]; if keep(c) then [MessageOf(c)] else [])
  }

  /** Ready as derived from the recorded conditions, seen in one iteration order of the map. */
  function Derived(conds: map<string, Condition>, order: seq<string>): Condition
    requires forall t :: t in order ==> t in conds
  {
    var failures, starting := Messages(conds, order, Failing), Messages(conds, order, Starting);
    if failures != [] then Condition(READY, IsFalse, REASON_FAILED, failures[0])
    else if starting != [] then Condition(READY, IsFalse, REASON_PROGRESSING, starting[0])
    else Condition(READY, IsTrue, REASON_READY, ALL_READY_MESSAGE)
  }

  ghost predicate Any(conds: map<string, Condition>, keep: Condition -> bool) {
    exists t :: t in conds && keep(conds[t])
  }

  /** The messages Ready may carry: those of the failing conditions, else of the starting ones. */
  ghost function Candidates(conds: map<string, Condition>): set<string> {
    if Any(conds, Failing) then set t | t in conds && Failing(conds[t]) :: MessageOf(conds[t])
    else if Any(conds, Starting) then set t | t in conds && Starting(conds[t]) :: MessageOf(conds[t])
    else {ALL_READY_MESSAGE}
  }

  lemma {:induction false} MessagesFacts(conds: map<string, Condition>, order: seq<string>, keep: Condition -> bool)
    requires forall t :: t in order ==> t in conds
    ensures Messages(conds, order, keep) != [] <==> exists t :: t in order && keep(conds[t])
    ensures forall m :: m in Messages(conds, order, keep) ==>
              exists t :: t in order && keep(conds[t]) && m == MessageOf(conds[t])
  {
    if order != [] {
      var init, last := order[..|order| - 1], order[|order| - 1];
      assert order == init + [last];
      MessagesFacts(conds, init, keep);
      forall m | m in Messages(conds, order, keep)
        ensures exists t :: t in order && keep(conds[t]) && m == MessageOf(conds[t])
      {
        if m in Messages(conds, init, keep) {
          var t :| t in init && keep(conds[t]) && m == MessageOf(conds[t]);
          assert t in order;
        } else {
          assert last in order && keep(conds[last]);
        }
      }
      if t :| t in order && keep(conds[t]) { assert t in init || t == last; }
    }
  }

  lemma {:induction false} FirstMessage(conds: map<string, Condition>, order: seq<string>, keep: Condition -> bool)
    requires order != [] && (forall t :: t in order ==> t in conds) && keep(conds[order[0]])
    ensures Messages(conds, order, keep) != [] && Messages(conds, order, keep)[0] == MessageOf(conds[order[0]])
  {
    var init := order[..|order| - 1];
    if init == [] {
      assert Messages(conds, init, keep) == [];
    } else {
      assert forall t :: t in init ==> t in order;
      FirstMessage(conds, init, keep);
    }
  }

  /** Status and reason of the derived Ready do not depend on the iteration order: Failed if some
      recorded condition fails, Progressing if some only starts up, Ready otherwise. The message is
      one of the candidates. */
  lemma DerivedFacts(conds: map<string, Condition>, order: seq<string>)
    requires Enumerates(order, conds.Keys)
    ensures var ready := Derived(conds, order);
            && ready.ctype == READY
            && ready.status == (if Any(conds, Failing) || Any(conds, Starting) then IsFalse else IsTrue)
            && ready.reason == (if Any(conds, Failing) then REASON_FAILED
                                else if Any(conds, Starting) then REASON_PROGRESSING else REASON_READY)
            && ready.message in Candidates(conds)
  {
    MessagesFacts(conds, order, Failing);
    MessagesFacts(conds, order, Starting);
    assert forall t :: t in order <==> t in conds;
    var failures, starting := Messages(conds, order, Failing), Messages(conds, order, Starting);
    if failures != [] {
      assert failures[0] in failures;
    } else if starting != [] {
      assert starting[0] in starting;
    }
  }

  /** A condition that counts against Ready. */
  ghost predicate Against(conds: map<string, Condition>, t: string) {
    t in conds && conds[t].status == IsFalse && t != "Ready" && t != "Degraded" && t != "CreateOnlyMode"
  }

  /** The same, for a workload that is only starting up. */
  ghost predicate StartingUp(conds: map<string, Condition>, t: string) {
    && Against(conds, t)
    && (|| conds[t].reason == "StatefulSetNotReady" || conds[t].reason == "DaemonSetNotReady"
        || conds[t].reason == "DeploymentNotReady")
  }

  /** The derived condition from the recorded ones: Ready if nothing counts against it, Failed unless all that
      does is starting up, and in both of the other cases it quotes one that decides. */
  lemma ReadyExactly(conds: map<string, Condition>, order: seq<string>)
    requires Keyed(conds) && Enumerates(order, conds.Keys)
    ensures var ready := Derived(conds, order);
            && ready.ctype == "Ready"
            && (if forall t :: !Against(conds, t)
                then ready.status == IsTrue && ready.reason == "Ready" && ready.message == "All components are ready"
                else if forall t :: Against(conds, t) ==> StartingUp(conds, t)
                then && ready.status == IsFalse && ready.reason == "Progressing"
                     && exists t :: StartingUp(conds, t) && ready.message == t + ": " + conds[t].message
                else && ready.status == IsFalse && ready.reason == "Failed"
                     && exists t :: && Against(conds, t) && !StartingUp(conds, t)
                                    && ready.message == t + ": " + conds[t].message)
  {
    DerivedFacts(conds, order);
    var ready := Derived(conds, order);
    AgainstExactly(conds);
    if Any(conds, Failing) {
      var t :| t in conds && Failing(conds[t]) && ready.message == MessageOf(conds[t]);
    } else if Any(conds, Starting) {
      var t :| t in conds && Starting(conds[t]) && ready.message == MessageOf(conds[t]);
      assert Against(conds, t);
    }
  }

  lemma AgainstExactly(conds: map<string, Condition>)
    requires Keyed(conds)
    ensures forall t :: StartingUp(conds, t) <==> t in conds && Starting(conds[t])
    ensures forall t :: Against(conds, t) && !StartingUp(conds, t) <==> t in conds && Failing(conds[t])
  {
  }

  /** Every candidate message is shown under some iteration order. */
  lemma EveryCandidateReachable(conds: map<string, Condition>, m: string) returns (order: seq<string>)
    requires Keyed(conds) && m in Candidates(conds)
    ensures Enumerates(order, conds.Keys) && Derived(conds, order).message == m
  {
    if Any(conds, Failing) {
      var t :| t in conds && Failing(conds[t]) && MessageOf(conds[t]) == m;
      order := EnumerationFrom(conds.Keys, t);
      FirstMessage(conds, order, Failing);
    } else if Any(conds, Starting) {
      var t :| t in conds && Starting(conds[t]) && MessageOf(conds[t]) == m;
      order := EnumerationFrom(conds.Keys, t);
      MessagesFacts(conds, order, Failing);
      FirstMessage(conds, order, Starting);
    } else {
      order := AnyOrder(conds.Keys);
      DerivedFacts(conds, order);
    }
  }

  lemma AnyOrder(keys: set<string>) returns (order: seq<string>)
    ensures Enumerates(order, keys)
  {
    if keys == {} {
      order := [];
    } else {
      var t :| t in keys;
      order := EnumerationFrom(keys, t);
    }
  }

  /** The whole derived condition, message included, is independent of the iteration order exactly
      when no two conditions of the deciding class carry different messages. */
  lemma MessageDependsOnOrder(conds: map<string, Condition>)
    requires Keyed(conds)
    ensures (forall o1, o2 :: Enumerates(o1, conds.Keys) && Enumerates(o2, conds.Keys) ==>
               Derived(conds, o1) == Derived(conds, o2))
            <==> (forall m1, m2 :: m1 in Candidates(conds) && m2 in Candidates(conds) ==> m1 == m2)
  {
    forall o1, o2 | && Enumerates(o1, conds.Keys) && Enumerates(o2, conds.Keys)
                    && (forall m1, m2 :: m1 in Candidates(conds) && m2 in Candidates(conds) ==> m1 == m2)
      ensures Derived(conds, o1) == Derived(conds, o2)
    {
      DerivedFacts(conds, o1);
      DerivedFacts(conds, o2);
    }
    if m1, m2 :| m1 in Candidates(conds) && m2 in Candidates(conds) && m1 != m2 {
      var o1 := EveryCandidateReachable(conds, m1);
      var o2 := EveryCandidateReachable(conds, m2);
      assert Derived(conds, o1) != Derived(conds, o2);
    }
  }

  class Manager {
    var conditions: map<string, Condition>

    constructor ()
      ensures conditions == map[]
    {
      conditions := map[];
    }

    method AddCondition(ctype: string, reason: string, message: string, status: Truth)
      modifies this
      ensures conditions == old(conditions)[ctype := Condition(ctype, status, reason, message)]
    {
      conditions := conditions[ctype := Condition(ctype, status, reason, message)];
    }

    method SetReadyCondition() returns (ghost order: seq<string>)
      requires Keyed(conditions)
      modifies this
      ensures Enumerates(order, old(conditions).Keys)
      ensures conditions == old(conditions)[READY := Derived(old(conditions), order)]
    {
      var types := Enumerate(conditions.Keys);
      order := types;
      var failureMessages, progressingMessages := [], [];
      var hasFailure, hasProgressing := false, false;
      for i := 0 to |types|
        invariant conditions == old(conditions)
        invariant forall t :: t in types[..i] ==> t in conditions
        invariant failureMessages == Messages(conditions, types[..i], Failing)
        invariant progressingMessages == Messages(conditions, types[..i], Starting)
        invariant hasFailure == (failureMessages != []) && hasProgressing == (progressingMessages != [])
      {
        assert types[i] in types && types[..i + 1][..i] == types[..i];
        var cond := conditions[types[i]];
        if cond.ctype !in EXEMPT && cond.status == IsFalse {
          if cond.reason in PROGRESSING_REASONS {
            hasProgressing, progressingMessages := true, progressingMessages + [MessageOf(cond)];
          } else {
            hasFailure, failureMessages := true, failureMessages + [MessageOf(cond)];
          }
        }
      }
      assert types[..|types|] == types;
      if hasFailure {
        AddCondition(READY, REASON_FAILED, failureMessages[0], IsFalse);
      } else if hasProgressing {
        AddCondition(READY, REASON_PROGRESSING, progressingMessages[0], IsFalse);
      } else {
        AddCondition(READY, REASON_READY, ALL_READY_MESSAGE, IsTrue);
      }
    }

    /** Applies what was recorded to a stored condition list. `changed` asks for a status write. */
    method ApplyStatus(stored: seq<Stamped>, now: nat) returns (applied: seq<Stamped>, changed: bool)
      requires Keyed(conditions)
      modifies this
      // Ready is derived only if the controller did not set it itself; nothing else is recorded.
      ensures READY in old(conditions) ==> conditions == old(conditions)
      ensures READY !in old(conditions) ==>
                exists order :: && Enumerates(order, old(conditions).Keys)
                                && conditions == old(conditions)[READY := Derived(old(conditions), order)]
      ensures Keyed(conditions) && READY in conditions
      // The list now shows every recorded condition and keeps all it said about other types.
      ensures Reflects(applied, conditions)
      ensures Rest(applied, conditions.Keys) == Rest(stored, conditions.Keys)
      ensures forall t :: t !in conditions ==> Find(applied, t) == Find(stored, t)
      // A write is asked for exactly when the stored list did not show them already.
      ensures changed <==> !Reflects(stored, conditions)
      ensures !changed ==> applied == stored
      ensures forall t :: t in conditions ==> Timely(stored, applied, t, now)
      // The list is the stored one with every recorded condition set once, in some order.
      ensures exists order :: && Enumerates(order, conditions.Keys)
                              && applied == SetAll(stored, conditions, order, now)
    {
      if READY !in conditions {
        ghost var order := SetReadyCondition();
      }
      var types := Enumerate(conditions.Keys);
      applied := stored;
      for i := 0 to |types|
        invariant forall t :: t in types[..i] ==> t in conditions
        invariant applied == SetAll(stored, conditions, types[..i], now)
      {
        assert types[i] in types && types[..i + 1][..i] == types[..i];
        applied := Set(applied, conditions[types[i]], now);
      }
      assert types[..|types|] == types;
      SetAllFacts(stored, conditions, types, now);
      SetAllTimes(stored, conditions, types, now);
      ChangedIffNotReflected(stored, conditions, types, now);
      changed := applied != stored;
    }
  }

  /** Applying once more, at any later time, asks for no second write. */
  method ApplyTwice(m: Manager, stored: seq<Stamped>, now: nat, later: nat)
    returns (first: seq<Stamped>, second: seq<Stamped>, again: bool)
    requires Keyed(m.conditions)
    modifies m
    ensures !again && second == first
  {
    var changed;
    first, changed := m.ApplyStatus(stored, now);
    second, again := m.ApplyStatus(first, later);
  }
}
