/** Values that may be missing, and calls that may fail. */
module Wrappers {
  datatype Option<+T> = None | Some(value: T)
  datatype Result<+T, +E> = Ok(value: T) | Err(error: E)
}

/** Lists indexed by a key: the counting arguments behind every "same length, then look each
    element up in a set or map" comparison of the operator. */
module KeyedLists {

  ghost predicate Distinct<T>(s: seq<T>) {
    forall i, j :: 0 <= i < j < |s| ==> s[i] != s[j]
  }

  function Elements<T>(s: seq<T>): (r: set<T>)
    ensures forall x :: x in r ==> x in s
    ensures forall x :: x in s ==> x in r
  {
    set x | x in s
  }

  ghost predicate Permutation<T>(s: seq<T>, t: seq<T>) {
    multiset(s) == multiset(t)
  }

  lemma {:induction false} ElementsCount<T>(s: seq<T>)
    ensures |Elements(s)| <= |s|
    ensures |Elements(s)| == |s| <==> Distinct(s)
  {
    if s != [] {
      var init, last := s[..|s| - 1], s[|s| - 1];
      ElementsCount(init);
      assert s == init + [last];
      assert Elements(s) == Elements(init) + {last};
      if last in init {
        assert Elements(s) == Elements(init);
        var i :| 0 <= i < |init| && init[i] == last;
        assert s[i] == s[|s| - 1];
      } else {
        assert |Elements(s)| == |Elements(init)| + 1;
        if Distinct(init) {
          assert forall i, j :: 0 <= i < j < |s| ==> s[i] != s[j];
        } else {
          var i, j :| 0 <= i < j < |init| && init[i] == init[j];
          assert s[i] == s[j];
        }
      }
    }
  }

  lemma SubsetCount<T>(a: set<T>, b: set<T>)
    requires a <= b
    ensures |a| <= |b|
    ensures |a| == |b| ==> a == b
  {
    assert b == a + (b - a);
    assert |b| == |a| + |b - a|;
  }

  lemma {:induction false} DistinctMultiset<T>(s: seq<T>)
    requires Distinct(s)
    ensures multiset(s) == multiset(Elements(s))
  {
    if s == [] {
      assert Elements(s) == {};
    } else {
      var init, last := s[..|s| - 1], s[|s| - 1];
      assert s == init + [last];
      DistinctMultiset(init);
      assert last !in init;
      assert Elements(s) == Elements(init) + {last};
    }
  }

  lemma PermutationElements<T>(s: seq<T>, t: seq<T>)
    requires Permutation(s, t)
    ensures |s| == |t| && Elements(s) == Elements(t)
    ensures forall x :: x in s <==> x in t
  {
    assert |s| == |multiset(s)| == |multiset(t)| == |t|;
    forall x ensures x in s <==> x in t {
      assert x in s <==> x in multiset(s);
      assert x in t <==> x in multiset(t);
    }
  }

  lemma PermutationDistinct<T>(s: seq<T>, t: seq<T>)
    requires Permutation(s, t) && Distinct(s)
    ensures Distinct(t)
  {
    PermutationElements(s, t);
    ElementsCount(s);
    ElementsCount(t);
  }

  /** The pigeonhole step: a duplicate-free list no shorter than another one whose elements cover
      it is a permutation of that other list. */
  lemma CoverIsPermutation<T>(cover: seq<T>, s: seq<T>)
    requires Distinct(s) && |cover| == |s|
    requires forall x :: x in s ==> x in cover
    ensures Permutation(cover, s) && Distinct(cover)
  {
    ElementsCount(s);
    ElementsCount(cover);
    assert Elements(s) <= Elements(cover);
    SubsetCount(Elements(s), Elements(cover));
    DistinctMultiset(s);
    DistinctMultiset(cover);
  }

  /** A list with a repeated element loses that element's multiplicity when one copy is replaced. */
  lemma ReplacingADuplicate<T>(s: seq<T>, i: nat, j: nat, x: T)
    requires i < j < |s| && s[i] == s[j] && x != s[j]
    ensures var t := s[j := x]; |t| == |s| && (forall y :: y in s ==> y in t) && !Permutation(t, s)
  {
    var t := s[j := x];
    forall y | y in s ensures y in t {
      var k :| 0 <= k < |s| && s[k] == y;
      if k == j { assert t[i] == y; } else { assert t[k] == y; }
    }
    assert s == s[..j] + [s[j]] + s[j + 1..];
    assert t == s[..j] + [x] + s[j + 1..];
    assert multiset(t)[s[j]] + 1 == multiset(s)[s[j]];
  }

  // ---------- maps built from a list, the last entry of a key winning ----------

  // ---------- selections ----------

  /** The elements to keep, in order. */
  function Filtered<T>(s: seq<T>, keep: T -> bool): seq<T> {
    if s == [] then []
    else Filtered(s[..|s| - 1], keep) + (if keep(s[|s| - 1]) then [s[|s| - 1]] else [])
  }

  /** `r` consists of the elements of `s` at the positions `at`, which ascend. */
  ghost predicate Picks<T>(at: seq<nat>, s: seq<T>, r: seq<T>) {
    && |at| == |r|
    && (forall k :: 0 <= k < |at| ==> at[k] < |s| && r[k] == s[at[k]])
    && (forall j, k :: 0 <= j < k < |at| ==> at[j] < at[k])
  }

  /** Kept are exactly the elements that are to be kept, each as often as it occurs, in their order. */
  lemma {:induction false} FilteredExactly<T>(s: seq<T>, keep: T -> bool) returns (at: seq<nat>)
    ensures Picks(at, s, Filtered(s, keep))
    ensures forall i :: 0 <= i < |s| ==> (i in at <==> keep(s[i]))
  {
    if s == [] {
      at := [];
    } else {
      var n := |s| - 1;
      var init := FilteredExactly(s[..n], keep);
      at := if keep(s[n]) then init + [n] else init;
      PicksStep(init, s, Filtered(s[..n], keep), keep(s[n]));
      forall i | 0 <= i < |s| ensures i in at <==> keep(s[i]) {
        if i < n {
          assert s[..n][i] == s[i];
        } else {
          assert n !in init;
        }
      }
    }
  }

  lemma PicksStep<T>(at: seq<nat>, s: seq<T>, r: seq<T>, more: bool)
    requires s != [] && Picks(at, s[..|s| - 1], r)
    ensures Picks(if more then at + [|s| - 1] else at, s, if more then r + [s[|s| - 1]] else r)
  {
  }

  /** What is kept, as a set. */
  lemma FilteredMembers<T>(s: seq<T>, keep: T -> bool)
    ensures forall x :: x in Filtered(s, keep) <==> x in s && keep(x)
  {
    var at := FilteredExactly(s, keep);
    var r := Filtered(s, keep);
    forall x | x in r ensures x in s && keep(x) {
      var k :| 0 <= k < |r| && r[k] == x;
      assert at[k] in at;
    }
    forall x | x in s && keep(x) ensures x in r {
      var i :| 0 <= i < |s| && s[i] == x;
      var k :| 0 <= k < |at| && at[k] == i;
      assert r[k] == x;
    }
  }

  // ---------- keys ----------

  function Keys<K, V>(s: seq<V>, key: V -> K): (r: seq<K>)
    ensures |r| == |s| && forall i :: 0 <= i < |s| ==> r[i] == key(s[i])
  {
    seq(|s|, i requires 0 <= i < |s| => key(s[i]))
  }

  function ByKey<K, V>(s: seq<V>, key: V -> K): map<K, V> {
    if s == [] then map[] else ByKey(s[..|s| - 1], key)[key(s[|s| - 1]) := s[|s| - 1]]
  }

  ghost predicate DistinctKeys<K, V>(s: seq<V>, key: V -> K) {
    forall i, j :: 0 <= i < j < |s| ==> key(s[i]) != key(s[j])
  }

  lemma {:induction false} ByKeySound<K, V>(s: seq<V>, key: V -> K)
    ensures forall k :: k in ByKey(s, key) ==> ByKey(s, key)[k] in s && key(ByKey(s, key)[k]) == k
    ensures forall v :: v in s ==> key(v) in ByKey(s, key)
    ensures ByKey(s, key).Keys == Elements(Keys(s, key))
  {
    if s == [] {
      assert Keys(s, key) == [];
    } else {
      var init, last := s[..|s| - 1], s[|s| - 1];
      ByKeySound(init, key);
      assert s == init + [last];
      assert Keys(s, key) == Keys(init, key) + [key(last)];
      forall v | v in s ensures key(v) in ByKey(s, key) {
        assert v in init || v == last;
      }
    }
  }

  /** With distinct keys no entry is overwritten. */
  lemma {:induction false} ByKeyExact<K, V>(s: seq<V>, key: V -> K)
    requires DistinctKeys(s, key)
    ensures forall v :: v in s ==> key(v) in ByKey(s, key) && ByKey(s, key)[key(v)] == v
    ensures |ByKey(s, key)| == |s|
  {
    if s != [] {
      var init, last := s[..|s| - 1], s[|s| - 1];
      assert s == init + [last];
      ByKeyExact(init, key);
      ByKeySound(init, key);
      assert key(last) !in ByKey(init, key);
    }
  }

  /** The size of the map says whether an entry was lost. */
  lemma ByKeySize<K, V>(s: seq<V>, key: V -> K)
    ensures |ByKey(s, key)| == |s| <==> DistinctKeys(s, key)
  {
    ByKeySound(s, key);
    ElementsCount(Keys(s, key));
    assert |ByKey(s, key)| == |ByKey(s, key).Keys|;
    var ks := Keys(s, key);
    if Distinct(ks) {
      assert forall i, j :: 0 <= i < j < |s| ==> ks[i] != ks[j];
    }
    if DistinctKeys(s, key) {
      assert forall i, j :: 0 <= i < j < |ks| ==> key(s[i]) != key(s[j]);
    }
  }

  lemma SameKeys<K, V>(s: seq<V>, t: seq<V>, key: V -> K)
    requires forall x :: x in s ==> x in t
    ensures ByKey(s, key).Keys <= ByKey(t, key).Keys
  {
    ByKeySound(s, key);
    ByKeySound(t, key);
  }

  /** The map does not depend on the order of a list with distinct keys. */
  lemma ByKeyPermutation<K, V>(s: seq<V>, t: seq<V>, key: V -> K)
    requires Permutation(s, t) && DistinctKeys(s, key)
    ensures ByKey(s, key) == ByKey(t, key) && DistinctKeys(t, key)
  {
    PermutationElements(s, t);
    SameKeys(s, t, key);
    SameKeys(t, s, key);
    forall k | k in ByKey(t, key) ensures ByKey(t, key)[k] == ByKey(s, key)[k] {
      ByKeySound(t, key);
      ByKeyExact(s, key);
      assert ByKey(t, key)[k] in s;
    }
    assert ByKey(s, key) == ByKey(t, key);
    ByKeySize(s, key);
    ByKeySize(t, key);
  }

  /** A pairing of two lists: position i of `desired` goes with position p[i] of `fetched`. */
  ghost predicate Pairing<V(!new)>(p: seq<nat>, fetched: seq<V>, desired: seq<V>, matches: (V, V) -> bool) {
    && |p| == |desired| == |fetched|
    && Distinct(p)
    && (forall i :: 0 <= i < |p| ==> p[i] < |fetched|)
    && (forall i :: 0 <= i < |p| ==> matches(fetched[p[i]], desired[i]))
  }

  /** Each key of the desired map is found in the fetched map with a matching value. */
  ghost predicate LookupMatches<K, V>(fetched: map<K, V>, desired: map<K, V>, matches: (V, V) -> bool) {
    forall k :: k in desired ==> k in fetched && matches(fetched[k], desired[k])
  }

  /** The lookup test on two lists of one length is exactly the existence of a key-preserving
      bijection with matching values, as soon as the desired keys are distinct. */
  lemma LookupIsPairing<K, V(!new)>(fetched: seq<V>, desired: seq<V>, key: V -> K, matches: (V, V) -> bool)
    requires DistinctKeys(desired, key)
    requires forall f, d :: matches(f, d) ==> key(f) == key(d)
    ensures (|fetched| == |desired| && LookupMatches(ByKey(fetched, key), ByKey(desired, key), matches))
            <==> exists p :: Pairing(p, fetched, desired, matches)
  {
    if |fetched| == |desired| && LookupMatches(ByKey(fetched, key), ByKey(desired, key), matches) {
      var p := LookupGivesPairing(fetched, desired, key, matches);
    }
    if p :| Pairing(p, fetched, desired, matches) {
      PairingGivesLookup(p, fetched, desired, key, matches);
    }
  }

  lemma LookupGivesPairing<K, V(!new)>(fetched: seq<V>, desired: seq<V>, key: V -> K, matches: (V, V) -> bool)
    returns (p: seq<nat>)
    requires DistinctKeys(desired, key) && |fetched| == |desired|
    requires forall f, d :: matches(f, d) ==> key(f) == key(d)
    requires LookupMatches(ByKey(fetched, key), ByKey(desired, key), matches)
    ensures Pairing(p, fetched, desired, matches)
  {
    var fm, dm := ByKey(fetched, key), ByKey(desired, key);
    ByKeyExact(desired, key);
    ByKeySound(fetched, key);
    forall i | 0 <= i < |desired|
      ensures exists j: nat :: j < |fetched| && matches(fetched[j], desired[i])
    {
      assert desired[i] in desired;
      var v := fm[key(desired[i])];
      var j :| 0 <= j < |fetched| && fetched[j] == v;
    }
    p := seq(|desired|, i requires 0 <= i < |desired| =>
      var j: nat :| j < |fetched| && matches(fetched[j], desired[i]); j);
    forall i, j | 0 <= i < j < |p| ensures p[i] != p[j] {
      assert key(fetched[p[i]]) == key(desired[i]);
      assert key(fetched[p[j]]) == key(desired[j]);
    }
  }

  lemma PairingGivesLookup<K, V(!new)>(p: seq<nat>, fetched: seq<V>, desired: seq<V>, key: V -> K,
                                       matches: (V, V) -> bool)
    requires DistinctKeys(desired, key)
    requires forall f, d :: matches(f, d) ==> key(f) == key(d)
    requires Pairing(p, fetched, desired, matches)
    ensures DistinctKeys(fetched, key)
    ensures LookupMatches(ByKey(fetched, key), ByKey(desired, key), matches)
  {
    var fk, dk := Keys(fetched, key), Keys(desired, key);
    assert Distinct(dk);
    forall k | k in dk ensures k in fk {
      var i :| 0 <= i < |dk| && dk[i] == k;
      assert fk[p[i]] == k;
    }
    CoverIsPermutation(fk, dk);
    assert forall i, j :: 0 <= i < j < |fetched| ==> fk[i] != fk[j];
    ByKeyExact(fetched, key);
    ByKeyExact(desired, key);
    ByKeySound(desired, key);
    forall k | k in ByKey(desired, key)
      ensures k in ByKey(fetched, key) && matches(ByKey(fetched, key)[k], ByKey(desired, key)[k])
    {
      var d := ByKey(desired, key)[k];
      var i :| 0 <= i < |desired| && desired[i] == d;
      assert fetched[p[i]] in fetched;
    }
  }
}
