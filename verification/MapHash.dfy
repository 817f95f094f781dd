/** Text helpers: white space, and the byte-wise order of strings. */
module Texts {
  predicate IsSpace(c: char) {
    || c == ' ' || '\t' <= c <= '\r' || c == '\U{85}' || c == '\U{A0}' || c == '\U{1680}'
    || '\U{2000}' <= c <= '\U{200A}' || c == '\U{2028}' || c == '\U{2029}' || c == '\U{202F}'
    || c == '\U{205F}' || c == '\U{3000}'
  }

  function TrimLeft(s: string): string {
    if s != "" && IsSpace(s[0]) then TrimLeft(s[1..]) else s
  }

  function TrimRight(s: string): string {
    if s != "" && IsSpace(s[|s| - 1]) then TrimRight(s[..|s| - 1]) else s
  }

  function TrimSpace(s: string): string {
    TrimRight(TrimLeft(s))
  }

  lemma {:induction false} TrimLeftFacts(s: string)
    ensures TrimLeft(s) == "" || !IsSpace(TrimLeft(s)[0])
  {
    if s != "" && IsSpace(s[0]) {
      TrimLeftFacts(s[1..]);
    }
  }

  lemma {:induction false} TrimRightFacts(s: string)
    ensures TrimRight(s) == "" || !IsSpace(TrimRight(s)[|TrimRight(s)| - 1])
    ensures TrimRight(s) <= s
  {
    if s != "" && IsSpace(s[|s| - 1]) {
      TrimRightFacts(s[..|s| - 1]);
    }
  }

  /** The white space of Unicode, one by one. */
  lemma WhiteSpace(c: char)
    ensures IsSpace(c) <==>
              c in {'\U{9}', '\U{A}', '\U{B}', '\U{C}', '\U{D}', '\U{20}', '\U{85}', '\U{A0}', '\U{1680}', '\U{2000}',
                    '\U{2001}', '\U{2002}', '\U{2003}', '\U{2004}', '\U{2005}', '\U{2006}', '\U{2007}', '\U{2008}',
                    '\U{2009}', '\U{200A}', '\U{2028}', '\U{2029}', '\U{202F}', '\U{205F}', '\U{3000}'}
  {
  }

  lemma {:induction false} TrimLeftAt(s: string) returns (i: nat)
    ensures i <= |s| && TrimLeft(s) == s[i..] && forall k :: 0 <= k < i ==> IsSpace(s[k])
  {
    i := 0;
    if s != "" && IsSpace(s[0]) {
      var k := TrimLeftAt(s[1..]);
      i := k + 1;
      assert s[1..][k..] == s[i..];
      assert forall n :: 1 <= n < i ==> s[n] == s[1..][n - 1];
    }
  }

  lemma {:induction false} TrimRightAt(s: string) returns (j: nat)
    ensures j <= |s| && TrimRight(s) == s[..j] && forall k :: j <= k < |s| ==> IsSpace(s[k])
  {
    j := |s|;
    if s != "" && IsSpace(s[|s| - 1]) {
      j := TrimRightAt(s[..|s| - 1]);
    }
  }

  /** Trimming leaves a contiguous part; what it cuts off is white space, and what it leaves neither begins
      nor ends with any. */
  lemma TrimSpaceExactly(s: string) returns (i: nat, j: nat)
    ensures i <= j <= |s| && TrimSpace(s) == s[i..j]
    ensures forall k :: 0 <= k < i || j <= k < |s| ==> IsSpace(s[k])
    ensures i < j ==> !IsSpace(s[i]) && !IsSpace(s[j - 1])
  {
    i := TrimLeftAt(s);
    var n := TrimRightAt(TrimLeft(s));
    j := i + n;
    TrimLeftFacts(s);
    TrimRightFacts(TrimLeft(s));
    assert forall k :: j <= k < |s| ==> s[k] == TrimLeft(s)[k - i];
  }

  /** Trimming twice is trimming once. */
  lemma TrimIdempotent(s: string)
    ensures TrimSpace(TrimSpace(s)) == TrimSpace(s)
  {
    TrimLeftFacts(s);
    TrimRightFacts(TrimLeft(s));
  }

  /** Lexicographic order; code points are ordered as their UTF-8 bytes are. */
  predicate Leq(a: string, b: string) {
    a == "" || (b != "" && (a[0] < b[0] || (a[0] == b[0] && Leq(a[1..], b[1..]))))
  }

  lemma {:induction false} LeqTotal(a: string, b: string)
    ensures Leq(a, b) || Leq(b, a)
  {
    if a != "" && b != "" && a[0] == b[0] {
      LeqTotal(a[1..], b[1..]);
    }
  }

  lemma {:induction false} LeqAntisymmetric(a: string, b: string)
    requires Leq(a, b) && Leq(b, a)
    ensures a == b
  {
    if a != "" && b != "" {
      LeqAntisymmetric(a[1..], b[1..]);
      assert a == [a[0]] + a[1..] && b == [b[0]] + b[1..];
    }
  }

  lemma {:induction false} LeqTransitive(a: string, b: string, c: string)
    requires Leq(a, b) && Leq(b, c)
    ensures Leq(a, c)
  {
    if a != "" && a[0] == b[0] && b[0] == c[0] {
      LeqTransitive(a[1..], b[1..], c[1..]);
    }
  }
}

/** The text hashed for a ConfigMap's data: entries in sorted key order, trimmed, as "key=value;". */
module MapHash {
  import opened KeyedLists
  import opened Conditions
  import opened Texts

  ghost predicate Sorted(s: seq<string>) {
    forall i, j :: 0 <= i < j < |s| ==> Leq(s[i], s[j])
  }

  method Insert(s: seq<string>, x: string) returns (r: seq<string>)
    requires Sorted(s)
    ensures Sorted(r) && multiset(r) == multiset(s) + multiset{x}
  {
    var i := 0;
    while i < |s| && Leq(s[i], x)
      invariant i <= |s| && forall j :: 0 <= j < i ==> Leq(s[j], x)
    {
      i := i + 1;
    }
    r := s[..i] + [x] + s[i..];
    assert s == s[..i] + s[i..];
    if i < |s| {
      LeqTotal(s[i], x);
      forall j | i <= j < |s| ensures Leq(x, s[j]) {
        if i < j { LeqTransitive(x, s[i], s[j]); }
      }
    }
  }

  method SortStrings(s: seq<string>) returns (r: seq<string>)
    ensures Sorted(r) && Permutation(r, s)
  {
    r := [];
    for i := 0 to |s|
      invariant Sorted(r) && multiset(r) == multiset(s[..i])
    {
      assert s[..i + 1] == s[..i] + [s[i]];
      r := Insert(r, s[i]);
    }
    assert s[..|s|] == s;
  }

  lemma LeastFirst(s: seq<string>, t: seq<string>)
    requires Sorted(s) && Permutation(s, t) && s != [] && t != []
    ensures Leq(s[0], t[0])
  {
    PermutationElements(s, t);
    assert t[0] in t && t[0] in s;
    var j :| 0 <= j < |s| && s[j] == t[0];
    LeqTotal(s[0], s[0]);
  }

  lemma TailsPermuted(s: seq<string>, t: seq<string>)
    requires Permutation(s, t) && s != [] && t != [] && s[0] == t[0]
    ensures Permutation(s[1..], t[1..])
  {
    assert s == [s[0]] + s[1..] && t == [t[0]] + t[1..];
    assert multiset(s) == multiset{s[0]} + multiset(s[1..]);
    assert multiset(t) == multiset{t[0]} + multiset(t[1..]);
    assert multiset(s[1..]) == multiset(s) - multiset{s[0]};
  }

  /** There is only one sorted arrangement. */
  lemma {:induction false} SortedUnique(s: seq<string>, t: seq<string>)
    requires Sorted(s) && Sorted(t) && Permutation(s, t)
    ensures s == t
  {
    PermutationElements(s, t);
    if s != [] {
      LeastFirst(s, t);
      LeastFirst(t, s);
      LeqAntisymmetric(s[0], t[0]);
      TailsPermuted(s, t);
      SortedUnique(s[1..], t[1..]);
      assert s == [s[0]] + s[1..] && t == [t[0]] + t[1..];
    }
  }

  function Entry(k: string, v: string): string {
    TrimSpace(k) + "=" + TrimSpace(v) + ";"
  }

  function Rendered(m: map<string, string>, keys: seq<string>): string
    requires forall k :: k in keys ==> k in m
  {
    if keys == [] then "" else Entry(keys[0], m[keys[0]]) + Rendered(m, keys[1..])
  }

  ghost predicate SortedKeys(m: map<string, string>, keys: seq<string>) {
    Sorted(keys) && Enumerates(keys, m.Keys)
  }

  /** The text depends on the map alone: any two runs sort its keys into the same sequence. */
  lemma SortedKeysUnique(m: map<string, string>, k1: seq<string>, k2: seq<string>)
    requires SortedKeys(m, k1) && SortedKeys(m, k2)
    ensures k1 == k2
  {
    DistinctMultiset(k1);
    DistinctMultiset(k2);
    SortedUnique(k1, k2);
  }

  /** Collects the keys in whatever order the map is iterated, sorts, concatenates. */
  method HashedText(m: map<string, string>) returns (text: string, keys: seq<string>)
    ensures SortedKeys(m, keys) && text == Rendered(m, keys)
  {
    var order := Enumerate(m.Keys);
    keys := SortStrings(order);
    PermutationElements(keys, order);
    PermutationDistinct(order, keys);
    text := Render(m, keys);
  }

  method Render(m: map<string, string>, keys: seq<string>) returns (text: string)
    requires forall k :: k in keys ==> k in m
    ensures text == Rendered(m, keys)
  {
    text := "";
    assert keys[0..] == keys;
    for i := 0 to |keys|
      invariant text + Rendered(m, keys[i..]) == Rendered(m, keys)
    {
      assert keys[i..][1..] == keys[i + 1..];
      ghost var before := text;
      text := text + Entry(keys[i], m[keys[i]]);
      assert text + Rendered(m, keys[i + 1..]) == before + (Entry(keys[i], m[keys[i]]) + Rendered(m, keys[i + 1..]));
    }
    assert text + "" == text;
  }

  /** Two evaluations on one map hash the same text, whatever the iteration orders. */
  method HashedTwice(m: map<string, string>) returns (t1: string, t2: string)
    ensures t1 == t2
  {
    var k1, k2;
    t1, k1 := HashedText(m);
    t2, k2 := HashedText(m);
    SortedKeysUnique(m, k1, k2);
  }

  // ---------- reading the text back ----------

  function Until(s: string, c: char): (n: nat)
    ensures n <= |s| && (n < |s| ==> s[n] == c) && forall i :: 0 <= i < n ==> s[i] != c
  {
    if s == "" || s[0] == c then 0 else 1 + Until(s[1..], c)
  }

  lemma SplitAt(a: string, c: char, b: string)
    requires c !in a
    ensures var s := a + [c] + b; Until(s, c) == |a| && s[..|a|] == a && s[|a| + 1..] == b
  {
    var s := a + [c] + b;
    assert s[|a|] == c && forall i :: 0 <= i < |a| ==> s[i] == a[i];
    var n := Until(s, c);
    assert n <= |a|;
  }

  /** Reads "key=value;" entries: a key ends at the first '=', a value at the first ';' after it. */
  function Parsed(s: string): seq<(string, string)>
    decreases |s|
  {
    var n := Until(s, '=');
    if n >= |s| then []
    else
      var rest := s[n + 1..];
      var k := Until(rest, ';');
      if k >= |rest| then [] else [(s[..n], rest[..k])] + Parsed(rest[k + 1..])
  }

  function TrimmedPairs(m: map<string, string>, keys: seq<string>): seq<(string, string)>
    requires forall k :: k in keys ==> k in m
  {
    if keys == [] then [] else [(TrimSpace(keys[0]), TrimSpace(m[keys[0]]))] + TrimmedPairs(m, keys[1..])
  }

  /** The entry of a key has no separator where the reader would take it for one. */
  ghost predicate Clean(m: map<string, string>, k: string)
    requires k in m
  {
    '=' !in TrimSpace(k) && ';' !in TrimSpace(m[k])
  }

  ghost predicate Separable(m: map<string, string>) {
    forall k :: k in m ==> Clean(m, k)
  }

  lemma OneEntry(k: string, v: string, tail: string)
    requires '=' !in k && ';' !in v
    ensures Parsed(k + "=" + v + ";" + tail) == [(k, v)] + Parsed(tail)
  {
    var rest := v + ";" + tail;
    assert k + "=" + v + ";" + tail == k + "=" + rest;
    SplitAt(k, '=', rest);
    SplitAt(v, ';', tail);
  }

  /** An entry with a stray separator is misread, whatever follows it. */
  lemma StrayMisread(k: string, v: string, tail: string)
    requires '=' in k || ';' in v
    ensures var p := Parsed(k + "=" + v + ";" + tail); p == [] || p[0] != (k, v)
  {
    var s := k + "=" + v + ";" + tail;
    if '=' in k {
      var i :| 0 <= i < |k| && k[i] == '=';
      assert s[i] == '=';
    } else {
      var rest := v + ";" + tail;
      assert s == k + "=" + rest;
      SplitAt(k, '=', rest);
      var i :| 0 <= i < |v| && v[i] == ';';
      assert rest[i] == ';';
    }
  }

  /** The text reads back as the trimmed entries in key order exactly when no entry has a stray
      separator. */
  lemma {:induction false} ReadsBack(m: map<string, string>, keys: seq<string>)
    requires forall k :: k in keys ==> k in m
    ensures Parsed(Rendered(m, keys)) == TrimmedPairs(m, keys) <==> forall k :: k in keys ==> Clean(m, k)
  {
    if keys != [] {
      var k, tail := keys[0], Rendered(m, keys[1..]);
      assert keys == [k] + keys[1..];
      ReadsBack(m, keys[1..]);
      assert Rendered(m, keys) == TrimSpace(k) + "=" + TrimSpace(m[k]) + ";" + tail;
      if Clean(m, k) {
        OneEntry(TrimSpace(k), TrimSpace(m[k]), tail);
        SameTails((TrimSpace(k), TrimSpace(m[k])), Parsed(tail), TrimmedPairs(m, keys[1..]));
      } else {
        StrayMisread(TrimSpace(k), TrimSpace(m[k]), tail);
      }
    }
  }

  lemma SameTails<T>(x: T, s: seq<T>, t: seq<T>)
    ensures [x] + s == [x] + t <==> s == t
  {
    assert ([x] + s)[1..] == s && ([x] + t)[1..] == t;
  }

  lemma {:induction false} RenderedFromPairs(m1: map<string, string>, k1: seq<string>, m2: map<string, string>,
                                             k2: seq<string>)
    requires (forall k :: k in k1 ==> k in m1) && (forall k :: k in k2 ==> k in m2)
    requires TrimmedPairs(m1, k1) == TrimmedPairs(m2, k2)
    ensures Rendered(m1, k1) == Rendered(m2, k2)
  {
    if k1 != [] {
      var p1, p2 := TrimmedPairs(m1, k1), TrimmedPairs(m2, k2);
      assert p1[0] == p2[0] && p1[1..] == p2[1..];
      assert p1[1..] == TrimmedPairs(m1, k1[1..]) && p2[1..] == TrimmedPairs(m2, k2[1..]);
      RenderedFromPairs(m1, k1[1..], m2, k2[1..]);
    }
  }

  /** Two maps hash the same text exactly when their trimmed entries agree: no change of the data is
      hidden except one of surrounding white space. */
  lemma InjectiveUpToTrimming(m1: map<string, string>, k1: seq<string>, m2: map<string, string>, k2: seq<string>)
    requires SortedKeys(m1, k1) && SortedKeys(m2, k2) && Separable(m1) && Separable(m2)
    ensures Rendered(m1, k1) == Rendered(m2, k2) <==> TrimmedPairs(m1, k1) == TrimmedPairs(m2, k2)
  {
    ReadsBack(m1, k1);
    ReadsBack(m2, k2);
    if TrimmedPairs(m1, k1) == TrimmedPairs(m2, k2) {
      RenderedFromPairs(m1, k1, m2, k2);
    }
  }

  lemma NothingToTrim(s: string)
    requires s != "" && !IsSpace(s[0]) && !IsSpace(s[|s| - 1])
    ensures TrimSpace(s) == s
  {
  }

  /** A trimmed text has no white space at either end. */
  lemma TrimmedEnds(s: string)
    requires TrimSpace(s) == s && s != ""
    ensures !IsSpace(s[0]) && !IsSpace(s[|s| - 1])
  {
    TrimLeftFacts(s);
    TrimRightFacts(TrimLeft(s));
    assert s <= TrimLeft(s);
  }

  lemma RenderedOne(m: map<string, string>, k: string)
    requires k in m
    ensures Rendered(m, [k]) == Entry(k, m[k]) && TrimmedPairs(m, [k]) == [(TrimSpace(k), TrimSpace(m[k]))]
  {
    assert [k][1..] == [];
    assert Entry(k, m[k]) + "" == Entry(k, m[k]);
  }

  lemma RenderedTwo(m: map<string, string>, k1: string, k2: string)
    requires k1 in m && k2 in m
    ensures Rendered(m, [k1, k2]) == Entry(k1, m[k1]) + Entry(k2, m[k2]) && |TrimmedPairs(m, [k1, k2])| == 2
  {
    assert [k1, k2][1..] == [k2];
    RenderedOne(m, k2);
  }

  /** A value that spells out a further entry is left alone by trimming when its parts are. */
  lemma SpelledOut(v1: string, k2: string, v2: string)
    requires TrimSpace(v1) == v1 && TrimSpace(v2) == v2
    ensures var w := v1 + ";" + k2 + "=" + v2; TrimSpace(w) == w
  {
    var w := v1 + ";" + k2 + "=" + v2;
    if v1 != "" { TrimmedEnds(v1); }
    if v2 != "" { TrimmedEnds(v2); }
    assert w[0] == if v1 != "" then v1[0] else ';';
    assert w[|w| - 1] == if v2 != "" then v2[|v2| - 1] else '=';
    NothingToTrim(w);
  }

  /** Without that restriction different data hash the same text: any two trimmed entries collide with
      the one entry whose value spells the second of them out. */
  lemma SeparatorsCollide(k1: string, v1: string, k2: string, v2: string)
    requires k1 != k2 && Leq(k1, k2)
    requires TrimSpace(k1) == k1 && TrimSpace(v1) == v1 && TrimSpace(k2) == k2 && TrimSpace(v2) == v2
    ensures var m1, m2 := map[k1 := v1 + ";" + k2 + "=" + v2], map[k1 := v1, k2 := v2];
            && SortedKeys(m1, [k1]) && SortedKeys(m2, [k1, k2])
            && Rendered(m1, [k1]) == Rendered(m2, [k1, k2])
            && TrimmedPairs(m1, [k1]) != TrimmedPairs(m2, [k1, k2])
  {
    var w := v1 + ";" + k2 + "=" + v2;
    SpelledOut(v1, k2, v2);
    RenderedOne(map[k1 := w], k1);
    RenderedTwo(map[k1 := v1, k2 := v2], k1, k2);
    SameText(k1, v1, k2, v2);
  }

  lemma SameText(k1: string, v1: string, k2: string, v2: string)
    ensures k1 + "=" + (v1 + ";" + k2 + "=" + v2) + ";" == (k1 + "=" + v1 + ";") + (k2 + "=" + v2 + ";")
  {
  }
}
