/** Shared vocabulary: optional values, string predicates used by several
    components, code-point lexicographic order and decimal digit strings. */
module Common {

  datatype Option<+T> = None | Some(value: T)

  /** `s` begins with `prefix` (Python `str.startswith`, JS `startsWith`). */
  predicate StartsWith(s: string, prefix: string) {
    |prefix| <= |s| && s[..|prefix|] == prefix
  }

  /** `s` ends with `suffix` (Python `str.endswith`). */
  predicate EndsWith(s: string, suffix: string) {
    |suffix| <= |s| && s[|s| - |suffix|..] == suffix
  }

  /** `sub` occurs in `s` starting at index `i`. */
  predicate OccursAt(s: string, sub: string, i: int) {
    0 <= i && i + |sub| <= |s| && s[i..i + |sub|] == sub
  }

  /** Case-sensitive substring test (JS `includes`, Python `in`, `re.search`
      of a literal pattern). */
  predicate Contains(s: string, sub: string) {
    exists i :: 0 <= i <= |s| - |sub| && OccursAt(s, sub, i)
  }

  lemma {:induction false} ContainsNeedsChar(s: string, sub: string, k: int)
    requires 0 <= k < |sub| && Contains(s, sub)
    ensures sub[k] in s
  {
    var i :| 0 <= i <= |s| - |sub| && OccursAt(s, sub, i);
    assert s[i..i + |sub|][k] == s[i + k];
  }

  /** A string that lacks some character of `sub` does not hold `sub`. */
  lemma NotContainsWithoutChar(s: string, sub: string, k: int)
    requires 0 <= k < |sub| && sub[k] !in s
    ensures !Contains(s, sub)
  {
    if Contains(s, sub) {
      ContainsNeedsChar(s, sub, k);
    }
  }

  lemma NotContainsWithout(s: string, sub: string, c: char)
    requires c in sub && c !in s
    ensures !Contains(s, sub)
  {
    var k :| 0 <= k < |sub| && sub[k] == c;
    NotContainsWithoutChar(s, sub, k);
  }

  /** `c` does not occur in `s`, checked character by character. */
  predicate Lacks(s: string, c: char)
    decreases |s|
  {
    s == [] || (s[0] != c && Lacks(s[1..], c))
  }

  lemma {:induction false} LacksMeansAbsent(s: string, c: char)
    ensures Lacks(s, c) <==> c !in s
    decreases |s|
  {
    if s != [] {
      LacksMeansAbsent(s[1..], c);
      assert s == [s[0]] + s[1..];
    }
  }

  lemma ContainsWitness(s: string, sub: string, i: int)
    requires OccursAt(s, sub, i)
    ensures Contains(s, sub)
  {
  }

  lemma ContainsMiddle(a: string, b: string, c: string)
    ensures Contains(a + b + c, b)
  {
    assert (a + b + c)[|a|..|a| + |b|] == b;
    ContainsWitness(a + b + c, b, |a|);
  }

  /** `Math.abs`, Python `abs`. */
  function Abs(x: real): (r: real)
    ensures r >= 0.0 && (r == x || r == -x)
  {
    if x < 0.0 then -x else x
  }

  // ---------------------------------------------------------------------
  // Code-point lexicographic order (Python `str` comparison)

  /** `a` sorts at or before `b` when both are compared code point by code point. */
  predicate LexLe(a: string, b: string)
    decreases |a|
  {
    if a == [] then true
    else if b == [] then false
    else if a[0] != b[0] then a[0] < b[0]
    else LexLe(a[1..], b[1..])
  }

  lemma {:induction false} LexLeReflexive(a: string)
    ensures LexLe(a, a)
    decreases |a|
  {
    if a != [] {
      LexLeReflexive(a[1..]);
    }
  }

  lemma {:induction false} LexLeTotal(a: string, b: string)
    ensures LexLe(a, b) || LexLe(b, a)
    decreases |a|
  {
    if a != [] && b != [] && a[0] == b[0] {
      LexLeTotal(a[1..], b[1..]);
    }
  }

  lemma {:induction false} LexLeAntisymmetric(a: string, b: string)
    requires LexLe(a, b) && LexLe(b, a)
    ensures a == b
    decreases |a|
  {
    if a != [] && b != [] {
      LexLeAntisymmetric(a[1..], b[1..]);
      assert a == [a[0]] + a[1..];
      assert b == [b[0]] + b[1..];
    }
  }

  lemma {:induction false} LexLeTransitive(a: string, b: string, c: string)
    requires LexLe(a, b) && LexLe(b, c)
    ensures LexLe(a, c)
    decreases |a|
  {
    if a != [] && b != [] && c != [] && a[0] == b[0] && b[0] == c[0] {
      LexLeTransitive(a[1..], b[1..], c[1..]);
    }
  }

  /** Comparing two strings that share a prefix of equal length compares
      the prefixes first and the rests only when the prefixes agree. */
  lemma {:induction false} LexLeAppend(p: string, q: string, p': string, q': string)
    requires |p| == |p'|
    ensures LexLe(p + q, p' + q') == if p == p' then LexLe(q, q') else LexLe(p, p')
    decreases |p|
  {
    if p == [] {
      assert p + q == q && p' + q' == q';
    } else {
      assert (p + q)[0] == p[0] && (p' + q')[0] == p'[0];
      if p[0] == p'[0] {
        assert (p + q)[1..] == p[1..] + q;
        assert (p' + q')[1..] == p'[1..] + q';
        LexLeAppend(p[1..], q, p'[1..], q');
        assert p == [p[0]] + p[1..] && p' == [p'[0]] + p'[1..];
        assert p == p' <==> p[1..] == p'[1..];
      }
    }
  }

  // ---------------------------------------------------------------------
  // Decimal digit strings

  predicate IsDigit(c: char) {
    '0' <= c <= '9'
  }

  /** Every character is an ASCII decimal digit (the empty string included). */
  predicate AllDigits(s: string) {
    forall i :: 0 <= i < |s| ==> IsDigit(s[i])
  }

  function DigitValue(c: char): (d: nat)
    ensures d < 10
  {
    if IsDigit(c) then c as int - '0' as int else 0
  }

  function DigitChar(d: nat): (c: char)
    requires d < 10
    ensures IsDigit(c) && DigitValue(c) == d
  {
    (d + '0' as int) as char
  }

  /** Value of a decimal digit string read most significant digit first
      (Python `int(k)` on an ASCII digit string). */
  function DecimalValue(s: string): nat
    decreases |s|
  {
    if s == [] then 0 else DecimalValue(s[..|s| - 1]) * 10 + DigitValue(s[|s| - 1])
  }

  function Pow10(n: nat): (p: nat)
    ensures p >= 1
  {
    if n == 0 then 1 else 10 * Pow10(n - 1)
  }

  lemma {:induction false} DecimalValueBound(s: string)
    ensures DecimalValue(s) < Pow10(|s|)
    decreases |s|
  {
    if s != [] {
      DecimalValueBound(s[..|s| - 1]);
    }
  }

  lemma ShiftDecimal(a: int, b: int, c: int)
    ensures (a * b + c) * 10 == a * (10 * b) + c * 10
  {
  }

  /** Reading a digit string from the front: the first digit weighs 10^(n-1). */
  lemma {:induction false} DecimalValueFront(s: string)
    requires s != []
    ensures DecimalValue(s) == DigitValue(s[0]) * Pow10(|s| - 1) + DecimalValue(s[1..])
    decreases |s|
  {
    if |s| > 1 {
      var init := s[..|s| - 1];
      var last := DigitValue(s[|s| - 1]);
      var tail := s[1..];
      DecimalValueFront(init);
      assert init[0] == s[0];
      assert tail[..|tail| - 1] == init[1..];
      assert tail[|tail| - 1] == s[|s| - 1];
      assert DecimalValue(tail) == DecimalValue(init[1..]) * 10 + last;
      assert DecimalValue(s) == DecimalValue(init) * 10 + last;
      ShiftDecimal(DigitValue(s[0]), Pow10(|s| - 2), DecimalValue(init[1..]));
    } else {
      assert s[..0] == [];
      assert s[1..] == [];
    }
  }

  /** A larger leading digit outweighs whatever follows it. */
  lemma LeadingDigitDominates(da: nat, db: nat, p: nat, x: nat, y: nat)
    requires da < db && x < p
    ensures da * p + x < db * p + y
  {
    var m: nat := db - da - 1;
    assert db * p == da * p + p + m * p;
  }

  /** On digit strings of equal length, code-point order is numeric order. */
  lemma {:induction false} LexLeIsNumericOrder(a: string, b: string)
    requires |a| == |b| && AllDigits(a) && AllDigits(b)
    ensures LexLe(a, b) <==> DecimalValue(a) <= DecimalValue(b)
    ensures a == b <==> DecimalValue(a) == DecimalValue(b)
    decreases |a|
  {
    if a != [] {
      var n := |a| - 1;
      DecimalValueFront(a);
      DecimalValueFront(b);
      DecimalValueBound(a[1..]);
      DecimalValueBound(b[1..]);
      LexLeIsNumericOrder(a[1..], b[1..]);
      var da, db := DigitValue(a[0]), DigitValue(b[0]);
      var p := Pow10(n);
      if a[0] != b[0] {
        assert da != db;
        if da < db {
          LeadingDigitDominates(da, db, p, DecimalValue(a[1..]), DecimalValue(b[1..]));
        } else {
          LeadingDigitDominates(db, da, p, DecimalValue(b[1..]), DecimalValue(a[1..]));
        }
      } else {
        assert a == [a[0]] + a[1..] && b == [b[0]] + b[1..];
      }
    }
  }

  /** Decimal notation of a natural number, without leading zeros. */
  function NatToDecimal(n: nat): (s: string)
    ensures |s| > 0 && AllDigits(s) && DecimalValue(s) == n
    ensures s[0] != '0' || n == 0
    decreases n
  {
    if n < 10 then [DigitChar(n)]
    else
      var init := NatToDecimal(n / 10);
      var s := init + [DigitChar(n % 10)];
      assert s[..|s| - 1] == init;
      s
  }

  /** Python `str(i)` and JS template formatting of an integer. */
  function IntToDecimal(i: int): (s: string)
    ensures |s| > 0
    ensures i >= 0 ==> AllDigits(s) && DecimalValue(s) == i
    ensures i < 0 ==> s[0] == '-' && AllDigits(s[1..]) && DecimalValue(s[1..]) == -i
  {
    if i >= 0 then NatToDecimal(i) else "-" + NatToDecimal(-i)
  }

  // ---------------------------------------------------------------------
  // Sequence helpers

  function Filter<T>(s: seq<T>, p: T -> bool): (r: seq<T>)
    ensures |r| <= |s|
    ensures forall x :: x in r ==> x in s && p(x)
    decreases |s|
  {
    if s == [] then []
    else if p(s[0]) then [s[0]] + Filter(s[1..], p)
    else Filter(s[1..], p)
  }

  lemma {:induction false} FilterAppend<T>(a: seq<T>, b: seq<T>, p: T -> bool)
    ensures Filter(a + b, p) == Filter(a, p) + Filter(b, p)
    decreases |a|
  {
    if a == [] {
      assert a + b == b;
    } else {
      assert (a + b)[0] == a[0];
      assert (a + b)[1..] == a[1..] + b;
      FilterAppend(a[1..], b, p);
    }
  }

  lemma {:induction false} FilterAll<T>(s: seq<T>, p: T -> bool)
    requires forall i :: 0 <= i < |s| ==> p(s[i])
    ensures Filter(s, p) == s
    decreases |s|
  {
    if s != [] {
      FilterAll(s[1..], p);
    }
  }

  lemma {:induction false} FilterNone<T>(s: seq<T>, p: T -> bool)
    requires forall i :: 0 <= i < |s| ==> !p(s[i])
    ensures Filter(s, p) == []
    decreases |s|
  {
    if s != [] {
      FilterNone(s[1..], p);
    }
  }

  /** `Filter` keeps exactly the elements that satisfy `p`. */
  lemma {:induction false} FilterContains<T>(s: seq<T>, p: T -> bool, x: T)
    ensures x in Filter(s, p) <==> x in s && p(x)
    decreases |s|
  {
    if s != [] {
      FilterContains(s[1..], p, x);
      assert s == [s[0]] + s[1..];
    }
  }

  /** The elements kept by `p` and those it drops together make up `s`. */
  lemma {:induction false} FilterSplit<T>(s: seq<T>, p: T -> bool, q: T -> bool)
    requires forall x :: q(x) == !p(x)
    ensures multiset(Filter(s, p)) + multiset(Filter(s, q)) == multiset(s)
    decreases |s|
  {
    if s != [] {
      assert s == [s[0]] + s[1..];
      FilterSplit(s[1..], p, q);
    }
  }

  /** The first kept element of `s` is the first element satisfying `p`. */
  lemma {:induction false} FilterHead<T>(s: seq<T>, p: T -> bool, i: nat)
    requires i < |s| && p(s[i])
    requires forall j :: 0 <= j < i ==> !p(s[j])
    ensures Filter(s, p) != [] && Filter(s, p)[0] == s[i]
    decreases i
  {
    if i > 0 {
      FilterHead(s[1..], p, i - 1);
    }
  }

  /** Index of the first element satisfying `p`. */
  function FirstIndex<T>(s: seq<T>, p: T -> bool): (i: nat)
    requires exists k :: 0 <= k < |s| && p(s[k])
    ensures i < |s| && p(s[i])
    ensures forall j :: 0 <= j < i ==> !p(s[j])
    decreases |s|
  {
    if p(s[0]) then 0
    else
      assert exists k :: 0 <= k < |s[1..]| && p(s[1..][k]) by {
        var k :| 0 <= k < |s| && p(s[k]);
        assert k > 0 && s[1..][k - 1] == s[k];
      }
      1 + FirstIndex(s[1..], p)
  }

  /** A sequence is its prefix followed by the rest. */
  lemma SplitAt<T>(s: seq<T>, k: nat)
    requires k <= |s|
    ensures s == s[..k] + s[k..]
  {
  }

  /** Element-wise application (JS `Array.prototype.map`, a list comprehension). */
  function MapSeq<T, U>(f: T -> U, s: seq<T>): (r: seq<U>)
    ensures |r| == |s|
    ensures forall i :: 0 <= i < |s| ==> r[i] == f(s[i])
    decreases |s|
  {
    if s == [] then [] else [f(s[0])] + MapSeq(f, s[1..])
  }

  lemma {:induction false} MapSeqAppend<T, U>(f: T -> U, a: seq<T>, b: seq<T>)
    ensures MapSeq(f, a + b) == MapSeq(f, a) + MapSeq(f, b)
  {
  }

  /** Mapping one more element of a prefix appends its image. */
  lemma MapSeqPrefix<T, U>(f: T -> U, s: seq<T>, i: nat)
    requires i < |s|
    ensures MapSeq(f, s[..i + 1]) == MapSeq(f, s[..i]) + [f(s[i])]
  {
    assert s[..i + 1] == s[..i] + [s[i]];
    MapSeqAppend(f, s[..i], [s[i]]);
  }

  /** Taking the same element out of two permutations of each other leaves
      permutations of each other. */
  lemma RemoveMatching<T>(a: seq<T>, b: seq<T>, k: nat)
    requires multiset(a) == multiset(b) && a != [] && k < |b| && b[k] == a[0]
    ensures multiset(a[1..]) == multiset(b[..k] + b[k + 1..])
  {
    assert a == [a[0]] + a[1..];
    SplitAround(b, k);
    assert multiset(a[1..]) == multiset(a) - multiset{a[0]};
    assert multiset(b[..k] + b[k + 1..]) == multiset(b) - multiset{a[0]};
  }

  lemma SplitAround<T>(b: seq<T>, k: nat)
    requires k < |b|
    ensures b == (b[..k] + [b[k]]) + b[k + 1..]
  {
  }

  /** Mapping `b1 + [x] + b2` yields the image of `x` plus the image of the rest. */
  lemma MapSeqWithout<T, U>(f: T -> U, b1: seq<T>, x: T, b2: seq<T>)
    ensures multiset(MapSeq(f, (b1 + [x]) + b2)) == multiset(MapSeq(f, b1 + b2)) + multiset{f(x)}
  {
    MapSeqAppend(f, b1 + [x], b2);
    MapSeqAppend(f, b1, [x]);
    MapSeqAppend(f, b1, b2);
  }

  /** Applying a function element-wise keeps permutations permutations. */
  lemma {:induction false} MapPermutation<T, U>(f: T -> U, a: seq<T>, b: seq<T>)
    requires multiset(a) == multiset(b)
    ensures multiset(MapSeq(f, a)) == multiset(MapSeq(f, b))
    decreases |a|
  {
    if a != [] {
      assert a == [a[0]] + a[1..];
      assert a[0] in multiset(b);
      var k :| 0 <= k < |b| && b[k] == a[0];
      RemoveMatching(a, b, k);
      MapPermutation(f, a[1..], b[..k] + b[k + 1..]);
      SplitAround(b, k);
      MapSeqWithout(f, b[..k], b[k], b[k + 1..]);
      MapSeqAppend(f, [a[0]], a[1..]);
    }
  }

  // ---------------------------------------------------------------------
  // Dictionaries kept as entries in insertion order

  /** The value stored under `k`, if any: the first entry with that key. */
  function Lookup<K(==), V>(d: seq<(K, V)>, k: K): (r: Option<V>)
    ensures r.None? <==> forall i :: 0 <= i < |d| ==> d[i].0 != k
    ensures r.Some? ==> exists i :: 0 <= i < |d| && d[i] == (k, r.value)
    decreases |d|
  {
    if d == [] then None
    else if d[0].0 == k then Some(d[0].1)
    else
      var r := Lookup(d[1..], k);
      assert forall i :: 1 <= i < |d| ==> d[i] == d[1..][i - 1];
      r
  }

  /** With distinct keys, every entry is what its key looks up. */
  lemma {:induction false} LookupDistinct<K, V>(d: seq<(K, V)>, i: nat)
    requires DistinctKeys(d) && i < |d|
    ensures Lookup(d, d[i].0) == Some(d[i].1)
    decreases i
  {
    if i > 0 {
      assert d[1..][i - 1] == d[i];
      LookupDistinct(d[1..], i - 1);
    }
  }

  /** No key occurs twice. */
  predicate DistinctKeys<K(==), V>(d: seq<(K, V)>) {
    forall i, j :: 0 <= i < j < |d| ==> d[i].0 != d[j].0
  }

  /** `d.values()`, as a set. */
  function Values<K, V>(d: seq<(K, V)>): set<V> {
    set i | 0 <= i < |d| :: d[i].1
  }

  lemma ValuesSingle<K, V>(k: K, v: V)
    ensures Values([(k, v)]) == {v}
  {
    assert [(k, v)][0].1 == v;
  }

  /** `d[k] = v`: an existing key keeps its position and takes the new value;
      a new key is appended. */
  function DictSet<K(==,!new), V>(d: seq<(K, V)>, k: K, v: V): (r: seq<(K, V)>)
    ensures |r| == if Lookup(d, k).Some? then |d| else |d| + 1
    ensures forall i :: 0 <= i < |d| ==> r[i].0 == d[i].0
    ensures forall i :: 0 <= i < |d| && d[i].0 != k ==> r[i] == d[i]
    ensures Lookup(d, k).None? ==> r == d + [(k, v)]
    decreases |d|
  {
    if d == [] then [(k, v)]
    else if d[0].0 == k then [(k, v)] + d[1..]
    else [d[0]] + DictSet(d[1..], k, v)
  }

  /** After `d[k] = v`, looking up `k` finds `v` and every other key finds
      what it found before. */
  lemma {:induction false} DictSetLookup<K(!new), V>(d: seq<(K, V)>, k: K, v: V)
    ensures Lookup(DictSet(d, k, v), k) == Some(v)
    ensures forall k' :: k' != k ==> Lookup(DictSet(d, k, v), k') == Lookup(d, k')
    decreases |d|
  {
    if d != [] && d[0].0 != k {
      DictSetLookup(d[1..], k, v);
    }
  }

  lemma DictSetDistinct<K(!new), V>(d: seq<(K, V)>, k: K, v: V)
    requires DistinctKeys(d)
    ensures DistinctKeys(DictSet(d, k, v))
  {
  }

  /** With distinct keys, the entry that carries `k` after `d[k] = v` holds `v`. */
  lemma DictSetValue<K(!new), V>(d: seq<(K, V)>, k: K, v: V)
    requires DistinctKeys(d)
    ensures forall e :: e in DictSet(d, k, v) && e.0 == k ==> e.1 == v
  {
    var r := DictSet(d, k, v);
    DictSetDistinct(d, k, v);
    DictSetLookup(d, k, v);
    forall e | e in r && e.0 == k
      ensures e.1 == v
    {
      var i :| 0 <= i < |r| && r[i] == e;
      LookupDistinct(r, i);
    }
  }

  /** Every entry after `d[k] = v` was already in `d` or is `(k, v)`. */
  lemma DictSetEntries<K(!new), V>(d: seq<(K, V)>, k: K, v: V)
    requires DistinctKeys(d)
    ensures var r := DictSet(d, k, v);
            forall i :: 0 <= i < |r| ==> r[i] in d || r[i] == (k, v)
  {
    var r := DictSet(d, k, v);
    DictSetValue(d, k, v);
    forall i | 0 <= i < |r|
      ensures r[i] in d || r[i] == (k, v)
    {
      if i < |d| && d[i].0 != k {
        assert r[i] == d[i];
      } else {
        if i >= |d| {
          assert r == d + [(k, v)];
        }
        assert r[i].0 == k && r[i] in r;
      }
    }
  }

  /** A property of every entry and of the stored pair holds of every entry
      after `d[k] = v`. */
  lemma DictSetPreserves<K(!new), V>(d: seq<(K, V)>, k: K, v: V, p: ((K, V)) -> bool)
    requires DistinctKeys(d)
    requires forall i :: 0 <= i < |d| ==> p(d[i])
    requires p((k, v))
    ensures var r := DictSet(d, k, v);
            forall i :: 0 <= i < |r| ==> p(r[i])
  {
    DictSetEntries(d, k, v);
  }

  /** Storing entries taken from `s` leaves only entries taken from `s`. */
  lemma DictSetWithin<K(!new), V>(d: seq<(K, V)>, k: K, v: V, s: seq<(K, V)>)
    requires DistinctKeys(d) && (k, v) in s
    requires forall i :: 0 <= i < |d| ==> d[i] in s
    ensures forall e :: e in DictSet(d, k, v) ==> e in s
  {
    DictSetEntries(d, k, v);
  }

  /** Overwriting the only key of a one-entry dict. */
  lemma DictSetSingle<K(!new), V>(k: K, v: V, w: V)
    ensures DictSet([(k, v)], k, w) == [(k, w)]
  {
    assert [(k, v)][1..] == [];
  }

  /** No value occurs twice. */
  predicate DistinctValues<K, V(==)>(d: seq<(K, V)>) {
    forall i, j :: 0 <= i < j < |d| ==> d[i].1 != d[j].1
  }

  /** Storing a value not yet present keeps the values distinct. */
  lemma DictSetDistinctValues<K(!new), V>(d: seq<(K, V)>, k: K, v: V)
    requires DistinctKeys(d) && DistinctValues(d) && v !in Values(d)
    ensures DistinctValues(DictSet(d, k, v))
  {
    var r := DictSet(d, k, v);
    DictSetValue(d, k, v);
    assert forall i :: 0 <= i < |d| ==> d[i].1 in Values(d);
    forall i, j | 0 <= i < j < |r|
      ensures r[i].1 != r[j].1
    {
      if r[i].0 != k && r[j].0 != k && j < |d| {
        assert r[i] == d[i] && r[j] == d[j];
      }
    }
  }
}
