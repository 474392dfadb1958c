/** Stable sorting, as `Array.prototype.sort` (stable since the 2019 edition
    of ECMA-262) and Python's `sorted` perform it. With a consistent
    comparator a stable sort has exactly one possible result, so the model
    computes it by insertion: `le(x, y)` holds when `x` may stand before `y`. */
module Sorting {
  import opened Common

  /** `le` is total and transitive: the comparator is consistent. */
  ghost predicate TotalPreorder<T(!new)>(le: (T, T) -> bool) {
    && (forall a, b :: le(a, b) || le(b, a))
    && (forall a, b, c :: le(a, b) && le(b, c) ==> le(a, c))
  }

  predicate SortedBy<T>(s: seq<T>, le: (T, T) -> bool) {
    forall i, j :: 0 <= i < j < |s| ==> le(s[i], s[j])
  }

  /** `x` and `a` compare equal: neither sorts strictly before the other. */
  function EquivTo<T>(le: (T, T) -> bool, a: T): T -> bool {
    x => le(x, a) && le(a, x)
  }

  /** Inserts `x` behind every element that may stand before it. */
  function Insert<T>(r: seq<T>, x: T, le: (T, T) -> bool): (out: seq<T>)
    ensures multiset(out) == multiset(r) + multiset{x}
    decreases |r|
  {
    if r == [] || le(r[|r| - 1], x) then r + [x]
    else
      var init := r[..|r| - 1];
      assert r == init + [r[|r| - 1]];
      Insert(init, x, le) + [r[|r| - 1]]
  }

  /** The stable sort of `s` under `le`. */
  function SortBy<T>(s: seq<T>, le: (T, T) -> bool): (r: seq<T>)
    ensures multiset(r) == multiset(s)
    ensures |r| == |s|
    decreases |s|
  {
    if s == [] then []
    else
      var init := s[..|s| - 1];
      assert s == init + [s[|s| - 1]];
      Insert(SortBy(init, le), s[|s| - 1], le)
  }

  lemma {:induction false} InsertSorted<T(!new)>(r: seq<T>, x: T, le: (T, T) -> bool)
    requires TotalPreorder(le) && SortedBy(r, le)
    ensures SortedBy(Insert(r, x, le), le)
    decreases |r|
  {
    if r != [] && !le(r[|r| - 1], x) {
      var init, last := r[..|r| - 1], r[|r| - 1];
      InsertSorted(init, x, le);
      var ins := Insert(init, x, le);
      forall y | y in ins
        ensures le(y, last)
      {
        assert y in multiset(ins);
        if y != x {
          var k :| 0 <= k < |init| && init[k] == y;
          assert r[k] == y;
        }
      }
      assert Insert(r, x, le) == ins + [last];
    }
  }

  /** The result of `SortBy` is in order. */
  lemma {:induction false} SortBySorted<T(!new)>(s: seq<T>, le: (T, T) -> bool)
    requires TotalPreorder(le)
    ensures SortedBy(SortBy(s, le), le)
    decreases |s|
  {
    if s != [] {
      SortBySorted(s[..|s| - 1], le);
      InsertSorted(SortBy(s[..|s| - 1], le), s[|s| - 1], le);
    }
  }

  /** Two elements of which one sorts strictly after the other are not both
      equivalent to `a`. */
  lemma NotBothEquivalent<T(!new)>(le: (T, T) -> bool, a: T, x: T, y: T)
    requires TotalPreorder(le) && !le(y, x)
    ensures !(EquivTo(le, a)(x) && EquivTo(le, a)(y))
  {
  }

  lemma {:induction false} InsertStable<T(!new)>(r: seq<T>, x: T, le: (T, T) -> bool, a: T)
    requires TotalPreorder(le)
    ensures Filter(Insert(r, x, le), EquivTo(le, a))
         == Filter(r, EquivTo(le, a)) + Filter([x], EquivTo(le, a))
    decreases |r|
  {
    var p := EquivTo(le, a);
    if r == [] || le(r[|r| - 1], x) {
      FilterAppend(r, [x], p);
    } else {
      var init, last := r[..|r| - 1], r[|r| - 1];
      assert r == init + [last];
      InsertStable(init, x, le, a);
      FilterAppend(Insert(init, x, le), [last], p);
      FilterAppend(init, [last], p);
      NotBothEquivalent(le, a, x, last);
    }
  }

  /** Stability: the elements of each equivalence class keep their order. */
  lemma {:induction false} SortByStable<T(!new)>(s: seq<T>, le: (T, T) -> bool, a: T)
    requires TotalPreorder(le)
    ensures Filter(SortBy(s, le), EquivTo(le, a)) == Filter(s, EquivTo(le, a))
    decreases |s|
  {
    if s != [] {
      var p := EquivTo(le, a);
      var init, last := s[..|s| - 1], s[|s| - 1];
      assert s == init + [last];
      var sorted := SortBy(init, le);
      SortBySnoc(s, le);
      SortByStable(init, le, a);
      InsertStable(sorted, last, le, a);
      FilterAppend(init, [last], p);
      calc {
        Filter(SortBy(s, le), p);
        Filter(sorted, p) + Filter([last], p);
        Filter(init, p) + Filter([last], p);
        Filter(init + [last], p);
      }
    }
  }

  /** Sorting what is already in order changes nothing (so sorting is idempotent). */
  lemma SortBySnoc<T>(s: seq<T>, le: (T, T) -> bool)
    requires s != []
    ensures SortBy(s, le) == Insert(SortBy(s[..|s| - 1], le), s[|s| - 1], le)
  {
  }

  lemma InsertAtEnd<T>(r: seq<T>, x: T, le: (T, T) -> bool)
    requires r == [] || le(r[|r| - 1], x)
    ensures Insert(r, x, le) == r + [x]
  {
  }

  /** Dropping the last element of a sorted sequence leaves it sorted, and
      that element may stand behind the new last one. */
  lemma SortedInit<T>(s: seq<T>, le: (T, T) -> bool)
    requires SortedBy(s, le) && s != []
    ensures SortedBy(s[..|s| - 1], le)
    ensures |s| > 1 ==> le(s[|s| - 2], s[|s| - 1])
  {
  }

  lemma {:induction false} SortByOfSorted<T>(s: seq<T>, le: (T, T) -> bool)
    requires SortedBy(s, le)
    ensures SortBy(s, le) == s
    decreases |s|
  {
    if s != [] {
      var init, last := s[..|s| - 1], s[|s| - 1];
      assert init + [last] == s;
      SortedInit(s, le);
      SortByOfSorted(init, le);
      SortBySnoc(s, le);
      InsertAtEnd(init, last, le);
    }
  }


  lemma SortByIdempotent<T(!new)>(s: seq<T>, le: (T, T) -> bool)
    requires TotalPreorder(le)
    ensures SortBy(SortBy(s, le), le) == SortBy(s, le)
  {
    SortBySorted(s, le);
    SortByOfSorted(SortBy(s, le), le);
  }

  /** `s[i]` may stand before every element of `s`, and no earlier element may
      stand before it: the first of the least elements. */
  ghost predicate IsFirstLeast<T>(s: seq<T>, i: int, le: (T, T) -> bool) {
    && 0 <= i < |s|
    && (forall j :: 0 <= j < |s| ==> le(s[i], s[j]))
    && (forall j :: 0 <= j < i ==> !le(s[j], s[i]))
  }

  /** Head of a stable sort: the first element of the input among those that
      compare least. */
  lemma SortByHead<T(!new)>(s: seq<T>, le: (T, T) -> bool) returns (i: nat)
    requires TotalPreorder(le) && s != []
    ensures IsFirstLeast(s, i, le)
    ensures SortBy(s, le)[0] == s[i]
  {
    var r := SortBy(s, le);
    SortBySorted(s, le);
    var h := r[0];
    assert h in multiset(s);
    var p := EquivTo(le, h);
    assert p(h) by {
      assert le(h, h) by {
        assert le(h, h) || le(h, h);
      }
    }
    assert exists k :: 0 <= k < |s| && p(s[k]) by {
      var k :| 0 <= k < |s| && s[k] == h;
      assert p(s[k]);
    }
    i := FirstIndex(s, p);
    forall j | 0 <= j < |s|
      ensures le(h, s[j])
    {
      assert s[j] in multiset(r);
      var k :| 0 <= k < |r| && r[k] == s[j];
      if k > 0 {
        assert le(r[0], r[k]);
      } else {
        assert le(h, h) || le(h, h);
      }
    }
    SortByStable(s, le, h);
    FilterHead(r, p, 0);
    FilterHead(s, p, i);
  }

  /** No two distinct elements of `s` compare equal under `le`. */
  ghost predicate StrictlyComparable<T>(s: seq<T>, le: (T, T) -> bool) {
    forall i, j :: 0 <= i < |s| && 0 <= j < |s| && le(s[i], s[j]) && le(s[j], s[i]) ==> s[i] == s[j]
  }

  lemma SameHead<T>(a: seq<T>, b: seq<T>, le: (T, T) -> bool)
    requires a != [] && SortedBy(a, le) && SortedBy(b, le) && multiset(a) == multiset(b)
    requires StrictlyComparable(a, le)
    ensures b != [] && a[0] == b[0]
  {
    assert a[0] in multiset(b);
    var k :| 0 <= k < |b| && b[k] == a[0];
    assert b[0] in multiset(a);
    var j :| 0 <= j < |a| && a[j] == b[0];
    if k > 0 && j > 0 {
      assert le(b[0], b[k]) && le(a[0], a[j]);
    }
  }

  lemma TailMultiset<T>(a: seq<T>, b: seq<T>)
    requires a != [] && b != [] && a[0] == b[0] && multiset(a) == multiset(b)
    ensures multiset(a[1..]) == multiset(b[1..])
  {
    assert a == [a[0]] + a[1..] && b == [b[0]] + b[1..];
    calc {
      multiset(a[1..]);
      multiset(a) - multiset{a[0]};
      multiset(b) - multiset{b[0]};
      multiset(b[1..]);
    }
  }

  lemma TailOrdered<T>(s: seq<T>, le: (T, T) -> bool)
    requires s != [] && SortedBy(s, le) && StrictlyComparable(s, le)
    ensures SortedBy(s[1..], le) && StrictlyComparable(s[1..], le)
  {
    var t := s[1..];
    forall i, j | 0 <= i < |t| && 0 <= j < |t| && le(t[i], t[j]) && le(t[j], t[i])
      ensures t[i] == t[j]
    {
      assert t[i] == s[i + 1] && t[j] == s[j + 1];
    }
  }

  /** Two orderings of the same elements that are both in order are equal,
      provided no two distinct elements compare equal. */
  lemma {:induction false} SortedPermutationUnique<T>(a: seq<T>, b: seq<T>, le: (T, T) -> bool)
    requires SortedBy(a, le) && SortedBy(b, le) && multiset(a) == multiset(b)
    requires StrictlyComparable(a, le)
    ensures a == b
    decreases |a|
  {
    if a == [] {
      assert |b| == |multiset(b)| == 0;
    } else {
      SameHead(a, b, le);
      TailMultiset(a, b);
      TailOrdered(a, le);
      assert SortedBy(b[1..], le);
      SortedPermutationUnique(a[1..], b[1..], le);
      assert a == [a[0]] + a[1..] && b == [b[0]] + b[1..];
    }
  }
}
