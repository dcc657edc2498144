/**
 * Filtering and sorting of JavaScript arrays.  `Array.prototype.sort` with a
 * numeric comparator (`(a, b) => key(b) - key(a)`) is a stable sort by that
 * key; `SortBy` is a stable insertion sort with the same result.
 */
module Sorting {
  import opened Wrappers

  /** `a` may precede `b` in a list ordered by `key`, descending when `desc`. */
  predicate InOrder<T>(key: T -> real, desc: bool, a: T, b: T) {
    if desc then key(a) >= key(b) else key(a) <= key(b)
  }

  /** `s` is ordered by `key`, in the chosen direction. */
  ghost predicate Ordered<T>(s: seq<T>, key: T -> real, desc: bool) {
    forall i, j :: 0 <= i < j < |s| ==> InOrder(key, desc, s[i], s[j])
  }

  /**
   * Inserts `x` before the first element it may precede.  Ties keep `x`
   * first, which is what makes `SortBy` stable.
   */
  function Insert<T>(x: T, s: seq<T>, key: T -> real, desc: bool): (r: seq<T>)
    requires Ordered(s, key, desc)
    ensures |r| == |s| + 1
    ensures multiset(r) == multiset(s) + multiset{x}
    ensures forall k :: 0 <= k < |r| ==> r[k] == x || r[k] in s
    ensures Ordered(r, key, desc)
  {
    if s == [] || InOrder(key, desc, x, s[0]) then [x] + s
    else
      var tail := Insert(x, s[1..], key, desc);
      InsertCons(x, s, tail, key, desc);
      [s[0]] + tail
  }

  /** One step of `Insert` past the head `s[0]`. */
  lemma InsertCons<T>(x: T, s: seq<T>, tail: seq<T>, key: T -> real, desc: bool)
    requires s != [] && Ordered(s, key, desc) && !InOrder(key, desc, x, s[0])
    requires |tail| == |s| && multiset(tail) == multiset(s[1..]) + multiset{x}
    requires forall k :: 0 <= k < |tail| ==> tail[k] == x || tail[k] in s[1..]
    requires Ordered(tail, key, desc)
    ensures multiset([s[0]] + tail) == multiset(s) + multiset{x}
    ensures forall k :: 0 <= k < |[s[0]] + tail| ==> ([s[0]] + tail)[k] == x || ([s[0]] + tail)[k] in s
    ensures Ordered([s[0]] + tail, key, desc)
  {
    assert s == [s[0]] + s[1..];
    assert InOrder(key, desc, s[0], x);
    forall k | 0 <= k < |tail|
      ensures InOrder(key, desc, s[0], tail[k])
    {
      if tail[k] != x {
        var j :| 0 <= j < |s[1..]| && s[1..][j] == tail[k];
        assert s[j + 1] == tail[k];
      }
    }
    var r := [s[0]] + tail;
    assert forall k :: 1 <= k < |r| ==> r[k] == tail[k - 1];
  }

  /** `[...s].sort((a, b) => desc ? key(b) - key(a) : key(a) - key(b))`. */
  function SortBy<T>(s: seq<T>, key: T -> real, desc: bool): (r: seq<T>)
    ensures |r| == |s|
    ensures multiset(r) == multiset(s)
    ensures Ordered(r, key, desc)
  {
    if s == [] then []
    else
      assert s == [s[0]] + s[1..];
      Insert(s[0], SortBy(s[1..], key, desc), key, desc)
  }

  /**
   * `Insert` goes past only elements of a strictly different key, so the
   * elements of one key class keep their order, with `x` first among them.
   */
  lemma {:induction false} InsertKeepsTies<T>(x: T, t: seq<T>, key: T -> real, desc: bool, p: T -> bool, v: real)
    requires Ordered(t, key, desc)
    requires forall a :: p(a) ==> key(a) == v
    ensures Filter(Insert(x, t, key, desc), p) == Filter([x], p) + Filter(t, p)
  {
    if t == [] || InOrder(key, desc, x, t[0]) {
      assert Insert(x, t, key, desc) == [x] + t;
      FilterAppend([x], t, p);
    } else {
      var rest := t[1..];
      var ins := Insert(x, rest, key, desc);
      assert Insert(x, t, key, desc) == [t[0]] + ins;
      assert t == [t[0]] + rest;
      InsertKeepsTies(x, rest, key, desc, p, v);
      FilterAppend([t[0]], ins, p);
      FilterAppend([t[0]], rest, p);
      OneOfTwoTies(x, t[0], key, desc, p, v);
      TieSwap(Filter([x], p), Filter([t[0]], p), Filter(rest, p));
    }
  }

  /** Two elements out of order cannot both be in one key class. */
  lemma OneOfTwoTies<T>(x: T, y: T, key: T -> real, desc: bool, p: T -> bool, v: real)
    requires forall a :: p(a) ==> key(a) == v
    requires !InOrder(key, desc, x, y)
    ensures Filter([x], p) == [] || Filter([y], p) == []
  {
    FilterSingle(x, p);
    FilterSingle(y, p);
  }

  lemma TieSwap<T>(fx: seq<T>, f0: seq<T>, fr: seq<T>)
    requires fx == [] || f0 == []
    ensures f0 + (fx + fr) == fx + (f0 + fr)
  {
    if fx == [] {
      assert fx + (f0 + fr) == f0 + fr;
    } else {
      assert f0 + (fx + fr) == fx + fr;
    }
  }

  /** `SortBy` is stable: the elements of one key class come out in their input order. */
  lemma {:induction false} SortByStable<T>(s: seq<T>, key: T -> real, desc: bool, p: T -> bool, v: real)
    requires forall a :: p(a) ==> key(a) == v
    ensures Filter(SortBy(s, key, desc), p) == Filter(s, p)
  {
    if s != [] {
      var sorted := SortBy(s[1..], key, desc);
      assert SortBy(s, key, desc) == Insert(s[0], sorted, key, desc);
      SortByStable(s[1..], key, desc, p, v);
      InsertKeepsTies(s[0], sorted, key, desc, p, v);
      FilterSingle(s[0], p);
    }
  }

  /** `s.filter(p)`. */
  function Filter<T>(s: seq<T>, p: T -> bool): (r: seq<T>)
    ensures |r| <= |s|
    ensures multiset(r) <= multiset(s)
    ensures forall i :: 0 <= i < |r| ==> p(r[i])
    ensures forall i :: 0 <= i < |s| && p(s[i]) ==> s[i] in r
  {
    if s == [] then []
    else
      var rest := Filter(s[1..], p);
      FilterCons(s[0], s[1..], rest, p);
      assert s == [s[0]] + s[1..];
      if p(s[0]) then [s[0]] + rest else rest
  }

  /** One step of `Filter`: what holds of the kept tail carries over to the whole. */
  lemma FilterCons<T>(x: T, t: seq<T>, rest: seq<T>, p: T -> bool)
    requires |rest| <= |t|
    requires multiset(rest) <= multiset(t)
    requires forall i :: 0 <= i < |rest| ==> p(rest[i])
    requires forall i :: 0 <= i < |t| && p(t[i]) ==> t[i] in rest
    ensures var r := if p(x) then [x] + rest else rest;
            && |r| <= |[x] + t|
            && multiset(r) <= multiset([x] + t)
            && (forall i :: 0 <= i < |r| ==> p(r[i]))
            && (forall i :: 0 <= i < |[x] + t| && p(([x] + t)[i]) ==> ([x] + t)[i] in r)
  {
    var s := [x] + t;
    assert multiset(s) == multiset{x} + multiset(t);
    assert forall i :: 1 <= i < |s| ==> s[i] == t[i - 1];
    if p(x) {
      var r := [x] + rest;
      assert forall i :: 1 <= i < |r| ==> r[i] == rest[i - 1];
    }
  }

  /** The count of kept elements, one element at a time. */
  lemma FilterCount<T>(s: seq<T>, p: T -> bool)
    requires s != []
    ensures |Filter(s, p)| == |Filter(s[1..], p)| + (if p(s[0]) then 1 else 0)
  {
  }

  /** An element is kept by `Filter` exactly when it is in `s` and passes `p`. */
  lemma FilterMembership<T>(s: seq<T>, p: T -> bool, x: T)
    ensures x in Filter(s, p) <==> x in s && p(x)
  {
    var r := Filter(s, p);
    if x in r {
      assert x in multiset(r);
      assert x in multiset(s);
    }
  }

  lemma {:induction false} FilterAppend<T>(a: seq<T>, b: seq<T>, p: T -> bool)
    ensures Filter(a + b, p) == Filter(a, p) + Filter(b, p)
  {
    if a == [] {
      assert a + b == b;
    } else {
      assert (a + b)[1..] == a[1..] + b;
      FilterAppend(a[1..], b, p);
    }
  }

  /** A filter every element passes keeps the whole sequence. */
  lemma {:induction false} FilterAll<T>(s: seq<T>, p: T -> bool)
    requires forall i :: 0 <= i < |s| ==> p(s[i])
    ensures Filter(s, p) == s
  {
    if s != [] {
      FilterAll(s[1..], p);
      assert s == [s[0]] + s[1..];
    }
  }

  /** A filter keeps every passing element as often as it occurs, and no other. */
  lemma {:induction false} FilterMultiset<T>(s: seq<T>, p: T -> bool, x: T)
    ensures multiset(Filter(s, p))[x] == if p(x) then multiset(s)[x] else 0
  {
    if s != [] {
      FilterMultiset(s[1..], p, x);
      assert s == [s[0]] + s[1..];
    }
  }

  lemma FilterSingle<T>(x: T, p: T -> bool)
    ensures Filter([x], p) == if p(x) then [x] else []
  {
    assert [x][1..] == [];
  }

  /** A prefix one element longer keeps one more element exactly when that element passes. */
  lemma FilterSnocCount<T>(s: seq<T>, k: nat, p: T -> bool)
    requires k < |s|
    ensures |Filter(s[..k + 1], p)| == |Filter(s[..k], p)| + (if p(s[k]) then 1 else 0)
  {
    assert s[..k + 1] == s[..k] + [s[k]];
    FilterAppend(s[..k], [s[k]], p);
    assert [s[k]][1..] == [];
  }

  /** Filtering by a weaker test first does not change what a stronger test keeps. */
  lemma {:induction false} FilterFilterStronger<T>(s: seq<T>, p: T -> bool, q: T -> bool)
    requires forall x :: p(x) ==> q(x)
    ensures Filter(Filter(s, q), p) == Filter(s, p)
  {
    if s != [] {
      FilterFilterStronger(s[1..], p, q);
      var head := if q(s[0]) then [s[0]] else [];
      assert Filter(s, q) == head + Filter(s[1..], q);
      FilterAppend(head, Filter(s[1..], q), p);
      if q(s[0]) {
        assert head[1..] == [];
      }
    }
  }

  /** A filter no element passes keeps nothing. */
  lemma {:induction false} FilterNone<T>(s: seq<T>, p: T -> bool)
    requires forall i :: 0 <= i < |s| ==> !p(s[i])
    ensures Filter(s, p) == []
  {
    if s != [] {
      FilterNone(s[1..], p);
    }
  }

  /** `s.slice(0, n)`. */
  function Take<T>(s: seq<T>, n: nat): (r: seq<T>)
    ensures |r| == if n < |s| then n else |s|
    ensures r == s[..|r|]
  {
    if n < |s| then s[..n] else s
  }

  /**
   * The first `n` elements of an ordered sequence dominate the rest: no
   * element left out can be placed strictly before one that was kept.
   */
  lemma {:induction false} TakeDominates<T>(s: seq<T>, key: T -> real, desc: bool, n: nat, i: nat, j: nat)
    requires Ordered(s, key, desc)
    requires i < |Take(s, n)| <= j < |s|
    ensures InOrder(key, desc, Take(s, n)[i], s[j])
  {
    assert Take(s, n)[i] == s[i];
  }

  /** What `Take` leaves out, counted with multiplicity: the rest of the sequence. */
  lemma TakeRest<T>(s: seq<T>, n: nat)
    ensures multiset(Take(s, n)) <= multiset(s)
    ensures multiset(s) - multiset(Take(s, n)) == multiset(s[|Take(s, n)|..])
  {
    assert s == Take(s, n) + s[|Take(s, n)|..];
  }

  /** Every copy `Take` leaves out, even of an element it kept once, sorts no higher than a kept element. */
  lemma TakeDominatesRest<T>(s: seq<T>, key: T -> real, desc: bool, n: nat, kept: T, cut: T)
    requires Ordered(s, key, desc)
    requires cut in multiset(s) - multiset(Take(s, n)) && kept in Take(s, n)
    ensures InOrder(key, desc, kept, cut)
  {
    TakeRest(s, n);
    var rest := s[|Take(s, n)|..];
    var k :| 0 <= k < |rest| && rest[k] == cut;
    var i :| 0 <= i < |Take(s, n)| && Take(s, n)[i] == kept;
    TakeDominates(s, key, desc, n, i, |Take(s, n)| + k);
  }

  /** Filtering keeps the order of an ordered sequence. */
  lemma {:induction false} FilterOrdered<T>(s: seq<T>, p: T -> bool, key: T -> real, desc: bool)
    requires Ordered(s, key, desc)
    ensures Ordered(Filter(s, p), key, desc)
  {
    if s != [] {
      var rest := Filter(s[1..], p);
      assert Ordered(s[1..], key, desc) by {
        assert forall k :: 0 <= k < |s[1..]| ==> s[1..][k] == s[k + 1];
      }
      FilterOrdered(s[1..], p, key, desc);
      if p(s[0]) {
        forall k | 0 <= k < |rest|
          ensures InOrder(key, desc, s[0], rest[k])
        {
          assert rest[k] in multiset(s[1..]);
          var j :| 0 <= j < |s[1..]| && s[1..][j] == rest[k];
          assert s[j + 1] == rest[k];
        }
        var r := [s[0]] + rest;
        assert forall k :: 1 <= k < |r| ==> r[k] == rest[k - 1];
      }
    }
  }

  /** `s.findIndex(p)`, with `None` for -1: the first index whose element passes `p`. */
  function FindIndex<T>(s: seq<T>, p: T -> bool): (r: Option<nat>)
    ensures r.Some? ==> r.value < |s| && p(s[r.value]) && forall j :: 0 <= j < r.value ==> !p(s[j])
    ensures r.None? ==> forall j :: 0 <= j < |s| ==> !p(s[j])
  {
    if s == [] then None
    else if p(s[0]) then Some(0)
    else
      var rest := FindIndex(s[1..], p);
      assert forall j :: 1 <= j < |s| ==> s[j] == s[1..][j - 1];
      if rest.Some? then Some(rest.value + 1) else None
  }

  /**
   * Two tests that never both pass keep at most `|s|` elements between them,
   * and exactly `|s|` when every element passes one of them.
   */
  lemma {:induction false} FilterDisjoint<T>(s: seq<T>, p: T -> bool, q: T -> bool)
    requires forall x :: !(p(x) && q(x))
    ensures |Filter(s, p)| + |Filter(s, q)| <= |s|
    ensures (forall k :: 0 <= k < |s| ==> p(s[k]) || q(s[k])) ==> |Filter(s, p)| + |Filter(s, q)| == |s|
  {
    if s != [] {
      FilterCount(s, p);
      FilterCount(s, q);
      FilterDisjoint(s[1..], p, q);
      assert forall k :: 0 <= k < |s[1..]| ==> s[1..][k] == s[k + 1];
    }
  }

  /**
   * A click on a column header: the current column flips its direction, any
   * other column becomes the sort column, descending.
   */
  function ClickHeader<C(==)>(current: C, desc: bool, clicked: C): (r: (C, bool))
    ensures r.0 == clicked
    ensures clicked == current ==> r.1 == !desc
    ensures clicked != current ==> r.1
  {
    if clicked == current then (current, !desc) else (clicked, true)
  }

  /** Two clicks on the current column restore the original order. */
  lemma ClickTwiceRestores<C>(current: C, desc: bool)
    ensures var once := ClickHeader(current, desc, current);
            ClickHeader(once.0, once.1, current) == (current, desc)
  {
  }
}
