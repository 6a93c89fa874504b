/**
 Python's `sorted(...)` of a set of strings, represented as the one strictly
 increasing sequence (under `Text.LexLess`) that lists the set.
 */
module SortedSets {
  import opened Text

  predicate IsSorted(s: seq<string>) {
    forall i, j :: 0 <= i < j < |s| ==> LexLess(s[i], s[j])
  }

  /** Adds `x` to the sorted listing `s`. */
  function Insert(s: seq<string>, x: string): (r: seq<string>)
    requires IsSorted(s)
    ensures IsSorted(r)
    ensures forall y :: y in r <==> y in s || y == x
  {
    if s == [] then [x]
    else if x == s[0] then s
    else if LexLess(x, s[0]) then
      assert forall j :: 0 < j < |s| ==> LexLess(x, s[j]) by {
        forall j | 0 < j < |s| ensures LexLess(x, s[j]) {
          LexLessTransitive(x, s[0], s[j]);
        }
      }
      [x] + s
    else
      LexLessTotal(x, s[0]);
      var t := Insert(s[1..], x);
      assert forall y :: y in t ==> LexLess(s[0], y);
      [s[0]] + t
  }

  /** `sorted(set(xs))`. */
  function FromSeq(xs: seq<string>): (r: seq<string>)
    ensures IsSorted(r)
    ensures forall y :: y in r <==> y in xs
  {
    if xs == [] then []
    else
      var r := Insert(FromSeq(xs[..|xs| - 1]), xs[|xs| - 1]);
      assert xs == xs[..|xs| - 1] + [xs[|xs| - 1]];
      r
  }

  /** `x` is the least element of `s`. */
  predicate IsLeast(x: string, s: set<string>) {
    x in s && forall y :: y in s && y != x ==> LexLess(x, y)
  }

  /** `LexLess` is a strict order, stated for every pair at once. */
  lemma LexLessOrder()
    ensures forall a, b :: LexLess(a, b) ==> !LexLess(b, a)
  {
    forall a, b | LexLess(a, b) ensures !LexLess(b, a) {
      LexLessAsymmetric(a, b);
    }
  }

  /** Every non-empty finite set of strings has a least element. */
  lemma {:induction false} LeastExists(s: set<string>)
    requires s != {}
    ensures exists x :: IsLeast(x, s)
    decreases |s|
  {
    var a :| a in s;
    if s == {a} {
      assert IsLeast(a, s);
    } else {
      LeastExists(s - {a});
      var m :| IsLeast(m, s - {a});
      LexLessTotal(a, m);
      if LexLess(a, m) {
        forall y | y in s && y != a ensures LexLess(a, y) {
          if y != m {
            LexLessTransitive(a, m, y);
          }
        }
        assert IsLeast(a, s);
      } else {
        assert IsLeast(m, s);
      }
    }
  }

  /** `sorted(s)` for a set `s`: its least element, then the listing of the rest. */
  function Listing(s: set<string>): (r: seq<string>)
    ensures IsSorted(r)
    ensures forall y :: y in r <==> y in s
    ensures |r| == |s|
    decreases |s|
  {
    if s == {} then []
    else
      LeastExists(s);
      LexLessOrder();
      var x :| IsLeast(x, s);
      var t := Listing(s - {x});
      assert forall y :: y in t ==> LexLess(x, y);
      [x] + t
  }

  /** A sorted listing of a set is unique, so `FromSeq` is the one Python produces. */
  lemma {:induction false} SortedListingUnique(a: seq<string>, b: seq<string>)
    requires IsSorted(a) && IsSorted(b)
    requires forall y :: y in a <==> y in b
    ensures a == b
  {
    if a != [] {
      assert a[0] in b;
    }
    if b != [] {
      assert b[0] in a;
    }
    if a != [] && b != [] {
      var i :| 0 <= i < |a| && a[i] == b[0];
      var j :| 0 <= j < |b| && b[j] == a[0];
      if i > 0 && j > 0 {
        LexLessAsymmetric(a[0], b[0]);
      }
      if i > 0 && j == 0 {
        LexLessIrreflexive(a[0]);
      }
      if i == 0 && j > 0 {
        LexLessIrreflexive(b[0]);
      }
      assert a[0] == b[0];
      forall y ensures y in a[1..] <==> y in b[1..] {
        if y in a[1..] {
          var k :| 1 <= k < |a| && a[k] == y;
          LexLessIrreflexive(y);
          assert y != b[0] && y in b;
          var m :| 0 <= m < |b| && b[m] == y;
          assert b[1..][m - 1] == y;
        }
        if y in b[1..] {
          var k :| 1 <= k < |b| && b[k] == y;
          LexLessIrreflexive(y);
          assert y != a[0] && y in a;
          var m :| 0 <= m < |a| && a[m] == y;
          assert a[1..][m - 1] == y;
        }
      }
      SortedListingUnique(a[1..], b[1..]);
      assert a == [a[0]] + a[1..] && b == [b[0]] + b[1..];
    }
  }
}

/**
 A Python `dict` keyed by strings: the entries together with the order in which
 their keys were first inserted (assigning to an existing key keeps its place).
 */
module Dicts {
  datatype Dict<V> = Dict(keys: seq<string>, entries: map<string, V>)

  ghost predicate Valid<V>(d: Dict<V>) {
    && (forall i, j :: 0 <= i < j < |d.keys| ==> d.keys[i] != d.keys[j])
    && (forall k :: k in d.entries <==> k in d.keys)
  }

  function Empty<V>(): (d: Dict<V>)
    ensures Valid(d)
    ensures d.keys == [] && d.entries == map[]
  {
    Dict([], map[])
  }

  /** `d[k] = v`: a new key goes to the end, an existing one keeps its place. */
  function Put<V>(d: Dict<V>, k: string, v: V): (r: Dict<V>)
    requires Valid(d)
    ensures Valid(r)
    ensures r.entries == d.entries[k := v]
    ensures k in d.entries ==> r.keys == d.keys
    ensures k !in d.entries ==> r.keys == d.keys + [k]
  {
    if k in d.entries then Dict(d.keys, d.entries[k := v]) else Dict(d.keys + [k], d.entries[k := v])
  }
}

/** Order-keeping filters of sequences, Python's `[x for x in s if keep(x)]`. */
module Filters {
  function Filter<T>(s: seq<T>, keep: T -> bool): (r: seq<T>)
    ensures |r| <= |s|
  {
    if s == [] then [] else (if keep(s[0]) then [s[0]] else []) + Filter(s[1..], keep)
  }

  lemma {:induction false} FilterAppend<T>(a: seq<T>, b: seq<T>, keep: T -> bool)
    ensures Filter(a + b, keep) == Filter(a, keep) + Filter(b, keep)
  {
    if a == [] {
      assert a + b == b;
    } else {
      var h := if keep(a[0]) then [a[0]] else [];
      assert (a + b)[0] == a[0] && (a + b)[1..] == a[1..] + b;
      assert Filter(a + b, keep) == h + Filter(a[1..] + b, keep);
      FilterAppend(a[1..], b, keep);
      assert Filter(a, keep) == h + Filter(a[1..], keep);
      assert h + (Filter(a[1..], keep) + Filter(b, keep)) == (h + Filter(a[1..], keep)) + Filter(b, keep);
    }
  }

  lemma {:induction false} FilterMember<T>(s: seq<T>, keep: T -> bool, x: T)
    ensures x in Filter(s, keep) <==> x in s && keep(x)
  {
    if s != [] {
      FilterMember(s[1..], keep, x);
      assert s == [s[0]] + s[1..];
    }
  }

  /** Keeping every element, or none, of `s`. */
  lemma {:induction false} FilterUniform<T>(s: seq<T>, keep: T -> bool, all: bool)
    requires forall i :: 0 <= i < |s| ==> keep(s[i]) == all
    ensures Filter(s, keep) == if all then s else []
  {
    if s != [] {
      FilterUniform(s[1..], keep, all);
      assert s == [s[0]] + s[1..];
    }
  }
}
