/**
 * The default order of JavaScript's `Array.prototype.sort` on strings (code unit by
 * code unit, a proper prefix first) and the "distinct values, sorted" idiom
 * `[...new Set(values)].sort()` used to derive every fetched dropdown's options.
 */
module Ordering {

  /** Strict lexicographic order on strings. */
  predicate Less(a: string, b: string)
  {
    if |a| == 0 then |b| > 0
    else if |b| == 0 then false
    else if a[0] != b[0] then a[0] < b[0]
    else Less(a[1..], b[1..])
  }

  predicate AtMost(a: string, b: string)
  {
    a == b || Less(a, b)
  }

  lemma {:induction false} LessIrreflexive(a: string)
    ensures !Less(a, a)
  {
    if |a| > 0 {
      LessIrreflexive(a[1..]);
    }
  }

  lemma {:induction false} LessAsymmetric(a: string, b: string)
    ensures Less(a, b) ==> !Less(b, a)
  {
    if |a| > 0 && |b| > 0 && a[0] == b[0] {
      LessAsymmetric(a[1..], b[1..]);
    }
  }

  lemma {:induction false} LessTransitive(a: string, b: string, c: string)
    requires Less(a, b) && Less(b, c)
    ensures Less(a, c)
  {
    if |a| > 0 && a[0] == b[0] && b[0] == c[0] {
      LessTransitive(a[1..], b[1..], c[1..]);
    }
  }

  /** Any two different strings are ordered one way or the other. */
  lemma {:induction false} LessTotal(a: string, b: string)
    requires a != b
    ensures Less(a, b) || Less(b, a)
  {
    if |a| > 0 && |b| > 0 && a[0] == b[0] {
      assert a == [a[0]] + a[1..] && b == [b[0]] + b[1..];
      LessTotal(a[1..], b[1..]);
    }
  }

  lemma AtMostAntisymmetric(a: string, b: string)
    requires AtMost(a, b) && AtMost(b, a)
    ensures a == b
  {
    LessAsymmetric(a, b);
  }

  predicate Sorted(s: seq<string>)
  {
    forall i, j :: 0 <= i < j < |s| ==> AtMost(s[i], s[j])
  }

  predicate StrictlySorted(s: seq<string>)
  {
    forall i, j :: 0 <= i < j < |s| ==> Less(s[i], s[j])
  }

  predicate Distinct(s: seq<string>)
  {
    forall i, j :: 0 <= i < j < |s| ==> s[i] != s[j]
  }

  /** Insertion of one string into a sorted list, before the first element not below it. */
  function Insert(x: string, s: seq<string>): seq<string>
  {
    if s == [] then [x]
    else if AtMost(x, s[0]) then [x] + s
    else [s[0]] + Insert(x, s[1..])
  }

  /** `Array.prototype.sort()` with no comparator, on strings. */
  function Sort(xs: seq<string>): seq<string>
  {
    if xs == [] then [] else Insert(xs[0], Sort(xs[1..]))
  }

  /** `[...new Set(xs)]`: every value once, in order of first occurrence. */
  function Dedup(xs: seq<string>): seq<string>
  {
    if xs == [] then []
    else
      var r := Dedup(xs[..|xs| - 1]);
      if xs[|xs| - 1] in r then r else r + [xs[|xs| - 1]]
  }

  /** `[...new Set(xs)].sort()`. */
  function DistinctSorted(xs: seq<string>): seq<string>
  {
    Sort(Dedup(xs))
  }

  lemma {:induction false} InsertMultiset(x: string, s: seq<string>)
    ensures multiset(Insert(x, s)) == multiset(s) + multiset{x}
  {
    if s != [] && !AtMost(x, s[0]) {
      InsertMultiset(x, s[1..]);
      assert s == [s[0]] + s[1..];
    }
  }

  /** Every element of `Insert(x, s)` is `x` or an element of `s`. */
  lemma InsertMembers(x: string, s: seq<string>)
    ensures forall k :: 0 <= k < |Insert(x, s)| ==> Insert(x, s)[k] == x || Insert(x, s)[k] in s
  {
  }

  lemma {:induction false} InsertSorted(x: string, s: seq<string>)
    requires Sorted(s)
    ensures Sorted(Insert(x, s))
  {
    if s == [] {
    } else if AtMost(x, s[0]) {
      forall i, j | 0 <= i < j < |[x] + s| ensures AtMost(([x] + s)[i], ([x] + s)[j]) {
        if i == 0 && j > 1 && x != s[0] && s[0] != s[j - 1] {
          LessTransitive(x, s[0], s[j - 1]);
        }
      }
    } else {
      var t := Insert(x, s[1..]);
      InsertSorted(x, s[1..]);
      InsertMembers(x, s[1..]);
      LessTotal(x, s[0]);
      forall k | 0 <= k < |t| ensures AtMost(s[0], t[k]) {
        if t[k] != x {
          var m :| 0 <= m < |s[1..]| && s[1..][m] == t[k];
          assert s[m + 1] == t[k];
        }
      }
    }
  }

  lemma {:induction false} InsertStrictlySorted(x: string, s: seq<string>)
    requires StrictlySorted(s) && x !in s
    ensures StrictlySorted(Insert(x, s))
  {
    if s == [] {
    } else if AtMost(x, s[0]) {
      forall i, j | 0 <= i < j < |[x] + s| ensures Less(([x] + s)[i], ([x] + s)[j]) {
        if i == 0 && j > 1 {
          LessTransitive(x, s[0], s[j - 1]);
        }
      }
    } else {
      var t := Insert(x, s[1..]);
      InsertStrictlySorted(x, s[1..]);
      InsertMembers(x, s[1..]);
      LessTotal(x, s[0]);
      forall k | 0 <= k < |t| ensures Less(s[0], t[k]) {
        if t[k] != x {
          var m :| 0 <= m < |s[1..]| && s[1..][m] == t[k];
          assert s[m + 1] == t[k];
        }
      }
    }
  }

  /** The sort keeps the values with their multiplicities. */
  lemma {:induction false} SortPermutes(xs: seq<string>)
    ensures multiset(Sort(xs)) == multiset(xs)
  {
    if xs != [] {
      SortPermutes(xs[1..]);
      InsertMultiset(xs[0], Sort(xs[1..]));
      assert xs == [xs[0]] + xs[1..];
    }
  }

  /** The sort puts the values in ascending order. */
  lemma {:induction false} SortOrders(xs: seq<string>)
    ensures Sorted(Sort(xs))
  {
    if xs != [] {
      SortOrders(xs[1..]);
      InsertSorted(xs[0], Sort(xs[1..]));
    }
  }

  /** Sorting values that are pairwise different gives a strictly ascending list. */
  lemma {:induction false} SortDistinct(xs: seq<string>)
    requires Distinct(xs)
    ensures StrictlySorted(Sort(xs))
  {
    if xs != [] {
      assert Distinct(xs[1..]);
      SortDistinct(xs[1..]);
      SortPermutes(xs[1..]);
      assert xs[0] !in multiset(xs[1..]);
      assert xs[0] !in Sort(xs[1..]) by {
        assert xs[0] !in multiset(Sort(xs[1..]));
      }
      InsertStrictlySorted(xs[0], Sort(xs[1..]));
    }
  }

  lemma {:induction false} DedupSpec(xs: seq<string>)
    ensures Distinct(Dedup(xs))
    ensures forall x :: x in Dedup(xs) <==> x in xs
  {
    if xs != [] {
      var init := xs[..|xs| - 1];
      DedupSpec(init);
      assert xs == init + [xs[|xs| - 1]];
    }
  }

  /**
   * The option list of a fetched dropdown: strictly ascending (so free of duplicates)
   * and holding exactly the values that occur in the input.
   */
  lemma DistinctSortedSpec(xs: seq<string>)
    ensures StrictlySorted(DistinctSorted(xs))
    ensures forall x :: x in DistinctSorted(xs) <==> x in xs
  {
    DedupSpec(xs);
    SortPermutes(Dedup(xs));
    SortDistinct(Dedup(xs));
    forall x ensures x in Sort(Dedup(xs)) <==> x in Dedup(xs) {
      assert x in Sort(Dedup(xs)) <==> x in multiset(Sort(Dedup(xs)));
    }
  }

  /** A strictly ascending list is determined by its members. */
  lemma {:induction false} StrictlySortedUnique(a: seq<string>, b: seq<string>)
    requires StrictlySorted(a) && StrictlySorted(b)
    requires forall x :: x in a <==> x in b
    ensures a == b
  {
    assert a == [] <==> b == [] by {
      if a != [] { assert a[0] in a; }
      if b != [] { assert b[0] in b; }
    }
    if a != [] {
      assert a[0] in b && b[0] in a;
      var k :| 0 <= k < |b| && b[k] == a[0];
      var m :| 0 <= m < |a| && a[m] == b[0];
      assert AtMost(b[0], a[0]) && AtMost(a[0], b[0]);
      AtMostAntisymmetric(a[0], b[0]);
      forall x ensures x in a[1..] <==> x in b[1..] {
        if x in a[1..] {
          var i :| 0 <= i < |a[1..]| && a[1..][i] == x;
          assert Less(a[0], a[i + 1]);
          LessIrreflexive(a[0]);
          assert x in a;
          var j :| 0 <= j < |b| && b[j] == x;
          assert j != 0;
          assert b[1..][j - 1] == x;
        }
        if x in b[1..] {
          var j :| 0 <= j < |b[1..]| && b[1..][j] == x;
          assert Less(b[0], b[j + 1]);
          LessIrreflexive(b[0]);
          assert x in b;
          var i :| 0 <= i < |a| && a[i] == x;
          assert i != 0;
          assert a[1..][i - 1] == x;
        }
      }
      StrictlySortedUnique(a[1..], b[1..]);
      assert a == [a[0]] + a[1..] && b == [b[0]] + b[1..];
    }
  }

  /**
   * Any strictly ascending list of exactly the input's values is the derived option
   * list: the derivation is fixed by what it promises.
   */
  lemma DistinctSortedIsTheSortedValueSet(xs: seq<string>, s: seq<string>)
    requires StrictlySorted(s)
    requires forall x :: x in s <==> x in xs
    ensures DistinctSorted(xs) == s
  {
    DistinctSortedSpec(xs);
    StrictlySortedUnique(DistinctSorted(xs), s);
  }
}
