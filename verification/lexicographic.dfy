/** Python's ordering of `str` values (code point by code point, a proper
    prefix first) and `sorted(set(xs))` over it. Dafny's own `<` on
    sequences means "proper prefix", so the order is defined here. */
module Lexicographic {

  /** `a < b` on Python strings. */
  predicate Less(a: string, b: string)
    decreases |a|
  {
    if |a| == 0 then |b| > 0
    else if |b| == 0 then false
    else if a[0] != b[0] then a[0] < b[0]
    else Less(a[1..], b[1..])
  }

  lemma {:induction false} LessIrreflexive(a: string)
    ensures !Less(a, a)
    decreases |a|
  {
    if |a| > 0 {
      LessIrreflexive(a[1..]);
    }
  }

  lemma {:induction false} LessTransitive(a: string, b: string, c: string)
    requires Less(a, b) && Less(b, c)
    ensures Less(a, c)
    decreases |a|
  {
    if |a| > 0 && a[0] == b[0] && b[0] == c[0] {
      LessTransitive(a[1..], b[1..], c[1..]);
    }
  }

  /** Distinct strings are comparable: the order is total. */
  lemma {:induction false} LessTotal(a: string, b: string)
    requires a != b
    ensures Less(a, b) || Less(b, a)
    decreases |a|
  {
    if |a| > 0 && |b| > 0 && a[0] == b[0] {
      assert a == [a[0]] + a[1..] && b == [b[0]] + b[1..];
      LessTotal(a[1..], b[1..]);
    }
  }

  lemma LessAsymmetric(a: string, b: string)
    requires Less(a, b)
    ensures !Less(b, a)
  {
    if Less(b, a) {
      LessTransitive(a, b, a);
      LessIrreflexive(a);
    }
  }

  /** Strictly increasing: sorted and without duplicates. */
  ghost predicate StrictlySorted(s: seq<string>) {
    forall i, j :: 0 <= i < j < |s| ==> Less(s[i], s[j])
  }

  /** The sorted list of the distinct elements of `xs`: what
      `sorted(set(xs))` computes. */
  function SortedUnique(xs: seq<string>): (r: seq<string>)
    ensures StrictlySorted(r)
    ensures forall x :: x in r <==> x in xs
  {
    if |xs| == 0 then []
    else Insert(xs[|xs| - 1], SortedUnique(xs[..|xs| - 1]))
  }

  /** Inserts `x` into a strictly sorted list, keeping it strictly sorted. */
  function {:induction false} Insert(x: string, s: seq<string>): (r: seq<string>)
    requires StrictlySorted(s)
    ensures StrictlySorted(r)
    ensures forall y :: y in r <==> y == x || y in s
  {
    if |s| == 0 then [x]
    else if x == s[0] then s
    else if Less(x, s[0]) then
      assert forall j :: 0 < j < |s| ==> Less(x, s[j]) by {
        forall j | 0 < j < |s| ensures Less(x, s[j]) {
          LessTransitive(x, s[0], s[j]);
        }
      }
      [x] + s
    else
      LessTotal(x, s[0]);
      var tail := Insert(x, s[1..]);
      assert forall j :: 0 <= j < |tail| ==> Less(s[0], tail[j]) by {
        forall j | 0 <= j < |tail| ensures Less(s[0], tail[j]) {
          assert tail[j] in tail;
        }
      }
      [s[0]] + tail
  }

  /** A strictly sorted list is determined by its elements: `SortedUnique`
      is THE sorted list of the set, whatever order `xs` lists it in. */
  lemma {:induction false} SortedByElements(s: seq<string>, t: seq<string>)
    requires StrictlySorted(s) && StrictlySorted(t)
    requires forall x :: x in s <==> x in t
    ensures s == t
    decreases |s|
  {
    SameElementsEmpty(s, t);
    if |s| > 0 {
      if s[0] != t[0] {
        HeadIsLeast(t, s[0]);
        HeadIsLeast(s, t[0]);
        LessAsymmetric(s[0], t[0]);
        assert false;
      }
      assert forall x :: x in s[1..] <==> x in t[1..] by {
        forall x ensures x in s[1..] <==> x in t[1..] {
          if x in s[1..] {
            var k :| 1 <= k < |s| && s[k] == x;
            assert x != s[0] by { LessIrreflexive(s[0]); }
            assert x in s;
            var m :| 0 <= m < |t| && t[m] == x;
            assert t[1..][m - 1] == x;
          }
          if x in t[1..] {
            var k :| 1 <= k < |t| && t[k] == x;
            assert x != t[0] by { LessIrreflexive(t[0]); }
            assert x in t;
            var m :| 0 <= m < |s| && s[m] == x;
            assert s[1..][m - 1] == x;
          }
        }
      }
      SortedByElements(s[1..], t[1..]);
    }
  }

  lemma SameElementsEmpty(s: seq<string>, t: seq<string>)
    requires forall x :: x in s <==> x in t
    ensures |s| == 0 <==> |t| == 0
  {
    if |s| > 0 { assert s[0] in t; }
    if |t| > 0 { assert t[0] in s; }
  }

  /** The head of a strictly sorted list is below every other element. */
  lemma HeadIsLeast(s: seq<string>, x: string)
    requires StrictlySorted(s) && x in s && x != s[0]
    ensures Less(s[0], x)
  {
  }

  /** A strictly sorted list has no repeated element. */
  lemma StrictlySortedDistinct(s: seq<string>)
    requires StrictlySorted(s)
    ensures forall i, j :: 0 <= i < j < |s| ==> s[i] != s[j]
  {
    forall i, j | 0 <= i < j < |s| ensures s[i] != s[j] {
      LessIrreflexive(s[i]);
    }
  }
}
