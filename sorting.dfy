/**
 * String ordering and sorting as Go's `slices.Sort` does it on a `[]string`.
 * Go compares strings byte by byte; on valid UTF-8 that order coincides with the
 * order of code points, which is the order of Dafny's `char`.
 */
module Sorting {

  /** `a <= b` in lexicographic order; a proper prefix comes first. */
  predicate LexLe(a: string, b: string)
    decreases |a|
  {
    |a| == 0 || (|b| > 0 && (a[0] < b[0] || (a[0] == b[0] && LexLe(a[1..], b[1..]))))
  }

  lemma {:induction false} LexLeReflexive(a: string)
    ensures LexLe(a, a)
    decreases |a|
  {
    if |a| > 0 {
      LexLeReflexive(a[1..]);
    }
  }

  lemma {:induction false} LexLeTotal(a: string, b: string)
    ensures LexLe(a, b) || LexLe(b, a)
    decreases |a|
  {
    if |a| > 0 && |b| > 0 && a[0] == b[0] {
      LexLeTotal(a[1..], b[1..]);
    }
  }

  lemma {:induction false} LexLeAntisymmetric(a: string, b: string)
    requires LexLe(a, b) && LexLe(b, a)
    ensures a == b
    decreases |a|
  {
    if |a| > 0 && |b| > 0 {
      LexLeAntisymmetric(a[1..], b[1..]);
      assert a == [a[0]] + a[1..] && b == [b[0]] + b[1..];
    }
  }

  lemma {:induction false} LexLeTransitive(a: string, b: string, c: string)
    requires LexLe(a, b) && LexLe(b, c)
    ensures LexLe(a, c)
    decreases |a|
  {
    if |a| > 0 && a[0] == b[0] == c[0] {
      LexLeTransitive(a[1..], b[1..], c[1..]);
    }
  }

  /** Every element is at most every later element. */
  predicate Sorted(s: seq<string>)
  {
    forall k, l :: 0 <= k < l < |s| ==> LexLe(s[k], s[l])
  }

  /** Prepending an element no larger than any element keeps a sequence sorted. */
  lemma SortedCons(x: string, s: seq<string>)
    requires Sorted(s)
    requires forall e :: e in s ==> LexLe(x, e)
    ensures Sorted([x] + s)
  {
  }

  /** Reference insertion into a sorted sequence. */
  function Insert(x: string, s: seq<string>): (r: seq<string>)
    requires Sorted(s)
    ensures Sorted(r)
    ensures multiset(r) == multiset(s) + multiset{x}
    decreases |s|
  {
    if |s| == 0 then [x]
    else if LexLe(x, s[0]) then
      InsertFront(x, s);
      [x] + s
    else
      var rest := Insert(x, s[1..]);
      InsertBehind(x, s, rest);
      [s[0]] + rest
  }

  lemma InsertFront(x: string, s: seq<string>)
    requires Sorted(s) && |s| > 0 && LexLe(x, s[0])
    ensures Sorted([x] + s)
  {
    forall e | e in s ensures LexLe(x, e) {
      var k :| 0 <= k < |s| && s[k] == e;
      if k > 0 {
        LexLeTransitive(x, s[0], e);
      }
    }
    SortedCons(x, s);
  }

  lemma InsertBehind(x: string, s: seq<string>, rest: seq<string>)
    requires Sorted(s) && |s| > 0 && !LexLe(x, s[0])
    requires Sorted(rest) && multiset(rest) == multiset(s[1..]) + multiset{x}
    ensures Sorted([s[0]] + rest)
    ensures multiset([s[0]] + rest) == multiset(s) + multiset{x}
  {
    forall e | e in rest ensures LexLe(s[0], e) {
      assert e in multiset(rest);
      if e == x {
        LexLeTotal(x, s[0]);
      } else {
        assert e in multiset(s[1..]);
        var k :| 0 <= k < |s[1..]| && s[1..][k] == e;
        assert s[k + 1] == e;
      }
    }
    SortedCons(s[0], rest);
    assert s == [s[0]] + s[1..];
  }

  /** Reference sort: the specification `SortInPlace` is proved against. */
  function Sort(s: seq<string>): (r: seq<string>)
    ensures Sorted(r)
    ensures multiset(r) == multiset(s)
    decreases |s|
  {
    if |s| == 0 then []
    else
      assert s == [s[0]] + s[1..];
      Insert(s[0], Sort(s[1..]))
  }

  /** The first element of a sorted sequence is at most each of its elements. */
  lemma HeadIsLeast(s: seq<string>, e: string)
    requires Sorted(s) && e in multiset(s)
    ensures LexLe(s[0], e)
  {
    var i :| 0 <= i < |s| && s[i] == e;
    if i == 0 {
      LexLeReflexive(e);
    }
  }

  lemma TailMultiset(s: seq<string>)
    requires |s| > 0
    ensures multiset(s[1..]) == multiset(s) - multiset{s[0]}
  {
    assert s == [s[0]] + s[1..];
  }

  /** A sorted arrangement of a multiset of strings is unique. */
  lemma {:induction false} SortedUnique(s: seq<string>, t: seq<string>)
    requires Sorted(s) && Sorted(t)
    requires multiset(s) == multiset(t)
    ensures s == t
    decreases |s|
  {
    assert |s| == |multiset(s)| == |multiset(t)| == |t|;
    if |s| > 0 {
      assert s[0] in multiset(s) && t[0] in multiset(t);
      HeadIsLeast(t, s[0]);
      HeadIsLeast(s, t[0]);
      LexLeAntisymmetric(s[0], t[0]);
      TailMultiset(s);
      TailMultiset(t);
      SortedUnique(s[1..], t[1..]);
      assert s == [s[0]] + s[1..] && t == [t[0]] + t[1..];
    }
  }

  /** Exchanges two neighbouring elements. */
  method SwapAdjacent(a: array<string>, j: nat)
    requires 0 < j < a.Length
    modifies a
    ensures a[j - 1] == old(a[j]) && a[j] == old(a[j - 1])
    ensures forall k :: 0 <= k < a.Length && k != j - 1 && k != j ==> a[k] == old(a[k])
    ensures multiset(a[..]) == multiset(old(a[..]))
  {
    a[j - 1], a[j] := a[j], a[j - 1];
  }

  /** Moves `a[i]` left into the sorted prefix `a[..i]`, so that `a[..i + 1]` is sorted. */
  method InsertAt(a: array<string>, i: nat)
    requires i < a.Length
    requires forall k, l :: 0 <= k < l < i ==> LexLe(a[k], a[l])
    modifies a
    ensures forall k, l :: 0 <= k < l <= i ==> LexLe(a[k], a[l])
    ensures multiset(a[..]) == multiset(old(a[..]))
  {
    var j := i;
    while j > 0 && !LexLe(a[j - 1], a[j])
      invariant 0 <= j <= i
      invariant forall k, l :: 0 <= k < l < j ==> LexLe(a[k], a[l])
      invariant forall k, l :: j < k < l <= i ==> LexLe(a[k], a[l])
      invariant forall k, l :: 0 <= k < j < l <= i ==> LexLe(a[k], a[l])
      invariant forall l :: j < l <= i ==> LexLe(a[j], a[l])
      invariant multiset(a[..]) == multiset(old(a[..]))
    {
      LexLeTotal(a[j - 1], a[j]);
      SwapAdjacent(a, j);
      j := j - 1;
    }
    forall k | 0 <= k < j - 1 ensures LexLe(a[k], a[j]) {
      LexLeTransitive(a[k], a[j - 1], a[j]);
    }
  }

  /** Sorts `a` in place (insertion sort; Go's `slices.Sort` promises only the outcome). */
  method SortInPlace(a: array<string>)
    modifies a
    ensures Sorted(a[..])
    ensures a[..] == Sort(old(a[..]))
  {
    var i := 0;
    while i < a.Length
      invariant 0 <= i <= a.Length
      invariant forall k, l :: 0 <= k < l < i ==> LexLe(a[k], a[l])
      invariant multiset(a[..]) == multiset(old(a[..]))
    {
      InsertAt(a, i);
      i := i + 1;
    }
    SortedUnique(a[..], Sort(old(a[..])));
  }

}
