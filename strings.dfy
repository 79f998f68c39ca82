/**
 * The parts of Go's `strings` package the server relies on: case-insensitive
 * comparison (`strings.EqualFold`) and `strings.Join`, together with the
 * splitting a client performs to read a joined header back.
 */
module Strings {

  /** Lower-cases an ASCII upper-case letter; every other character is left alone. */
  function FoldAscii(c: char): (f: char)
    ensures 'A' <= c <= 'Z' ==> 'a' <= f <= 'z' && f as int - c as int == 32
    ensures !('A' <= c <= 'Z') ==> f == c
  {
    if 'A' <= c <= 'Z' then (c as int + 32) as char else c
  }

  /** `strings.EqualFold`, restricted to ASCII case folding. */
  predicate EqualFold(a: string, b: string)
  {
    |a| == |b| && forall i :: 0 <= i < |a| ==> FoldAscii(a[i]) == FoldAscii(b[i])
  }

  /** `strings.Join`: the elements with `sep` between neighbours. */
  function Join(elems: seq<string>, sep: string): string
  {
    if |elems| == 0 then ""
    else if |elems| == 1 then elems[0]
    else elems[0] + sep + Join(elems[1..], sep)
  }

  /** Cuts `s` at every occurrence of the separator, scanning from the left. */
  function Split(s: string, sep: string): (pieces: seq<string>)
    requires |sep| > 0
    ensures |pieces| > 0
    decreases |s|
  {
    if |s| < |sep| then [s]
    else if s[..|sep|] == sep then [""] + Split(s[|sep|..], sep)
    else
      var rest := Split(s[1..], sep);
      [[s[0]] + rest[0]] + rest[1..]
  }

  /** A piece that cannot start a separator is never cut. */
  lemma {:induction false} SplitWithoutSeparator(w: string, sep: string)
    requires |sep| > 0 && sep[0] !in w
    ensures Split(w, sep) == [w]
    decreases |w|
  {
    if |w| >= |sep| {
      assert w[..|sep|][0] == w[0] != sep[0];
      SplitWithoutSeparator(w[1..], sep);
      assert [w[0]] + w[1..] == w;
    }
  }

  /** A piece followed by a separator comes off as one element. */
  lemma {:induction false} SplitLeadingPiece(w: string, sep: string, t: string)
    requires |sep| > 0 && sep[0] !in w
    ensures Split(w + sep + t, sep) == [w] + Split(t, sep)
    decreases |w|
  {
    var s := w + sep + t;
    if |w| == 0 {
      assert s[..|sep|] == sep && s[|sep|..] == t;
    } else {
      assert s[..|sep|][0] == w[0] != sep[0];
      assert s[1..] == w[1..] + sep + t;
      SplitLeadingPiece(w[1..], sep, t);
      assert [w[0]] + w[1..] == w;
    }
  }

  /**
   * Splitting a join at the same separator gives the elements back, provided
   * no element contains the separator's first character.
   */
  lemma {:induction false} SplitJoin(elems: seq<string>, sep: string)
    requires |elems| > 0 && |sep| > 0
    requires forall e :: e in elems ==> sep[0] !in e
    ensures Split(Join(elems, sep), sep) == elems
    decreases |elems|
  {
    if |elems| == 1 {
      SplitWithoutSeparator(elems[0], sep);
    } else {
      assert elems[0] in elems;
      SplitLeadingPiece(elems[0], sep, Join(elems[1..], sep));
      forall e | e in elems[1..] ensures sep[0] !in e {
        assert e in elems;
      }
      SplitJoin(elems[1..], sep);
      assert [elems[0]] + elems[1..] == elems;
    }
  }

}
