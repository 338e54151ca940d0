/**
 * The piece of Go's `strings` package the endpoints rely on: `strings.Join`,
 * which builds the `active` query parameter, and a single-character split
 * that undoes it.
 */
module Strings {

  /** `strings.Join(elems, sep)`: the elements in order, `sep` between neighbours. */
  function Join(elems: seq<string>, sep: string): (r: string)
    ensures |elems| == 0 ==> r == ""
    ensures |elems| == 1 ==> r == elems[0]
    ensures |elems| > 0 ==> elems[0] <= r
  {
    if |elems| == 0 then ""
    else if |elems| == 1 then elems[0]
    else elems[0] + sep + Join(elems[1..], sep)
  }

  /** Cuts `s` at every occurrence of `c`; like `strings.Split(s, string(c))`. */
  function Split(s: string, c: char): (r: seq<string>)
    ensures |r| >= 1
    decreases |s|
  {
    if |s| == 0 then [""]
    else if s[0] == c then [""] + Split(s[1..], c)
    else
      var rest := Split(s[1..], c);
      [[s[0]] + rest[0]] + rest[1..]
  }

  /** No element of `elems` contains `c`. */
  predicate FreeOf(elems: seq<string>, c: char)
  {
    forall i :: 0 <= i < |elems| ==> c !in elems[i]
  }

  /** A string without `c` is one piece. */
  lemma {:induction false} SplitWithout(a: string, c: char)
    requires c !in a
    ensures Split(a, c) == [a]
    decreases |a|
  {
    if |a| > 0 {
      SplitWithout(a[1..], c);
      assert [a[0]] + a[1..] == a;
    }
  }

  /** A separator ends the first piece, the remainder is split on its own. */
  lemma {:induction false} SplitAfter(a: string, c: char, b: string)
    requires c !in a
    ensures Split(a + [c] + b, c) == [a] + Split(b, c)
    decreases |a|
  {
    if |a| == 0 {
      assert a + [c] + b == [c] + b;
      assert ([c] + b)[1..] == b;
    } else {
      var s := a + [c] + b;
      assert s[0] == a[0];
      assert s[1..] == a[1..] + [c] + b;
      SplitAfter(a[1..], c, b);
      assert [a[0]] + a[1..] == a;
    }
  }

  /**
   * Joining with a one-character separator that no element contains is
   * lossless: splitting the result gives back the list, in order.
   */
  lemma {:induction false} SplitJoin(elems: seq<string>, c: char)
    requires |elems| >= 1
    requires FreeOf(elems, c)
    ensures Split(Join(elems, [c]), c) == elems
    decreases |elems|
  {
    if |elems| == 1 {
      SplitWithout(elems[0], c);
    } else {
      assert c !in elems[0];
      SplitJoin(elems[1..], c);
      SplitAfter(elems[0], c, Join(elems[1..], [c]));
      assert [elems[0]] + elems[1..] == elems;
    }
  }
}
