/** The parts of Go's `strings` package the core calls: `Join` and `ToLower`. */
module Strings {

  /** `strings.Join`: the elements in order with `sep` between neighbours. */
  function Join(elems: seq<string>, sep: string): string
  {
    if |elems| == 0 then ""
    else if |elems| == 1 then elems[0]
    else elems[0] + sep + Join(elems[1..], sep)
  }

  /** `strings.Split` for a one-character separator: the maximal pieces between occurrences of `c`. */
  function Split(s: string, c: char): (r: seq<string>)
    ensures |r| >= 1
    decreases |s|
  {
    if c !in s then [s]
    else
      var i := IndexOf(s, c);
      [s[..i]] + Split(s[i + 1..], c)
  }

  /** The position of the first `c` in `s`. */
  function IndexOf(s: string, c: char): (i: nat)
    requires c in s
    ensures i < |s| && s[i] == c && c !in s[..i]
  {
    if s[0] == c then 0 else 1 + IndexOf(s[1..], c)
  }

  lemma FirstIndexAfterPrefix(a: string, b: string, c: char)
    requires c !in a
    ensures c in a + [c] + b && IndexOf(a + [c] + b, c) == |a|
  {
    var s := a + [c] + b;
    assert s[|a|] == c;
    assert s[..|a|] == a;
  }

  /**
   * Joining pieces with a separator character none of them contains, and splitting the result on
   * that character, gives the pieces back: `Join` keeps every value, in order.
   */
  lemma {:induction false} SplitJoin(elems: seq<string>, c: char)
    requires |elems| >= 1
    requires forall k | 0 <= k < |elems| :: c !in elems[k]
    ensures Split(Join(elems, [c]), c) == elems
  {
    if |elems| > 1 {
      var rest := Join(elems[1..], [c]);
      var s := elems[0] + [c] + rest;
      assert Join(elems, [c]) == s;
      FirstIndexAfterPrefix(elems[0], rest, c);
      assert s[..|elems[0]|] == elems[0];
      assert s[|elems[0]| + 1..] == rest;
      SplitJoin(elems[1..], c);
    }
  }

  /** `unicode.ToLower` restricted to ASCII letters. */
  function LowerChar(c: char): char {
    if 'A' <= c <= 'Z' then (c as int + 32) as char else c
  }

  /** `strings.ToLower`, character by character, for ASCII letters. */
  function ToLower(s: string): (r: string)
    ensures |r| == |s|
    ensures forall i | 0 <= i < |s| :: r[i] == LowerChar(s[i])
  {
    seq(|s|, i requires 0 <= i < |s| => LowerChar(s[i]))
  }
}
