/** Splitting strings at a separator. */
module Strings {

  predicate Lacks(s: string, c: char) {
    c !in s
  }

  function Split(s: string, c: char): (parts: seq<string>)
    ensures |parts| > 0
  {
    if s == "" then [""]
    else if s[0] == c then [""] + Split(s[1..], c)
    else
      var rest := Split(s[1..], c);
      [[s[0]] + rest[0]] + rest[1..]
  }

  /** Joining parts without the separator and splitting again gives the parts. */
  lemma {:induction false} SplitFirst(a: string, rest: string, c: char)
    requires Lacks(a, c)
    ensures Split(a + [c] + rest, c) == [a] + Split(rest, c)
  {
    var s := a + [c] + rest;
    if a == "" {
      assert s[1..] == rest;
    } else {
      SplitFirst(a[1..], rest, c);
      assert s[1..] == a[1..] + [c] + rest;
      assert a == [a[0]] + a[1..];
    }
  }

  lemma {:induction false} SplitLast(a: string, c: char)
    requires Lacks(a, c)
    ensures Split(a, c) == [a]
  {
    if a != "" {
      SplitLast(a[1..], c);
      assert a == [a[0]] + a[1..];
    }
  }
}
