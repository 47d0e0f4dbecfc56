/** String splitting, as the store and the API use it. */
module Strings {

  datatype Option<+T> = None | Some(value: T)

  /** The position of the first `c` in `s`, or the length of `s` when there is none. */
  function IndexOf(s: string, c: char): (i: nat)
    ensures i <= |s|
    ensures i < |s| ==> s[i] == c
    ensures c !in s[..i]
  {
    if s == [] || s[0] == c then 0 else
      var j := IndexOf(s[1..], c);
      assert s[..j + 1] == [s[0]] + s[1..][..j];
      j + 1
  }

  /** The part of `s` before the first `c`: `strings.Split(s, c)[0]`. */
  function Before(s: string, c: char): string {
    s[..IndexOf(s, c)]
  }

  /** The part of `s` after the first `c`; empty when there is no `c`. */
  function After(s: string, c: char): string {
    if IndexOf(s, c) < |s| then s[IndexOf(s, c) + 1..] else ""
  }

  lemma {:induction false} IndexOfFirst(a: string, c: char, b: string)
    requires c !in a
    ensures IndexOf(a + [c] + b, c) == |a|
  {
    if a != [] {
      assert (a + [c] + b)[1..] == a[1..] + [c] + b;
      IndexOfFirst(a[1..], c, b);
    }
  }

  /** Splitting at the first separator undoes joining with it, when the left part has none. */
  lemma SplitJoin(a: string, c: char, b: string)
    requires c !in a
    ensures Before(a + [c] + b, c) == a
    ensures After(a + [c] + b, c) == b
  {
    IndexOfFirst(a, c, b);
  }

  lemma JoinSplit(s: string, c: char)
    requires c in s
    ensures s == Before(s, c) + [c] + After(s, c)
  {
    assert s[..|s|] == s;
  }

  /** Two joined strings with separator-free left parts agree only when both parts do. */
  lemma JoinInjective(a: string, x: string, b: string, y: string, c: char)
    requires c !in a && c !in b
    requires a + [c] + x == b + [c] + y
    ensures a == b && x == y
  {
    SplitJoin(a, c, x);
    SplitJoin(b, c, y);
  }
}
