/** Option, and the few string primitives of JavaScript the page relies on. */
module Wrappers {

  /** A value that may be absent: JavaScript's `null`/`undefined` result. */
  datatype Option<+T> = None | Some(value: T)

  /** JavaScript's `s.startsWith(prefix)`: case-sensitive, position 0. */
  predicate StartsWith(s: string, prefix: string)
  {
    |prefix| <= |s| && s[..|prefix|] == prefix
  }

  /** JavaScript's `s.indexOf(c)` for one character, with `None` for -1:
      the position of the first occurrence of `c`. */
  function IndexOf(s: string, c: char): (r: Option<nat>)
    ensures r.Some? ==> r.value < |s| && s[r.value] == c && c !in s[..r.value]
    ensures r.None? <==> c !in s
  {
    if |s| == 0 then None
    else if s[0] == c then Some(0)
    else
      match IndexOf(s[1..], c)
      case None => None
      case Some(i) =>
        assert s[..i + 1] == [s[0]] + s[1..][..i];
        Some(i + 1)
  }

  /** In `a + b`, where `a` lacks `c` and `b` opens with it, `c` first occurs at `|a|`. */
  lemma IndexOfJoin(a: string, b: string, c: char)
    requires c !in a
    requires |b| > 0 && b[0] == c
    ensures IndexOf(a + b, c) == Some(|a|)
  {
    assert (a + b)[|a|] == c;
  }

  /** A string starts with `p` exactly when it is `p` followed by the rest. */
  lemma StartsWithJoin(p: string, s: string)
    ensures StartsWith(p + s, p)
    ensures (p + s)[|p|..] == s
  {
  }
}
