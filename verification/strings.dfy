/** Character rewrites of .NET strings, as the naming decorators use them.
    Every `string.Replace` call of the decorators has a one-character old value
    and a one-character or empty new value (`s.Replace('_', '-')`,
    `s.Replace(":", "-")`, `s.Replace("@", "")`), so only those two forms are
    modelled: `ReplaceChar` and `RemoveChar`. `Substitute` is the reference
    they are compared with: one left-to-right pass rewriting each character
    into a string of its own. */
module Strings {

  /** `s.Replace(from, to)` for single characters: every `from` becomes `to`,
      every other character stays where it is. */
  function ReplaceChar(s: string, from: char, to: char): (r: string)
    ensures |r| == |s|
    ensures forall i :: 0 <= i < |s| ==> r[i] == (if s[i] == from then to else s[i])
    ensures forall x :: x != to ==> (x in r <==> x in s && x != from)
  {
    if s == [] then []
    else [if s[0] == from then to else s[0]] + ReplaceChar(s[1..], from, to)
  }

  /** `s.Replace(c.ToString(), "")`: every `c` is deleted and the other
      characters keep their order. Exactly the occurrences of `c` go, so the
      length drops by their number. */
  function RemoveChar(s: string, c: char): (r: string)
    ensures r == Substitute(s, x => if x == c then [] else [x])
    ensures forall x :: x in r <==> x in s && x != c
    ensures multiset(r) == multiset(s)[c := 0]
    ensures |r| == |s| - multiset(s)[c]
  {
    if s == [] then []
    else
      assert s == [s[0]] + s[1..];
      if s[0] == c then RemoveChar(s[1..], c)
      else [s[0]] + RemoveChar(s[1..], c)
  }

  /** The reference rewrite: each character `x` of `s`, in order, is replaced
      by the string `rule(x)`. */
  function Substitute(s: string, rule: char -> string): string
  {
    if s == [] then [] else rule(s[0]) + Substitute(s[1..], rule)
  }

  /** The reference rewrite works character by character, so it distributes
      over concatenation. */
  lemma {:induction false} SubstituteAppend(a: string, b: string, rule: char -> string)
    ensures Substitute(a + b, rule) == Substitute(a, rule) + Substitute(b, rule)
  {
    if a == [] {
      assert a + b == b;
    } else {
      assert (a + b)[0] == a[0] && (a + b)[1..] == a[1..] + b;
      SubstituteAppend(a[1..], b, rule);
    }
  }

  /** When every character is its own rewrite, the reference rewrite is the identity. */
  lemma {:induction false} SubstituteIdentity(s: string, rule: char -> string)
    requires forall i :: 0 <= i < |s| ==> rule(s[i]) == [s[i]]
    ensures Substitute(s, rule) == s
  {
    if s != [] {
      assert rule(s[0]) == [s[0]];
      SubstituteIdentity(s[1..], rule);
    }
  }
}
