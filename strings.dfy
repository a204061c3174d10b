/** String helpers with Python's meaning: `startswith`, `in` and `"".join`. */
module Strings {

  /** `s.startswith(p)` */
  predicate StartsWith(s: string, p: string) {
    |p| <= |s| && s[..|p|] == p
  }

  /** `p in s`: `p` occurs at some position of `s`. */
  predicate Contains(s: string, p: string)
    decreases |s|
  {
    StartsWith(s, p) || (|s| > 0 && Contains(s[1..], p))
  }

  /** `"".join(fragments)` */
  function Concat(fragments: seq<string>): string {
    if |fragments| == 0 then "" else fragments[0] + Concat(fragments[1..])
  }

  lemma ConcatCons(h: string, r: seq<string>)
    ensures Concat([h] + r) == h + Concat(r)
  {
    assert ([h] + r)[1..] == r;
  }

  /** Concatenation regroups freely; stated once so proofs need not re-derive it in a large context. */
  lemma AppendAssoc<T>(a: seq<T>, b: seq<T>, c: seq<T>)
    ensures a + b + c == a + (b + c)
  {
  }

  /** A character put in front of the first fragment is put in front of the joined text. */
  lemma ConcatConsStep(c: char, r: seq<string>)
    requires |r| >= 1
    ensures Concat([[c] + r[0]] + r[1..]) == [c] + Concat(r)
  {
    ConcatCons([c] + r[0], r[1..]);
    AppendAssoc([c], r[0], Concat(r[1..]));
  }

  lemma {:induction false} ConcatAppend(a: seq<string>, b: seq<string>)
    ensures Concat(a + b) == Concat(a) + Concat(b)
    decreases |a|
  {
    if a == [] {
      assert a + b == b;
    } else {
      assert (a + b)[1..] == a[1..] + b;
      ConcatAppend(a[1..], b);
    }
  }

  /** An occurrence stays an occurrence when text is appended. */
  lemma {:induction false} ContainsAppend(s: string, b: string, p: string)
    requires Contains(s, p)
    ensures Contains(s + b, p)
    decreases |s|
  {
    if StartsWith(s, p) {
      assert (s + b)[..|p|] == s[..|p|];
    } else {
      assert (s + b)[1..] == s[1..] + b;
      ContainsAppend(s[1..], b, p);
    }
  }

  /** An occurrence stays an occurrence when text is prepended. */
  lemma {:induction false} ContainsPrepend(a: string, s: string, p: string)
    requires Contains(s, p)
    ensures Contains(a + s, p)
    decreases |a|
  {
    if a == [] {
      assert a + s == s;
    } else {
      assert (a + s)[1..] == a[1..] + s;
      ContainsPrepend(a[1..], s, p);
    }
  }
}
