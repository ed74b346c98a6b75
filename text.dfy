/** The string operations the handlers apply: Python's `str.lower`,
    `str.upper` (on ASCII letters), `str.split(sep)[0]`, and substring
    containment used to state what a rendered text holds. */
module Text {

  function LowerChar(c: char): char {
    if 'A' <= c <= 'Z' then (c as int - 'A' as int + 'a' as int) as char else c
  }

  function UpperChar(c: char): char {
    if 'a' <= c <= 'z' then (c as int - 'a' as int + 'A' as int) as char else c
  }

  /** `s.lower()` restricted to ASCII letters. */
  function Lower(s: string): (r: string)
    ensures |r| == |s|
    ensures forall i :: 0 <= i < |s| ==> r[i] == LowerChar(s[i])
  {
    if s == [] then [] else [LowerChar(s[0])] + Lower(s[1..])
  }

  /** `s.upper()` restricted to ASCII letters. */
  function Upper(s: string): (r: string)
    ensures |r| == |s|
    ensures forall i :: 0 <= i < |s| ==> r[i] == UpperChar(s[i])
  {
    if s == [] then [] else [UpperChar(s[0])] + Upper(s[1..])
  }

  /** Upper-casing forgets whatever case the letters had before. */
  lemma UpperOfLower(s: string)
    ensures Upper(Lower(s)) == Upper(s)
  {
  }

  /** Two strings that agree case-insensitively upper-case to the same text. */
  lemma SameLowerSameUpper(s: string, t: string)
    requires Lower(s) == Lower(t)
    ensures Upper(s) == Upper(t)
  {
  }

  /** `s.split(c)[0]`: the text before the first `c`, or all of `s`. */
  function BeforeFirst(s: string, c: char): (r: string)
    ensures r <= s && c !in r
    ensures c in s ==> |r| < |s| && s[|r|] == c
    ensures c !in s ==> r == s
  {
    if s == [] then []
    else if s[0] == c then []
    else [s[0]] + BeforeFirst(s[1..], c)
  }

  /** Splitting text made of a separator-free part, the separator and a rest gives back that part. */
  lemma {:induction false} BeforeFirstOfJoin(part: string, c: char, rest: string)
    requires c !in part
    ensures BeforeFirst(part + [c] + rest, c) == part
  {
    if part != [] {
      BeforeFirstOfJoin(part[1..], c, rest);
      assert (part + [c] + rest)[1..] == part[1..] + [c] + rest;
    }
  }

  /** `x in s` for strings: `x` occurs in `s` as a contiguous substring. */
  predicate Infix(x: string, s: string)
    decreases |s|
  {
    x <= s || (s != [] && Infix(x, s[1..]))
  }

  lemma {:induction false} InfixAppend(x: string, s: string, t: string)
    requires Infix(x, s)
    ensures Infix(x, s + t)
  {
    if x <= s {
      assert x <= s + t;
    } else {
      InfixAppend(x, s[1..], t);
      assert (s + t)[1..] == s[1..] + t;
    }
  }

  lemma {:induction false} InfixPrepend(x: string, s: string, t: string)
    requires Infix(x, t)
    ensures Infix(x, s + t)
  {
    if s == [] {
      assert s + t == t;
    } else {
      InfixPrepend(x, s[1..], t);
      assert (s + t)[1..] == s[1..] + t;
    }
  }
}
