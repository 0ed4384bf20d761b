/** The handful of Python string operations the route derivation relies on,
    stated over `seq<char>`. */
module Strings {

  /** `s.lstrip(c)` for a single character `c`: drops every leading `c`. */
  function LStrip(s: string, c: char): (r: string)
    ensures |r| <= |s| && r == s[|s| - |r|..]
    ensures r == [] || r[0] != c
    ensures forall i :: 0 <= i < |s| - |r| ==> s[i] == c
    decreases |s|
  {
    if |s| > 0 && s[0] == c then LStrip(s[1..], c) else s
  }

  /** `s.rstrip(c)` for a single character `c`: drops every trailing `c`. */
  function RStrip(s: string, c: char): (r: string)
    ensures |r| <= |s| && r == s[..|r|]
    ensures r == [] || r[|r| - 1] != c
    ensures forall i :: |r| <= i < |s| ==> s[i] == c
    decreases |s|
  {
    if |s| > 0 && s[|s| - 1] == c then RStrip(s[..|s| - 1], c) else s
  }

  /** `s.replace(a, b)` for single characters `a` and `b`. */
  function ReplaceChar(s: string, a: char, b: char): (r: string)
    ensures |r| == |s|
    ensures a != b ==> a !in r
  {
    seq(|s|, i requires 0 <= i < |s| => if s[i] == a then b else s[i])
  }

  /** `s.lower()` restricted to ASCII letters. */
  function AsciiLower(s: string): (r: string)
    ensures |r| == |s|
    ensures forall i :: 0 <= i < |r| ==> !('A' <= r[i] <= 'Z')
  {
    seq(|s|, i requires 0 <= i < |s| => LowerChar(s[i]))
  }

  function LowerChar(c: char): char {
    if 'A' <= c <= 'Z' then (c as int + 32) as char else c
  }

  /** Decimal rendering of a natural number, used to name dialogue nonces. */
  function NatToString(n: nat): (r: string)
    ensures |r| >= 1
    ensures forall i :: 0 <= i < |r| ==> '0' <= r[i] <= '9'
  {
    if n < 10 then [Digit(n)] else NatToString(n / 10) + [Digit(n % 10)]
  }

  function Digit(d: nat): (c: char)
    requires d < 10
    ensures '0' <= c <= '9'
  {
    ('0' as int + d) as char
  }

  /** Stripping twice strips nothing more. */
  lemma {:induction false} LStripIdempotent(s: string, c: char)
    ensures LStrip(LStrip(s, c), c) == LStrip(s, c)
  {
  }

  /** Stripping twice strips nothing more. */
  lemma {:induction false} RStripIdempotent(s: string, c: char)
    ensures RStrip(RStrip(s, c), c) == RStrip(s, c)
  {
  }

  /** Stripping one more leading `c` gives the same result. */
  lemma {:induction false} LStripExtraPrefix(s: string, c: char)
    ensures LStrip([c] + s, c) == LStrip(s, c)
  {
    assert ([c] + s)[1..] == s;
  }

  /** Stripping one more trailing `c` gives the same result. */
  lemma {:induction false} RStripExtraSuffix(s: string, c: char)
    ensures RStrip(s + [c], c) == RStrip(s, c)
  {
    assert (s + [c])[..|s|] == s;
  }

  /** A string that does not start with `c` is left as it is by `LStrip`. */
  lemma LStripNone(s: string, c: char)
    requires s == [] || s[0] != c
    ensures LStrip(s, c) == s
  {
  }

  /** A string that does not end with `c` is left as it is by `RStrip`. */
  lemma RStripNone(s: string, c: char)
    requires s == [] || s[|s| - 1] != c
    ensures RStrip(s, c) == s
  {
  }

  /** `ReplaceChar` is determined by its pointwise description. */
  lemma ReplaceCharIs(s: string, a: char, b: char, t: string)
    requires |t| == |s|
    requires forall i :: 0 <= i < |s| ==> t[i] == (if s[i] == a then b else s[i])
    ensures ReplaceChar(s, a, b) == t
  {
  }

  /** `AsciiLower` is determined by its pointwise description. */
  lemma AsciiLowerIs(s: string, t: string)
    requires |t| == |s|
    requires forall i :: 0 <= i < |s| ==> t[i] == LowerChar(s[i])
    ensures AsciiLower(s) == t
  {
  }

  /** Replacing a character that does not occur changes nothing. */
  lemma ReplaceCharAbsent(s: string, a: char, b: char)
    requires forall j :: 0 <= j < |s| ==> s[j] != a
    ensures ReplaceChar(s, a, b) == s
  {
    ReplaceCharIs(s, a, b, s);
  }

  /** A character other than the replacement that does not occur before
      replacing does not occur after. */
  lemma ReplaceCharKeepsAbsent(s: string, a: char, b: char, x: char)
    requires x != b
    requires forall j :: 0 <= j < |s| ==> s[j] != x
    ensures forall j :: 0 <= j < |ReplaceChar(s, a, b)| ==> ReplaceChar(s, a, b)[j] != x
  {
  }

  /** Stripping does not introduce characters. */
  lemma LStripKeepsAbsent(s: string, c: char, x: char)
    requires forall j :: 0 <= j < |s| ==> s[j] != x
    ensures forall j :: 0 <= j < |LStrip(s, c)| ==> LStrip(s, c)[j] != x
  {
    var r := LStrip(s, c);
    forall j | 0 <= j < |r|
      ensures r[j] != x
    {
      assert r[j] == s[|s| - |r| + j];
    }
  }
}
