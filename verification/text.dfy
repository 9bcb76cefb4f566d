/** The string operations the source borrows from Python's `str`:
    `lower`, `upper`, `in` (substring), `endswith`, `rstrip`, `join`,
    `*` on a one-character string, and `str` of a non-negative int.
    Case mapping covers ASCII letters only. */
module Text {

  function LowerChar(c: char): char {
    if 'A' <= c <= 'Z' then (c as int + 32) as char else c
  }

  function UpperChar(c: char): char {
    if 'a' <= c <= 'z' then (c as int - 32) as char else c
  }

  /** `str.lower()`. */
  function Lower(s: string): (r: string)
    ensures |r| == |s|
    ensures forall i :: 0 <= i < |s| ==> r[i] == LowerChar(s[i])
  {
    seq(|s|, i requires 0 <= i < |s| => LowerChar(s[i]))
  }

  /** `str.upper()`. */
  function Upper(s: string): (r: string)
    ensures |r| == |s|
    ensures forall i :: 0 <= i < |s| ==> r[i] == UpperChar(s[i])
  {
    seq(|s|, i requires 0 <= i < |s| => UpperChar(s[i]))
  }

  /** Lower-casing twice is lower-casing once. */
  lemma LowerIdempotent(s: string)
    ensures Lower(Lower(s)) == Lower(s)
  {
    assert forall i :: 0 <= i < |s| ==> LowerChar(LowerChar(s[i])) == LowerChar(s[i]);
  }

  /** A string without upper-case ASCII letters is its own lower-case form. */
  lemma LowerOfLower(s: string)
    requires forall i :: 0 <= i < |s| ==> !('A' <= s[i] <= 'Z')
    ensures Lower(s) == s
  {
  }

  /** `k` sits in `t` at offset `p`. */
  predicate SliceAt(t: string, k: string, p: nat) {
    p + |k| <= |t| && t[p..p + |k|] == k
  }

  /** Python's `k in t` on strings: `k` is a slice of `t`. */
  predicate Contains(t: string, k: string) {
    exists p: nat | p <= |t| :: SliceAt(t, k, p)
  }

  /** A witness offset proves a substring hit. */
  lemma ContainsAt(t: string, k: string, p: nat)
    requires p + |k| <= |t| && t[p..p + |k|] == k
    ensures Contains(t, k)
  {
    assert SliceAt(t, k, p);
  }

  /** A keyword with a character the text lacks does not occur in it. */
  lemma MissingChar(t: string, k: string, j: nat)
    requires j < |k| && k[j] !in t
    ensures !Contains(t, k)
  {
    forall p: nat
      ensures !SliceAt(t, k, p)
    {
      if p + |k| <= |t| {
        assert t[p..p + |k|][j] == t[p + j];
      }
    }
  }

  /** One differing character rules out a hit at offset `p`. */
  lemma MismatchAt(t: string, k: string, p: nat, j: nat)
    requires j < |k| && p + j < |t| && t[p + j] != k[j]
    ensures !SliceAt(t, k, p)
  {
    if p + |k| <= |t| {
      assert t[p..p + |k|][j] == t[p + j];
    }
  }

  /** A non-empty keyword never occurs in the empty string. */
  lemma NotContainedInEmpty(k: string)
    requires |k| > 0
    ensures !Contains("", k)
  {
  }

  /** `any(k in text for k in keywords[i..])`. */
  predicate HitsFrom(text: string, keywords: seq<string>, i: nat)
    decreases |keywords| - i
  {
    i < |keywords| && (Contains(text, keywords[i]) || HitsFrom(text, keywords, i + 1))
  }

  predicate AnyHit(text: string, keywords: seq<string>) {
    HitsFrom(text, keywords, 0)
  }

  lemma {:induction false} HitsFromIff(text: string, keywords: seq<string>, i: nat)
    ensures HitsFrom(text, keywords, i) <==> exists k :: i <= k < |keywords| && Contains(text, keywords[k])
    decreases |keywords| - i
  {
    if i < |keywords| {
      HitsFromIff(text, keywords, i + 1);
    }
  }

  /** `any` is true exactly when some keyword occurs in the text. */
  lemma AnyHitIff(text: string, keywords: seq<string>)
    ensures AnyHit(text, keywords) <==> exists k :: 0 <= k < |keywords| && Contains(text, keywords[k])
  {
    HitsFromIff(text, keywords, 0);
  }

  /** No keyword occurs when each one is known to be absent or has a
      character the text lacks; `js[i]` is the position of that character
      in keyword `i`. */
  lemma {:induction false} NoHitByMissingChars(text: string, keywords: seq<string>, js: seq<nat>, i: nat)
    requires |js| == |keywords|
    requires forall k :: 0 <= k < |keywords| ==>
               (js[k] < |keywords[k]| && keywords[k][js[k]] !in text) || !Contains(text, keywords[k])
    ensures !HitsFrom(text, keywords, i)
    decreases |keywords| - i
  {
    if i < |keywords| {
      if js[i] < |keywords[i]| && keywords[i][js[i]] !in text {
        MissingChar(text, keywords[i], js[i]);
      }
      NoHitByMissingChars(text, keywords, js, i + 1);
    }
  }

  /** `s.endswith(suffix)`. */
  predicate EndsWith(s: string, suffix: string) {
    |suffix| <= |s| && s[|s| - |suffix|..] == suffix
  }

  /** `s.rstrip(c)` for one character `c`. */
  function RStrip(s: string, c: char): (r: string)
    ensures |r| <= |s| && r == s[..|r|]
    ensures |r| == 0 || r[|r| - 1] != c
    ensures forall i :: |r| <= i < |s| ==> s[i] == c
  {
    if |s| > 0 && s[|s| - 1] == c then RStrip(s[..|s| - 1], c) else s
  }

  /** `sep.join(parts)`. */
  function Join(parts: seq<string>, sep: string): string {
    if |parts| == 0 then ""
    else if |parts| == 1 then parts[0]
    else Join(parts[..|parts| - 1], sep) + sep + parts[|parts| - 1]
  }

  /** `c * n` for a one-character string `c`. */
  function Repeat(c: char, n: nat): (r: string)
    ensures |r| == n && forall i :: 0 <= i < n ==> r[i] == c
  {
    seq(n, _ => c)
  }

  function DigitChar(d: nat): char
    requires d < 10
  {
    ('0' as int + d) as char
  }

  /** `str(n)` for a non-negative integer: decimal digits, no leading zero. */
  function NatToString(n: nat): (r: string)
    ensures |r| >= 1
    ensures forall i :: 0 <= i < |r| ==> '0' <= r[i] <= '9'
    ensures |r| > 1 ==> r[0] != '0'
  {
    if n < 10 then [DigitChar(n)] else NatToString(n / 10) + [DigitChar(n % 10)]
  }

  function DigitValue(c: char): nat
    requires '0' <= c <= '9'
  {
    c as int - '0' as int
  }

  /** The value of a string of decimal digits. */
  function DigitsValue(s: string): nat
    requires forall i :: 0 <= i < |s| ==> '0' <= s[i] <= '9'
  {
    if |s| == 0 then 0 else 10 * DigitsValue(s[..|s| - 1]) + DigitValue(s[|s| - 1])
  }

  /** Reading the digits back gives the number: `int(str(n)) == n`. */
  lemma {:induction false} NatToStringRoundTrip(n: nat)
    ensures DigitsValue(NatToString(n)) == n
  {
    if n >= 10 {
      NatToStringRoundTrip(n / 10);
      var s := NatToString(n);
      assert s[..|s| - 1] == NatToString(n / 10);
      assert DigitValue(s[|s| - 1]) == n % 10;
    }
  }
}
