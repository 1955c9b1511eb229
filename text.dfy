// The string operations of the JavaScript runtime that the engine relies on:
// `toLowerCase` (ASCII only), `includes`, `split("@")[0]` and integer `toString`.
module Text {

  function LowerChar(c: char): char {
    if 'A' <= c <= 'Z' then (c as int + 32) as char else c
  }

  /** ASCII lower-casing, character by character. */
  function Lower(s: string): (r: string)
    ensures |r| == |s| && forall i :: 0 <= i < |s| ==> r[i] == LowerChar(s[i])
  {
    seq(|s|, i requires 0 <= i < |s| => LowerChar(s[i]))
  }

  predicate StartsWith(s: string, p: string) {
    |p| <= |s| && s[..|p|] == p
  }

  /** `s.includes(p)`: some suffix of `s` starts with `p`; the empty pattern is in every string. */
  predicate Contains(s: string, p: string)
    ensures p == [] ==> Contains(s, p)
    ensures Contains(s, p) ==> |p| <= |s|
    decreases |s|
  {
    StartsWith(s, p) || (|s| > 0 && Contains(s[1..], p))
  }

  /** `p` occurs in `s` starting at offset `i`. */
  predicate OccursAt(s: string, p: string, i: int) {
    0 <= i <= |s| - |p| && s[i..i + |p|] == p
  }

  /** `Contains` agrees with the positional reading: `p` occurs in `s` at some offset. */
  lemma {:induction false} ContainsIffOccurs(s: string, p: string)
    ensures Contains(s, p) <==> exists i :: OccursAt(s, p, i)
    decreases |s|
  {
    if StartsWith(s, p) {
      assert s[0..0 + |p|] == s[..|p|];
      assert OccursAt(s, p, 0);
    }
    if |s| > 0 {
      ContainsIffOccurs(s[1..], p);
      if Contains(s[1..], p) {
        var i :| OccursAt(s[1..], p, i);
        assert s[i + 1..i + 1 + |p|] == s[1..][i..i + |p|];
        assert OccursAt(s, p, i + 1);
      }
      if i :| OccursAt(s, p, i) {
        if i > 0 {
          assert s[1..][i - 1..i - 1 + |p|] == s[i..i + |p|];
          assert OccursAt(s[1..], p, i - 1);
        } else {
          assert s[..|p|] == s[0..0 + |p|];
        }
      }
    } else {
      if i :| OccursAt(s, p, i) {
        assert |p| == 0 && s[..|p|] == p;
      }
    }
  }

  /** A character of `p` that `s` lacks rules out `p` occurring in `s`. */
  lemma {:induction false} MissingCharExcludes(s: string, p: string, c: char)
    requires c in p && c !in s
    ensures !Contains(s, p)
    decreases |s|
  {
    if |s| > 0 {
      MissingCharExcludes(s[1..], p, c);
    }
  }

  /** A string spelt only with `letters` cannot contain a pattern with a character outside them. */
  lemma OutsideAlphabetExcludes(s: string, p: string, letters: set<char>, k: nat)
    requires forall m :: 0 <= m < |s| ==> s[m] in letters
    requires k < |p| && p[k] !in letters
    ensures !Contains(s, p)
  {
    MissingCharExcludes(s, p, p[k]);
  }

  /** Two adjacent characters of `p` that never stand side by side in `s` rule out `p` occurring in `s`. */
  lemma {:induction false} MissingPairExcludes(s: string, p: string, k: nat)
    requires k + 1 < |p|
    requires forall i :: 0 <= i < |s| - 1 ==> !(s[i] == p[k] && s[i + 1] == p[k + 1])
    ensures !Contains(s, p)
    decreases |s|
  {
    if |p| <= |s| {
      assert !(s[k] == p[k] && s[k + 1] == p[k + 1]);
      assert s[..|p|][k] == s[k] && s[..|p|][k + 1] == s[k + 1];
    }
    if |s| > 0 {
      forall i | 0 <= i < |s[1..]| - 1
        ensures !(s[1..][i] == p[k] && s[1..][i + 1] == p[k + 1])
      {
        assert s[1..][i] == s[i + 1];
      }
      MissingPairExcludes(s[1..], p, k);
    }
  }

  /** `s.split(c)[0]`: the part of `s` before the first `c`, or all of `s` when there is none. */
  function BeforeFirst(s: string, c: char): (r: string)
    ensures |r| <= |s| && r == s[..|r|]
    ensures c !in r
    ensures |r| == |s| || s[|r|] == c
  {
    if s == [] then []
    else if s[0] == c then []
    else [s[0]] + BeforeFirst(s[1..], c)
  }

  predicate IsDigit(c: char) {
    '0' <= c <= '9'
  }

  function DigitChar(d: nat): char
    requires d < 10
  {
    ('0' as int + d) as char
  }

  /** The decimal digits of `n`, most significant first, with no leading zero. */
  function Digits(n: nat): (r: string)
    ensures |r| >= 1 && forall i :: 0 <= i < |r| ==> IsDigit(r[i])
    ensures r[0] == '0' ==> n == 0
    ensures n < 10 ==> |r| == 1
    ensures n < 100 ==> |r| <= 2
    ensures n < 1000 ==> |r| <= 3
  {
    if n < 10 then [DigitChar(n)] else Digits(n / 10) + [DigitChar(n % 10)]
  }

  /** Reads a string of decimal digits back as a number (the reference for `Digits`). */
  function ParseDigits(s: string): nat
    requires forall i :: 0 <= i < |s| ==> IsDigit(s[i])
  {
    if s == [] then 0
    else
      assert IsDigit(s[|s| - 1]);
      ParseDigits(s[..|s| - 1]) * 10 + (s[|s| - 1] as int - '0' as int)
  }

  lemma {:induction false} DigitsRoundTrip(n: nat)
    ensures ParseDigits(Digits(n)) == n
  {
    if n >= 10 {
      var d := Digits(n);
      assert d[..|d| - 1] == Digits(n / 10);
      DigitsRoundTrip(n / 10);
    }
  }

  /**
   * An integer's `toString()`: a minus sign exactly for negatives, then digits that read back as
   * its magnitude, with no leading zero except for zero itself.
   */
  function DecimalString(n: int): (r: string)
    ensures |r| >= 1 && (r[0] == '-' <==> n < 0)
    ensures n >= 0 && r[0] == '0' ==> r == "0"
    ensures n < 0 ==> |r| >= 2 && r[1] != '0'
    ensures n >= 0 ==> (forall i :: 0 <= i < |r| ==> IsDigit(r[i])) && ParseDigits(r) == n
    ensures n < 0 ==> |r| >= 2 && (forall i :: 0 <= i < |r| - 1 ==> IsDigit(r[1..][i])) && ParseDigits(r[1..]) == -n
  {
    var m := if n < 0 then -n else n;
    DigitsRoundTrip(m);
    if n < 0 then "-" + Digits(m) else Digits(m)
  }
}
