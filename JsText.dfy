/** The three string operations of the JavaScript runtime that the
    application relies on: `String.prototype.includes`, the decimal form of
    a non-negative integer in a template literal, and the first piece of
    `split('T')`. */
module JsText {

  predicate StartsWith(s: string, p: string) {
    |p| <= |s| && s[..|p|] == p
  }

  /** `sub` occurs in `s` starting at index `i`. */
  ghost predicate OccursAt(s: string, sub: string, i: int) {
    0 <= i && i + |sub| <= |s| && s[i..i + |sub|] == sub
  }

  /** `s.includes(sub)`: true when `sub` occurs anywhere in `s` (always for
      the empty `sub`). */
  predicate Includes(s: string, sub: string)
    ensures sub == [] ==> Includes(s, sub)
    ensures Includes(s, sub) ==> |sub| <= |s|
    decreases |s|
  {
    StartsWith(s, sub) || (|s| > 0 && Includes(s[1..], sub))
  }

  lemma OccursAtShift(s: string, sub: string, i: int)
    requires |s| > 0 && i >= 1
    ensures OccursAt(s, sub, i) <==> OccursAt(s[1..], sub, i - 1)
  {
    if i + |sub| <= |s| {
      assert s[1..][i - 1..i - 1 + |sub|] == s[i..i + |sub|];
    }
  }

  lemma {:induction false} IncludesIffOccurs(s: string, sub: string)
    ensures Includes(s, sub) <==> exists i :: OccursAt(s, sub, i)
    decreases |s|
  {
    assert OccursAt(s, sub, 0) == StartsWith(s, sub);
    if StartsWith(s, sub) {
    } else if |s| == 0 {
      assert |sub| > 0;
    } else {
      IncludesIffOccurs(s[1..], sub);
      forall i | i >= 1 ensures OccursAt(s, sub, i) <==> OccursAt(s[1..], sub, i - 1) {
        OccursAtShift(s, sub, i);
      }
      if Includes(s[1..], sub) {
        var i :| OccursAt(s[1..], sub, i);
        assert OccursAt(s, sub, i + 1);
      }
    }
  }

  /** A string includes every piece it is built around. */
  lemma IncludesAfterPrefix(p: string, sub: string, rest: string)
    ensures Includes(p + sub + rest, sub)
  {
    var s := p + sub + rest;
    assert s[|p|..|p| + |sub|] == sub;
    assert OccursAt(s, sub, |p|);
    IncludesIffOccurs(s, sub);
  }

  /** Every character of an included piece occurs in the string. */
  lemma IncludedCharsOccur(s: string, sub: string, c: char)
    ensures Includes(s, sub) && c in sub ==> c in s
  {
    if Includes(s, sub) && c in sub {
      IncludesIffOccurs(s, sub);
      var i :| OccursAt(s, sub, i);
      var j :| 0 <= j < |sub| && sub[j] == c;
      assert s[i..i + |sub|][j] == s[i + j];
    }
  }

  function DigitChar(d: nat): (c: char)
    requires d < 10
    ensures '0' <= c <= '9'
  {
    ('0' as int + d) as char
  }

  predicate IsDigit(c: char) {
    '0' <= c <= '9'
  }

  predicate AllDigits(s: string) {
    forall i :: 0 <= i < |s| ==> IsDigit(s[i])
  }

  /** The decimal form of `n` with no leading zeros, as `${n}` writes it. */
  function NatToString(n: nat): (r: string)
    ensures |r| > 0 && AllDigits(r)
    ensures r[0] == '0' ==> n == 0
    decreases n
  {
    if n < 10 then [DigitChar(n)]
    else
      var high := NatToString(n / 10);
      assert (high + [DigitChar(n % 10)])[0] == high[0];
      high + [DigitChar(n % 10)]
  }

  /** The value of a string of decimal digits (the inverse of `NatToString`). */
  function DecimalValue(s: string): nat
    requires AllDigits(s)
    decreases |s|
  {
    if s == [] then 0
    else DecimalValue(s[..|s| - 1]) * 10 + (s[|s| - 1] as int - '0' as int)
  }

  lemma {:induction false} DecimalValueOfNatToString(n: nat)
    ensures DecimalValue(NatToString(n)) == n
    decreases n
  {
    var s := NatToString(n);
    if n < 10 {
      assert s[..|s| - 1] == [];
    } else {
      DecimalValueOfNatToString(n / 10);
      assert s[..|s| - 1] == NatToString(n / 10);
    }
  }

  /** Distinct numbers have distinct decimal forms. */
  lemma NatToStringInjective(m: nat, n: nat)
    requires NatToString(m) == NatToString(n)
    ensures m == n
  {
    DecimalValueOfNatToString(m);
    DecimalValueOfNatToString(n);
  }

  /** `s.split('T')[0]`: the part of `s` before its first 'T', or all of `s`
      when it has none. */
  function BeforeFirstT(s: string): (r: string)
    ensures 'T' !in r
    ensures StartsWith(s, r)
    ensures |r| < |s| ==> s[|r|] == 'T'
    decreases |s|
  {
    if s == [] then []
    else if s[0] == 'T' then []
    else [s[0]] + BeforeFirstT(s[1..])
  }

  /** On an ISO timestamp `d + "T" + time` whose date part has no 'T', the
      result is the date part. */
  lemma {:induction false} BeforeFirstTOfTimestamp(d: string, time: string)
    requires 'T' !in d
    ensures BeforeFirstT(d + "T" + time) == d
    decreases |d|
  {
    if d != [] {
      var s := d + "T" + time;
      assert s[0] == d[0];
      assert s[1..] == d[1..] + "T" + time;
      BeforeFirstTOfTimestamp(d[1..], time);
    }
  }
}
