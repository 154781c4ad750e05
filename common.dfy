/** Small helpers shared by the backend and the front-end models: an
    optional value, the string operations the source relies on (trim,
    substring test, ASCII lower-casing, decimal rendering) and the integer
    rounding and minute/second split used by the duration displays. */
module Common {

  datatype Option<T> = None | Some(value: T) {
    function GetOr(default: T): T {
      match this
      case Some(v) => v
      case None => default
    }
  }

  // ---------------------------------------------------------------------
  // Whitespace and trimming (JavaScript `trim`, Python `strip`)
  // ---------------------------------------------------------------------

  /** The ASCII whitespace characters removed by `trim`/`strip`. */
  predicate IsSpace(c: char) {
    c == ' ' || c == '\t' || c == '\n' || c == '\r' || c == '\U{000B}' || c == '\U{000C}'
  }

  predicate IsBlank(s: string) {
    forall i :: 0 <= i < |s| ==> IsSpace(s[i])
  }

  /** Drops leading whitespace. */
  function TrimStart(s: string): (r: string)
    ensures |r| <= |s| && r == s[|s| - |r|..]
    ensures r != [] ==> !IsSpace(r[0])
    ensures IsBlank(s[..|s| - |r|])
  {
    if s != [] && IsSpace(s[0]) then
      var t := TrimStart(s[1..]);
      assert s[1..][..|s[1..]| - |t|] == s[1..|s| - |t|];
      t
    else s
  }

  /** Drops trailing whitespace. */
  function TrimEnd(s: string): (r: string)
    ensures |r| <= |s| && r == s[..|r|]
    ensures r != [] ==> !IsSpace(r[|r| - 1])
    ensures IsBlank(s[|r|..])
  {
    if s != [] && IsSpace(s[|s| - 1]) then
      var t := TrimEnd(s[..|s| - 1]);
      assert t == s[..|t|];
      assert IsBlank(s[|t|..]) by {
        forall i | 0 <= i < |s| - |t| ensures IsSpace(s[|t|..][i]) {
          if i < |s| - 1 - |t| {
            assert s[|t|..][i] == s[..|s| - 1][|t|..][i];
          }
        }
      }
      t
    else s
  }

  /** Drops whitespace at both ends; the result is empty exactly when the
      input is all whitespace. */
  function Trim(s: string): (r: string)
    ensures r == [] <==> IsBlank(s)
    ensures r != [] ==> !IsSpace(r[0]) && !IsSpace(r[|r| - 1])
  {
    var a := TrimStart(s);
    assert a == [] <==> IsBlank(s) by {
      if a == [] { assert s[..|s| - |a|] == s; }
    }
    var b := TrimEnd(a);
    assert b == [] <==> IsBlank(a) by {
      if b == [] { assert a[|b|..] == a; }
      if a != [] { assert !IsSpace(a[0]); }
    }
    assert b != [] ==> b[0] == a[0];
    b
  }

  // ---------------------------------------------------------------------
  // Substrings and case
  // ---------------------------------------------------------------------

  /** `pat` occurs in `s` (JavaScript `includes`, Python `in`). */
  predicate Contains(s: string, pat: string)
    decreases |s|
  {
    |pat| <= |s| && (s[..|pat|] == pat || Contains(s[1..], pat))
  }

  /** `pat` occurs in `s` starting at position `i`. */
  predicate OccursAt(s: string, pat: string, i: int) {
    0 <= i && i + |pat| <= |s| && s[i..i + |pat|] == pat
  }

  /** `Contains` holds exactly when `pat` appears at some position. */
  lemma {:induction false} ContainsAt(s: string, pat: string)
    ensures Contains(s, pat) <==> exists i :: OccursAt(s, pat, i)
    decreases |s|
  {
    if |pat| <= |s| && s[..|pat|] != pat {
      ContainsAt(s[1..], pat);
      if Contains(s[1..], pat) {
        var i :| OccursAt(s[1..], pat, i);
        assert s[i + 1..i + 1 + |pat|] == s[1..][i..i + |pat|];
        assert OccursAt(s, pat, i + 1);
      }
      if exists i :: OccursAt(s, pat, i) {
        var i :| OccursAt(s, pat, i);
        assert i != 0;
        assert s[1..][i - 1..i - 1 + |pat|] == s[i..i + |pat|];
        assert OccursAt(s[1..], pat, i - 1);
      }
    } else if |pat| <= |s| {
      assert OccursAt(s, pat, 0);
    } else {
      assert forall i :: !OccursAt(s, pat, i);
    }
  }

  /** A string containing `pre + pat` contains `pat`. */
  lemma ContainsSuffixOf(s: string, pre: string, pat: string)
    requires Contains(s, pre + pat)
    ensures Contains(s, pat)
  {
    ContainsAt(s, pre + pat);
    var i :| OccursAt(s, pre + pat, i);
    var j := i + |pre|;
    assert s[j..j + |pat|] == s[i..i + |pre + pat|][|pre|..];
    assert OccursAt(s, pat, j);
    ContainsAt(s, pat);
  }

  /** A string none of whose characters is the pattern's first character
      does not contain the pattern. */
  lemma NotContainsFirst(s: string, pat: string)
    requires pat != []
    requires forall k :: 0 <= k < |s| ==> s[k] != pat[0]
    ensures !Contains(s, pat)
  {
    forall i | 0 <= i && i + |pat| <= |s| ensures !OccursAt(s, pat, i) {
      assert s[i..i + |pat|][0] == s[i];
    }
    ContainsAt(s, pat);
  }

  /** ASCII lower-casing (JavaScript `toLowerCase`, Python `lower`). */
  function LowerChar(c: char): (r: char)
  {
    if 'A' <= c <= 'Z' then (c as int + 32) as char else c
  }

  function ToLower(s: string): (r: string)
    ensures |r| == |s|
    ensures forall i :: 0 <= i < |s| ==> r[i] == LowerChar(s[i])
  {
    seq(|s|, i requires 0 <= i < |s| => LowerChar(s[i]))
  }

  // ---------------------------------------------------------------------
  // Decimal rendering (template-literal interpolation of integers)
  // ---------------------------------------------------------------------

  function DigitChar(d: nat): (c: char)
    requires d < 10
  {
    ('0' as int + d) as char
  }

  predicate IsDigit(c: char) {
    '0' <= c <= '9'
  }

  /** Decimal digits of `n`, most significant first, no leading zero. */
  function NatToString(n: nat): (r: string)
    ensures |r| > 0
    ensures forall i :: 0 <= i < |r| ==> IsDigit(r[i])
    ensures |r| > 1 ==> r[0] != '0'
  {
    if n < 10 then [DigitChar(n)] else NatToString(n / 10) + [DigitChar(n % 10)]
  }

  /** The value of a string of decimal digits. */
  function DigitsValue(s: string): nat
    requires forall i :: 0 <= i < |s| ==> IsDigit(s[i])
  {
    if s == [] then 0
    else
      var last := s[|s| - 1];
      assert IsDigit(last);
      DigitsValue(s[..|s| - 1]) * 10 + (last as int - '0' as int)
  }

  /** Rendering a number in decimal loses nothing: reading it back gives it. */
  lemma {:induction false} NatToStringRoundTrip(n: nat)
    ensures DigitsValue(NatToString(n)) == n
  {
    if n >= 10 {
      NatToStringRoundTrip(n / 10);
      var r := NatToString(n);
      assert r[..|r| - 1] == NatToString(n / 10);
    }
  }

  // ---------------------------------------------------------------------
  // Numbers
  // ---------------------------------------------------------------------

  /** JavaScript `Math.round`: nearest integer, halves rounded up. */
  function JsRound(x: real): (r: int)
    ensures x - 0.5 < r as real <= x + 0.5
  {
    (x + 0.5).Floor
  }

  /** The default shown for an unanswered scale, `Math.round((min + max) / 2)`:
      the middle of the scale, a half rounded up. */
  function Midpoint(min: real, max: real): (r: int)
    ensures min + max - 1.0 < 2.0 * r as real <= min + max + 1.0
    ensures min <= max ==> min - 0.5 < r as real <= max + 0.5
  {
    JsRound((min + max) / 2.0)
  }

  /** A non-negative count of seconds split into whole minutes and the
      remaining seconds (`Math.floor(s / 60)` and `s % 60`). */
  function SplitMinutes(seconds: nat): (r: (nat, nat))
    ensures r.0 * 60 + r.1 == seconds && r.1 < 60
  {
    (seconds / 60, seconds % 60)
  }
}
