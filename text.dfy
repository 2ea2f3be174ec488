/**
 * The few Python string operations that the two clients apply to player names
 * and leaderboard rows: str.upper, str.isprintable, slicing, left-aligned
 * padding and decimal formatting of integers, each with its partner.
 */
module Text {
  import opened Wrappers

  predicate IsLowerAscii(c: char) {
    'a' <= c <= 'z'
  }

  /** str.upper() of one character; only the ASCII letters are mapped. */
  function UpperChar(c: char): char {
    if IsLowerAscii(c) then (c as int - 32) as char else c
  }

  /** str.upper() of a string: same length, no lower-case ASCII letter left, everything else kept. */
  function Upper(s: string): (u: string)
    ensures |u| == |s|
    ensures forall i :: 0 <= i < |u| ==> !IsLowerAscii(u[i])
    ensures forall i :: 0 <= i < |u| && !IsLowerAscii(s[i]) ==> u[i] == s[i]
    ensures forall i :: 0 <= i < |u| && IsLowerAscii(s[i]) ==> u[i] as int + 32 == s[i] as int
  {
    seq(|s|, i requires 0 <= i < |s| => UpperChar(s[i]))
  }

  /** No lower-case ASCII letter anywhere in s: what upper-casing every typed character leaves. */
  predicate NoLower(s: string) {
    forall i :: 0 <= i < |s| ==> !IsLowerAscii(s[i])
  }

  /** Appending an upper-cased string keeps a string free of lower-case letters. */
  lemma AppendUpperKeepsNoLower(s: string, t: string)
    requires NoLower(s)
    ensures NoLower(s + Upper(t))
  {
    var u := s + Upper(t);
    forall i | 0 <= i < |u| ensures !IsLowerAscii(u[i]) {
      if i >= |s| {
        assert u[i] == Upper(t)[i - |s|];
      }
    }
  }

  /** str.isprintable() on one character: no control characters (C0, DEL, C1). */
  predicate IsPrintableChar(c: char) {
    32 <= c as int && c as int != 127 && !(128 <= c as int < 160)
  }

  /** str.isprintable(): true of the empty string too. */
  predicate IsPrintable(s: string) {
    forall i :: 0 <= i < |s| ==> IsPrintableChar(s[i])
  }

  /** The string without its last character; the empty string stays empty. */
  function DropLast(s: string): (r: string)
    ensures |s| == 0 ==> r == s
    ensures |s| > 0 ==> |r| == |s| - 1 && r + [s[|s| - 1]] == s
  {
    if |s| == 0 then s else s[..|s| - 1]
  }

  /** The first n characters of s, or all of s when it is shorter. */
  function Take(s: string, n: nat): (r: string)
    ensures |r| == if |s| <= n then |s| else n
    ensures r <= s
  {
    if |s| <= n then s else s[..n]
  }

  function Spaces(n: nat): (r: string)
    ensures |r| == n && forall i :: 0 <= i < n ==> r[i] == ' '
  {
    seq(n, i => ' ')
  }

  /** Left-aligned in a field of width w, padded with spaces and never truncated. */
  function PadRight(s: string, w: nat): (r: string)
    ensures |r| == if |s| < w then w else |s|
    ensures r[..|s|] == s
    ensures forall i :: |s| <= i < |r| ==> r[i] == ' '
  {
    if |s| < w then s + Spaces(w - |s|) else s
  }

  predicate IsDigit(c: char) {
    '0' <= c <= '9'
  }

  predicate AllDigits(s: string) {
    forall i :: 0 <= i < |s| ==> IsDigit(s[i])
  }

  function DigitChar(d: nat): (c: char)
    requires d < 10
    ensures IsDigit(c) && c as int - '0' as int == d
  {
    ('0' as int + d) as char
  }

  function DigitValue(c: char): nat
    requires IsDigit(c)
  {
    c as int - '0' as int
  }

  /** str(n) for a non-negative integer: non-empty, digits only, no leading zero. */
  function NatToString(n: nat): (s: string)
    ensures |s| > 0 && AllDigits(s)
    ensures s[0] == '0' <==> n == 0
    decreases n
  {
    if n < 10 then [DigitChar(n)] else NatToString(n / 10) + [DigitChar(n % 10)]
  }

  /** The value of a string of decimal digits, read left to right. */
  function ParseDigits(s: string): nat
    requires AllDigits(s)
  {
    if s == [] then 0 else ParseDigits(s[..|s| - 1]) * 10 + DigitValue(s[|s| - 1])
  }

  lemma {:induction false} ParseNatToString(n: nat)
    ensures ParseDigits(NatToString(n)) == n
    decreases n
  {
    if n >= 10 {
      var s := NatToString(n);
      assert s[..|s| - 1] == NatToString(n / 10);
      ParseNatToString(n / 10);
    }
  }

  /** str(i) for any integer. */
  function IntToString(i: int): (s: string)
    ensures |s| > 0
  {
    if i < 0 then "-" + NatToString(-i) else NatToString(i)
  }

  /** int(s) for the strings str() produces; None for anything else. */
  function ParseInt(s: string): Option<int> {
    if |s| > 1 && s[0] == '-' && AllDigits(s[1..]) then Some(-(ParseDigits(s[1..]) as int))
    else if |s| > 0 && AllDigits(s) then Some(ParseDigits(s))
    else None
  }

  lemma IntToStringRoundTrip(i: int)
    ensures ParseInt(IntToString(i)) == Some(i)
  {
    var n: nat := if i < 0 then -i else i;
    var d := NatToString(n);
    ParseNatToString(n);
    if i < 0 {
      var s := "-" + d;
      assert IntToString(i) == s && s[1..] == d;
    } else {
      assert IntToString(i) == d && IsDigit(d[0]);
    }
  }
}
