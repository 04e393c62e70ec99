/**
 * The few pieces of Python string formatting the core relies on:
 * `format(n, '0<w>X')`, `' '.join(...)`, `str.lower()` on ASCII text and
 * the substring test `sub in s`.
 */
module Text {
  const HEX_DIGITS: string := "0123456789ABCDEF"

  predicate IsHexDigit(c: char) {
    '0' <= c <= '9' || 'A' <= c <= 'F'
  }

  predicate AllHex(s: string) {
    forall i :: 0 <= i < |s| ==> IsHexDigit(s[i])
  }

  function DigitValue(c: char): (d: nat)
    requires IsHexDigit(c)
    ensures d < 16 && HEX_DIGITS[d] == c
  {
    if '0' <= c <= '9' then c as int - '0' as int else c as int - 'A' as int + 10
  }

  lemma {:induction false} DigitRoundTrip(d: nat)
    requires d < 16
    ensures IsHexDigit(HEX_DIGITS[d]) && DigitValue(HEX_DIGITS[d]) == d
  {
    if d < 8 {
      if d < 4 {
        if d == 0 {} else if d == 1 {} else if d == 2 {} else {}
      } else {
        if d == 4 {} else if d == 5 {} else if d == 6 {} else {}
      }
    } else {
      if d < 12 {
        if d == 8 {} else if d == 9 {} else if d == 10 {} else {}
      } else {
        if d == 12 {} else if d == 13 {} else if d == 14 {} else {}
      }
    }
  }

  /** The value of a string of upper-case hex digits, most significant first. */
  function ParseHex(s: string): nat
    requires AllHex(s)
  {
    if s == [] then 0 else ParseHex(s[..|s| - 1]) * 16 + DigitValue(s[|s| - 1])
  }

  /** The shortest upper-case hex spelling of `n` (what `format(n, 'X')` gives). */
  function HexDigits(n: nat): (s: string)
    ensures 1 <= |s| && AllHex(s)
    ensures ParseHex(s) == n
    ensures n >= 16 ==> s[0] != '0'
    decreases n
  {
    DigitRoundTrip(n % 16);
    if n < 16 then [HEX_DIGITS[n]]
    else
      var s := HexDigits(n / 16) + [HEX_DIGITS[n % 16]];
      assert s[..|s| - 1] == HexDigits(n / 16);
      s
  }

  function Pow16(k: nat): nat {
    if k == 0 then 1 else 16 * Pow16(k - 1)
  }

  lemma {:induction false} HexDigitsFit(n: nat, k: nat)
    requires 1 <= k && n < Pow16(k)
    ensures |HexDigits(n)| <= k
  {
    if n >= 16 {
      assert k >= 2;
      HexDigitsFit(n / 16, k - 1);
    }
  }

  function Zeros(k: nat): (z: string)
    ensures |z| == k && AllHex(z)
  {
    seq(k, _ => '0')
  }

  lemma {:induction false} ParseHexZeros(k: nat)
    ensures ParseHex(Zeros(k)) == 0
  {
    if k > 0 {
      assert Zeros(k)[..k - 1] == Zeros(k - 1);
      ParseHexZeros(k - 1);
    }
  }

  /** Leading zeros do not change the value of a hex string. */
  lemma {:induction false} ParseHexPadded(k: nat, s: string)
    requires AllHex(s)
    ensures AllHex(Zeros(k) + s)
    ensures ParseHex(Zeros(k) + s) == ParseHex(s)
  {
    if s == [] {
      assert Zeros(k) + s == Zeros(k);
      ParseHexZeros(k);
    } else {
      var t := Zeros(k) + s;
      assert t[..|t| - 1] == Zeros(k) + s[..|s| - 1];
      ParseHexPadded(k, s[..|s| - 1]);
    }
  }

  /** Left-pads with '0' up to `width` characters (never truncates). */
  function ZeroPad(s: string, width: nat): (r: string)
    ensures |r| == if |s| < width then width else |s|
    ensures r[|r| - |s|..] == s
  {
    Zeros(if |s| < width then width - |s| else 0) + s
  }

  /**
   * `format(n, '0<width>X')`: sign-aware zero padding to a total width of
   * `width` characters, the sign counting towards the width.
   */
  function FormatHex(n: int, width: nat): string {
    if n >= 0 then ZeroPad(HexDigits(n), width)
    else "-" + ZeroPad(HexDigits(-n), if width > 0 then width - 1 else 0)
  }

  /** A non-negative value below 16^width is written in exactly `width` digits that parse back to it. */
  lemma FormatHexRoundTrip(n: nat, width: nat)
    requires 1 <= width && n < Pow16(width)
    ensures |FormatHex(n, width)| == width
    ensures AllHex(FormatHex(n, width)) && ParseHex(FormatHex(n, width)) == n
  {
    HexDigitsFit(n, width);
    var s := HexDigits(n);
    ParseHexPadded(width - |s|, s);
    assert FormatHex(n, width) == Zeros(width - |s|) + s;
  }

  /** `format(b, '02X')` for a byte is two hex digits that parse back to it. */
  lemma Hex02RoundTrip(b: nat)
    requires b < 0x100
    ensures |FormatHex(b, 2)| == 2 && AllHex(FormatHex(b, 2)) && ParseHex(FormatHex(b, 2)) == b
  {
    assert Pow16(2) == 0x100;
    FormatHexRoundTrip(b, 2);
  }

  /** `' '.join(parts)` */
  function JoinSpace(parts: seq<string>): string {
    if parts == [] then ""
    else if |parts| == 1 then parts[0]
    else parts[0] + " " + JoinSpace(parts[1..])
  }

  /**
   * Joining two-character tokens puts token k at offset 3k: the joined text
   * splits back into the tokens it was made of.
   */
  lemma {:induction false} JoinSpaceTokens(parts: seq<string>)
    requires forall k :: 0 <= k < |parts| ==> |parts[k]| == 2
    ensures |JoinSpace(parts)| == if parts == [] then 0 else 3 * |parts| - 1
    ensures forall k :: 0 <= k < |parts| ==> JoinSpace(parts)[3 * k..3 * k + 2] == parts[k]
    ensures forall k :: 0 <= k < |parts| - 1 ==> JoinSpace(parts)[3 * k + 2] == ' '
  {
    if |parts| > 1 {
      var rest := JoinSpace(parts[1..]);
      JoinSpaceTokens(parts[1..]);
      var j := JoinSpace(parts);
      assert j == parts[0] + " " + rest;
      forall k | 0 <= k < |parts| ensures j[3 * k..3 * k + 2] == parts[k] {
        if k > 0 {
          assert j[3 * k..3 * k + 2] == rest[3 * (k - 1)..3 * (k - 1) + 2];
        }
      }
      forall k | 0 <= k < |parts| - 1 ensures j[3 * k + 2] == ' ' {
        if k > 0 {
          assert j[3 * k + 2] == rest[3 * (k - 1) + 2];
        }
      }
    }
  }

  function LowerChar(c: char): char {
    if 'A' <= c <= 'Z' then (c as int + 32) as char else c
  }

  /** `s.lower()` restricted to ASCII letters. */
  function Lower(s: string): (r: string)
    ensures |r| == |s|
    ensures forall i :: 0 <= i < |r| ==> !('A' <= r[i] <= 'Z')
    ensures forall i :: 0 <= i < |r| ==> (r[i] == s[i] || ('A' <= s[i] <= 'Z' && r[i] as int == s[i] as int + 32))
  {
    seq(|s|, i requires 0 <= i < |s| => LowerChar(s[i]))
  }

  ghost predicate OccursAt(s: string, sub: string, i: int) {
    0 <= i && i + |sub| <= |s| && s[i..i + |sub|] == sub
  }

  /** `sub in s`: the substring test, searched from the left. */
  function Contains(s: string, sub: string): (b: bool)
    ensures b <==> exists i :: OccursAt(s, sub, i)
    decreases |s|
  {
    if |s| < |sub| then false
    else if s[..|sub|] == sub then
      assert OccursAt(s, sub, 0);
      true
    else
      var b := Contains(s[1..], sub);
      assert b ==> exists i :: OccursAt(s, sub, i) by {
        if b {
          var i :| OccursAt(s[1..], sub, i);
          assert s[i + 1..i + 1 + |sub|] == s[1..][i..i + |sub|];
          assert OccursAt(s, sub, i + 1);
        }
      }
      assert (exists i :: OccursAt(s, sub, i)) ==> b by {
        if exists i :: OccursAt(s, sub, i) {
          var i :| OccursAt(s, sub, i);
          assert i != 0;
          assert s[1..][i - 1..i - 1 + |sub|] == s[i..i + |sub|];
          assert OccursAt(s[1..], sub, i - 1);
        }
      }
      b
  }

  // ---------------------------------------------------------------------
  // Byte dumps

  /** Each byte formatted as two upper-case hex digits (a negative one keeps its sign). */
  function HexTokens(bytes: seq<int>): (t: seq<string>)
    ensures |t| == |bytes| && forall k :: 0 <= k < |t| ==> t[k] == FormatHex(bytes[k], 2)
  {
    seq(|bytes|, k requires 0 <= k < |bytes| => FormatHex(bytes[k], 2))
  }

  /** Each byte as `{:02X}`, joined by single spaces. */
  function HexData(bytes: seq<int>): string {
    JoinSpace(HexTokens(bytes))
  }

  /**
   * Bytes in 0 .. 0xFF render as two-digit tokens at offsets 0, 3, 6, ...
   * that parse back to the bytes.
   */
  lemma HexDataRoundTrip(bytes: seq<int>)
    requires forall k :: 0 <= k < |bytes| ==> 0 <= bytes[k] < 0x100
    ensures |HexData(bytes)| == if bytes == [] then 0 else 3 * |bytes| - 1
    ensures forall k :: 0 <= k < |bytes| ==>
      AllHex(HexData(bytes)[3 * k..3 * k + 2]) && ParseHex(HexData(bytes)[3 * k..3 * k + 2]) == bytes[k]
  {
    var parts := HexTokens(bytes);
    forall k | 0 <= k < |parts| ensures |parts[k]| == 2 && AllHex(parts[k]) && ParseHex(parts[k]) == bytes[k] {
      Hex02RoundTrip(bytes[k]);
    }
    JoinSpaceTokens(parts);
    forall k | 0 <= k < |bytes|
      ensures AllHex(HexData(bytes)[3 * k..3 * k + 2]) && ParseHex(HexData(bytes)[3 * k..3 * k + 2]) == bytes[k]
    {
      assert HexData(bytes)[3 * k..3 * k + 2] == parts[k];
    }
  }
}
