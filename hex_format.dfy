/**
 Python's `format(v, "02x")` for a non-negative integer: lower-case hex
 digits without leading zeros, padded with "0" to at least two characters.
 The floating text of the tap counter builds its colours this way.
 */
module HexFormat {

  predicate IsHexDigit(c: char)
  {
    '0' <= c <= '9' || 'a' <= c <= 'f'
  }

  function HexDigit(d: nat): (c: char)
    requires d < 16
    ensures IsHexDigit(c)
  {
    if d < 10 then ('0' as int + d) as char else ('a' as int + d - 10) as char
  }

  function DigitValue(c: char): (d: nat)
    requires IsHexDigit(c)
    ensures d < 16
  {
    if c <= '9' then c as int - '0' as int else c as int - 'a' as int + 10
  }

  lemma DigitRoundTrip(d: nat)
    requires d < 16
    ensures DigitValue(HexDigit(d)) == d
  {
  }

  /** The hex digits of `v` without leading zeros (`format(v, "x")`). */
  function LowerHex(v: nat): (s: string)
    ensures |s| >= 1
    ensures forall i :: 0 <= i < |s| ==> IsHexDigit(s[i])
    decreases v
  {
    if v < 16 then [HexDigit(v)] else LowerHex(v / 16) + [HexDigit(v % 16)]
  }

  /** `format(v, "02x")`. */
  function Format02(v: nat): (s: string)
    ensures forall i :: 0 <= i < |s| ==> IsHexDigit(s[i])
  {
    if v < 16 then "0" + LowerHex(v) else LowerHex(v)
  }

  /** The value of a string of hex digits, most significant first. */
  function ParseHex(s: string): nat
    requires forall i :: 0 <= i < |s| ==> IsHexDigit(s[i])
    decreases |s|
  {
    if s == [] then 0 else ParseHex(s[..|s| - 1]) * 16 + DigitValue(s[|s| - 1])
  }

  lemma {:induction false} LowerHexRoundTrip(v: nat)
    ensures ParseHex(LowerHex(v)) == v
    decreases v
  {
    var s := LowerHex(v);
    if v < 16 {
      DigitRoundTrip(v);
    } else {
      LowerHexRoundTrip(v / 16);
      DigitRoundTrip(v % 16);
      assert s[..|s| - 1] == LowerHex(v / 16);
    }
  }

  /** One digit below 16, two below 256, more from 256 on. */
  lemma {:induction false} LowerHexLength(v: nat)
    ensures v < 16 ==> |LowerHex(v)| == 1
    ensures 16 <= v < 256 ==> |LowerHex(v)| == 2
    ensures v >= 256 ==> |LowerHex(v)| >= 3
    decreases v
  {
    if v >= 16 {
      LowerHexLength(v / 16);
    }
  }

  /** The padded form reads back as `v`, and is exactly two digits precisely when `v` is a byte. */
  lemma Format02RoundTrip(v: nat)
    ensures ParseHex(Format02(v)) == v
    ensures |Format02(v)| >= 2
    ensures |Format02(v)| == 2 <==> v < 256
  {
    LowerHexLength(v);
    if v < 16 {
      DigitRoundTrip(v);
      assert Format02(v) == ['0', HexDigit(v)];
      assert Format02(v)[..1] == ['0'];
      assert ParseHex(['0']) == 0 by {
        assert ['0'][..0] == [];
      }
    } else {
      LowerHexRoundTrip(v);
    }
  }
}
