/**
 * The text form of a random UUID, as `java.util.UUID.toString` renders it:
 * the 128-bit value as 32 lower-case hexadecimal digits, most significant
 * first, grouped 8-4-4-4-12 and separated by dashes.
 */
module Uuids {

  /** 16^w: the number of values that w hexadecimal digits can write. */
  function Pow16(w: nat): (r: nat)
    ensures r >= 1
  {
    if w == 0 then 1 else 16 * Pow16(w - 1)
  }

  /** 16^32 = 2^128 distinct UUID values. */
  const UUID_SPACE: nat := Pow16(32)

  /** A UUID seen as the 128-bit number it holds. */
  type Uuid = n: nat | n < UUID_SPACE

  predicate IsHexDigit(c: char) {
    '0' <= c <= '9' || 'a' <= c <= 'f'
  }

  /** The lower-case digit for a value below 16. */
  function HexDigit(d: nat): (c: char)
    requires d < 16
    ensures IsHexDigit(c)
  {
    if d < 10 then ('0' as int + d) as char else ('a' as int + d - 10) as char
  }

  lemma HexDigitInjective(d: nat, e: nat)
    requires d < 16 && e < 16 && HexDigit(d) == HexDigit(e)
    ensures d == e
  {
  }

  /** The last `width` hexadecimal digits of `n`, padded with leading zeros. */
  function Hex(n: nat, width: nat): (s: string)
    ensures |s| == width
    ensures forall i :: 0 <= i < width ==> IsHexDigit(s[i])
  {
    if width == 0 then "" else Hex(n / 16, width - 1) + [HexDigit(n % 16)]
  }

  /** Two numbers that fit in `width` digits are written differently. */
  lemma {:induction false} HexInjective(n: nat, m: nat, width: nat)
    requires n < Pow16(width) && m < Pow16(width)
    requires Hex(n, width) == Hex(m, width)
    ensures n == m
  {
    if width > 0 {
      var s, t := Hex(n, width), Hex(m, width);
      assert s[..width - 1] == Hex(n / 16, width - 1);
      assert t[..width - 1] == Hex(m / 16, width - 1);
      HexInjective(n / 16, m / 16, width - 1);
      assert s[width - 1] == HexDigit(n % 16) && t[width - 1] == HexDigit(m % 16);
      HexDigitInjective(n % 16, m % 16);
    }
  }

  /** The 36-character text of a UUID: digits 0-7, 8-11, 12-15, 16-19, 20-31, dash-separated. */
  function UuidText(u: Uuid): (s: string)
    ensures |s| == 36
    ensures forall i :: 0 <= i < 36 ==> (s[i] == '-' <==> i == 8 || i == 13 || i == 18 || i == 23)
  {
    var h := Hex(u, 32);
    h[..8] + "-" + h[8..12] + "-" + h[12..16] + "-" + h[16..20] + "-" + h[20..]
  }

  /** The 32 digits of a UUID text, with the four dashes taken out. */
  function Digits(s: string): string
    requires |s| == 36
  {
    s[..8] + s[9..13] + s[14..18] + s[19..23] + s[24..]
  }

  lemma DigitsOfUuidText(u: Uuid)
    ensures Digits(UuidText(u)) == Hex(u, 32)
  {
    var h := Hex(u, 32);
    var s := UuidText(u);
    assert s == h[..8] + "-" + h[8..12] + "-" + h[12..16] + "-" + h[16..20] + "-" + h[20..];
    assert s[..8] == h[..8] && s[9..13] == h[8..12] && s[14..18] == h[12..16];
    assert s[19..23] == h[16..20] && s[24..] == h[20..];
    assert h == h[..8] + h[8..12] + h[12..16] + h[16..20] + h[20..];
  }

  /** Distinct UUIDs have distinct texts. */
  lemma UuidTextInjective(u: Uuid, v: Uuid)
    requires UuidText(u) == UuidText(v)
    ensures u == v
  {
    DigitsOfUuidText(u);
    DigitsOfUuidText(v);
    HexInjective(u, v, 32);
  }
}
