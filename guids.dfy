/** System.Guid as a 128-bit number and its two text formats. */
module Guids {

  function Pow16(w: nat): (r: nat)
    ensures r >= 1
  {
    if w == 0 then 1 else 16 * Pow16(w - 1)
  }

  /** A Guid is 128 bits, i.e. 32 hexadecimal digits. */
  type Guid = n: nat | n < Pow16(32)

  /** Guid.Empty */
  const Empty: Guid := 0

  predicate IsHexDigit(c: char)
  {
    '0' <= c <= '9' || 'a' <= c <= 'f'
  }

  function HexDigit(d: nat): (c: char)
    requires d < 16
    ensures IsHexDigit(c)
  {
    if d < 10 then ('0' as int + d) as char else ('a' as int + d - 10) as char
  }

  /** The w lowest hexadecimal digits of n, most significant first. */
  function Hex(n: nat, w: nat): (r: string)
    ensures |r| == w
    ensures forall i :: 0 <= i < w ==> IsHexDigit(r[i])
  {
    if w == 0 then "" else Hex(n / 16, w - 1) + [HexDigit(n % 16)]
  }

  /** Numbers below 16^w have distinct w-digit renderings. */
  lemma {:induction false} HexInjective(a: nat, b: nat, w: nat)
    requires a < Pow16(w) && b < Pow16(w)
    requires Hex(a, w) == Hex(b, w)
    ensures a == b
  {
    if w > 0 {
      var ha, hb := Hex(a, w), Hex(b, w);
      assert ha[w - 1] == hb[w - 1];
      assert ha[..w - 1] == Hex(a / 16, w - 1);
      assert hb[..w - 1] == Hex(b / 16, w - 1);
      HexInjective(a / 16, b / 16, w - 1);
    }
  }

  /** Guid.ToString("N"): 32 lower-case hexadecimal digits. */
  function FormatN(g: Guid): (r: string)
    ensures |r| == 32
    ensures forall i :: 0 <= i < 32 ==> IsHexDigit(r[i])
  {
    Hex(g, 32)
  }

  /** Guid.ToString(), the "D" format: 8-4-4-4-12 digits separated by hyphens. */
  function FormatD(g: Guid): (r: string)
    ensures |r| == 36
    ensures r[8] == '-' && r[13] == '-' && r[18] == '-' && r[23] == '-'
    ensures forall i :: 0 <= i < 36 ==> IsHexDigit(r[i]) || r[i] == '-'
  {
    var h := Hex(g, 32);
    h[..8] + "-" + h[8..12] + "-" + h[12..16] + "-" + h[16..20] + "-" + h[20..]
  }

  /** Neither format contains a path separator or a dot. */
  lemma FormatsHaveNoSeparator(g: Guid)
    ensures '/' !in FormatD(g) && '.' !in FormatD(g)
    ensures '/' !in FormatN(g) && '.' !in FormatN(g)
  {
    var d := FormatD(g);
    forall i | 0 <= i < 36 ensures d[i] != '/' && d[i] != '.' {
      assert IsHexDigit(d[i]) || d[i] == '-';
    }
    var n := FormatN(g);
    forall i | 0 <= i < 32 ensures n[i] != '/' && n[i] != '.' {
      assert IsHexDigit(n[i]);
    }
  }

  lemma FormatNInjective(a: Guid, b: Guid)
    requires FormatN(a) == FormatN(b)
    ensures a == b
  {
    HexInjective(a, b, 32);
  }

  /** Dropping the four hyphens of the "D" layout gives back the digits. */
  lemma DropHyphens(h: string)
    requires |h| == 32
    ensures var d := h[..8] + "-" + h[8..12] + "-" + h[12..16] + "-" + h[16..20] + "-" + h[20..];
            d[..8] + d[9..13] + d[14..18] + d[19..23] + d[24..] == h
  {
    var d := h[..8] + "-" + h[8..12] + "-" + h[12..16] + "-" + h[16..20] + "-" + h[20..];
    assert |d| == 36;
    assert forall i :: 0 <= i < 8 ==> d[i] == h[i];
    assert forall i :: 9 <= i < 13 ==> d[i] == h[i - 1];
    assert forall i :: 14 <= i < 18 ==> d[i] == h[i - 2];
    assert forall i :: 19 <= i < 23 ==> d[i] == h[i - 3];
    assert forall i :: 24 <= i < 36 ==> d[i] == h[i - 4];
    var e := d[..8] + d[9..13] + d[14..18] + d[19..23] + d[24..];
    assert |e| == 32;
    forall i | 0 <= i < 32 ensures e[i] == h[i] {
      if i < 8 { assert e[i] == d[i]; }
      else if i < 12 { assert e[i] == d[i + 1]; }
      else if i < 16 { assert e[i] == d[i + 2]; }
      else if i < 20 { assert e[i] == d[i + 3]; }
      else { assert e[i] == d[i + 4]; }
    }
  }

  lemma FormatDInjective(a: Guid, b: Guid)
    requires FormatD(a) == FormatD(b)
    ensures a == b
  {
    DropHyphens(Hex(a, 32));
    DropHyphens(Hex(b, 32));
    HexInjective(a, b, 32);
  }
}

/** Clock readings: instants in seconds for ordering and expiry, and the
  * calendar form DateTime.Now prints with a custom format. */
module Clock {

  /** A point in time, in seconds. */
  type Instant = int

  datatype DateTime = DateTime(year: nat, month: nat, day: nat, hour: nat, minute: nat, second: nat)
  {
    predicate Valid()
    {
      1 <= year <= 9999 && 1 <= month <= 12 && 1 <= day <= 31
      && hour < 24 && minute < 60 && second < 60
    }
  }

  predicate IsDecimalDigit(c: char)
  {
    '0' <= c <= '9'
  }

  /** n printed in exactly w decimal digits, zero-padded. */
  function Padded(n: nat, w: nat): (r: string)
    ensures |r| == w
    ensures forall i :: 0 <= i < w ==> IsDecimalDigit(r[i])
  {
    if w == 0 then "" else Padded(n / 10, w - 1) + [('0' as int + n % 10) as char]
  }

  /** DateTime.ToString("yyyyMMddHHmmss") */
  function Stamp(t: DateTime): (r: string)
    ensures |r| == 14
    ensures forall i :: 0 <= i < 14 ==> IsDecimalDigit(r[i])
  {
    Padded(t.year, 4) + Padded(t.month, 2) + Padded(t.day, 2)
    + Padded(t.hour, 2) + Padded(t.minute, 2) + Padded(t.second, 2)
  }
}
