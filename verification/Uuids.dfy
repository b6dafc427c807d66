/** UUIDs as 128-bit naturals, with their text form (section 4 of RFC 9562):
    32 lower-case hexadecimal digits grouped 8-4-4-4-12. */
module Uuids {
  import opened Wrappers

  type Uuid = n: nat | n < 0x1_0000_0000_0000_0000_0000_0000_0000_0000

  const TEXT_LENGTH: nat := 36

  function Pow16(width: nat): (p: nat)
    ensures p > 0
  {
    if width == 0 then 1 else 16 * Pow16(width - 1)
  }

  function HexDigit(d: nat): char
    requires d < 16
  {
    if d < 10 then '0' + d as char else 'a' + (d - 10) as char
  }

  function HexValue(c: char): (v: Option<nat>)
    ensures v.Some? ==> v.value < 16
  {
    if '0' <= c <= '9' then Some(c as nat - '0' as nat)
    else if 'a' <= c <= 'f' then Some(c as nat - 'a' as nat + 10)
    else None
  }

  /** `n` as exactly `width` hexadecimal digits, most significant first. */
  function Hex(n: nat, width: nat): (s: string)
    ensures |s| == width
  {
    if width == 0 then "" else Hex(n / 16, width - 1) + [HexDigit(n % 16)]
  }

  function ParseHex(s: string): Option<nat> {
    if s == "" then Some(0)
    else match (ParseHex(s[..|s| - 1]), HexValue(s[|s| - 1])) {
      case (Some(high), Some(low)) => Some(16 * high + low)
      case _ => None
    }
  }

  lemma {:induction false} ParseHexOfHex(n: nat, width: nat)
    requires n < Pow16(width)
    ensures ParseHex(Hex(n, width)) == Some(n)
  {
    if width > 0 {
      ParseHexOfHex(n / 16, width - 1);
      var s := Hex(n, width);
      assert s[..|s| - 1] == Hex(n / 16, width - 1);
      assert HexValue(HexDigit(n % 16)) == Some(n % 16);
    }
  }

  function Grouped(h: string): (s: string)
    requires |h| == 32
    ensures |s| == TEXT_LENGTH
  {
    h[..8] + "-" + h[8..12] + "-" + h[12..16] + "-" + h[16..20] + "-" + h[20..]
  }

  /** `str(uuid)`. */
  function Text(id: Uuid): (s: string)
    ensures |s| == TEXT_LENGTH
  {
    Grouped(Hex(id, 32))
  }

  /** `uuid.UUID(text)` on the canonical form. */
  function Parse(s: string): Option<Uuid> {
    if |s| != TEXT_LENGTH || s[8] != '-' || s[13] != '-' || s[18] != '-' || s[23] != '-' then None
    else match ParseHex(s[..8] + s[9..13] + s[14..18] + s[19..23] + s[24..]) {
      case Some(n) => if n < 0x1_0000_0000_0000_0000_0000_0000_0000_0000 then Some(n) else None
      case None => None
    }
  }

  lemma Pow16Of32()
    ensures Pow16(32) == 0x1_0000_0000_0000_0000_0000_0000_0000_0000
  {
    assert Pow16(8) == 0x1_0000_0000;
    assert Pow16(16) == 0x1_0000_0000_0000_0000;
    assert Pow16(24) == 0x1_0000_0000_0000_0000_0000_0000;
  }

  lemma Ungrouped(h: string)
    requires |h| == 32
    ensures var s := Grouped(h);
      s[8] == s[13] == s[18] == s[23] == '-' && s[..8] + s[9..13] + s[14..18] + s[19..23] + s[24..] == h
  {
    var s := Grouped(h);
    assert s[..8] == h[..8] && s[9..13] == h[8..12] && s[14..18] == h[12..16];
    assert s[19..23] == h[16..20] && s[24..] == h[20..];
  }

  lemma ParseText(id: Uuid)
    ensures Parse(Text(id)) == Some(id)
  {
    Pow16Of32();
    ParseHexOfHex(id, 32);
    Ungrouped(Hex(id, 32));
  }

  lemma DigitOfValue(c: char)
    requires HexValue(c).Some?
    ensures HexDigit(HexValue(c).value) == c
  {
  }

  lemma {:induction false} HexOfParseHex(s: string)
    requires ParseHex(s).Some?
    ensures Hex(ParseHex(s).value, |s|) == s
  {
    hide HexDigit, HexValue;
    if s != "" {
      var front, last := s[..|s| - 1], s[|s| - 1];
      HexOfParseHex(front);
      DigitOfValue(last);
      var high, low := ParseHex(front).value, HexValue(last).value;
      assert (16 * high + low) / 16 == high && (16 * high + low) % 16 == low;
      assert s == front + [last];
    }
  }

  lemma Regrouped(s: string)
    requires |s| == TEXT_LENGTH && s[8] == s[13] == s[18] == s[23] == '-'
    ensures Grouped(s[..8] + s[9..13] + s[14..18] + s[19..23] + s[24..]) == s
  {
    var h := s[..8] + s[9..13] + s[14..18] + s[19..23] + s[24..];
    assert h[..8] == s[..8] && h[8..12] == s[9..13] && h[12..16] == s[14..18];
    assert h[16..20] == s[19..23] && h[20..] == s[24..];
  }

  /** Nothing parses but the text of a UUID. */
  lemma TextOfParse(s: string)
    requires Parse(s).Some?
    ensures Text(Parse(s).value) == s
  {
    HexOfParseHex(s[..8] + s[9..13] + s[14..18] + s[19..23] + s[24..]);
    Regrouped(s);
  }

  lemma {:induction false} HexIsLowerCase(n: nat, width: nat)
    ensures forall c :: c in Hex(n, width) ==> '0' <= c <= '9' || 'a' <= c <= 'f'
  {
    if width > 0 {
      HexIsLowerCase(n / 16, width - 1);
    }
  }

  /** Lower-case digits in five groups. */
  lemma TextLayout(id: Uuid)
    ensures forall i :: 0 <= i < TEXT_LENGTH ==>
      if i in {8, 13, 18, 23} then Text(id)[i] == '-' else '0' <= Text(id)[i] <= '9' || 'a' <= Text(id)[i] <= 'f'
  {
    hide Hex;
    HexIsLowerCase(id, 32);
    forall i | 0 <= i < TEXT_LENGTH && i !in {8, 13, 18, 23}
      ensures Text(id)[i] in Hex(id, 32)
    {
      GroupedAt(Hex(id, 32), i);
    }
    forall i | i in {8, 13, 18, 23}
      ensures Text(id)[i] == '-'
    {
      Ungrouped(Hex(id, 32));
    }
  }

  lemma GroupedAt(h: string, i: nat)
    requires |h| == 32 && i < TEXT_LENGTH && i !in {8, 13, 18, 23}
    ensures Grouped(h)[i] in h
  {
    var before := if i < 8 then 0 else if i < 13 then 1 else if i < 18 then 2 else if i < 23 then 3 else 4;
    assert Grouped(h)[i] == h[i - before];
  }

  lemma TextInjective(a: Uuid, b: Uuid)
    requires Text(a) == Text(b)
    ensures a == b
  {
    ParseText(a);
    ParseText(b);
  }
}
