/** base64url with padding (section 5 of RFC 4648), over the bytes of an ASCII text. */
module Base64url {
  import opened Wrappers

  function Digit(v: nat): char
    requires v < 64
  {
    if v < 26 then 'A' + v as char
    else if v < 52 then 'a' + (v - 26) as char
    else if v < 62 then '0' + (v - 52) as char
    else if v == 62 then '-' else '_'
  }

  function Value(c: char): (v: Option<nat>)
    ensures v.Some? ==> v.value < 64
  {
    if 'A' <= c <= 'Z' then Some(c as nat - 'A' as nat)
    else if 'a' <= c <= 'z' then Some(c as nat - 'a' as nat + 26)
    else if '0' <= c <= '9' then Some(c as nat - '0' as nat + 52)
    else if c == '-' then Some(62) else if c == '_' then Some(63) else None
  }

  lemma ValueOfDigit(v: nat)
    requires v < 64
    ensures Value(Digit(v)) == Some(v) && Digit(v) != '='
  {
  }

  /** Three bytes make four digits; a last group of one or two bytes is padded. */
  function Encode(bytes: seq<Byte>): string {
    if bytes == [] then ""
    else if |bytes| == 1 then [Digit(bytes[0] / 4), Digit(bytes[0] % 4 * 16)] + "=="
    else if |bytes| == 2 then
      [Digit(bytes[0] / 4), Digit(bytes[0] % 4 * 16 + bytes[1] / 16), Digit(bytes[1] % 16 * 4)] + "="
    else
      [Digit(bytes[0] / 4), Digit(bytes[0] % 4 * 16 + bytes[1] / 16), Digit(bytes[1] % 16 * 4 + bytes[2] / 64),
        Digit(bytes[2] % 64)]
      + Encode(bytes[3..])
  }

  /** Letters, digits, `-`, `_` and the padding: nothing a URL has to escape but the padding. */
  predicate UrlSafe(s: string) {
    forall i :: 0 <= i < |s| ==> SafeChar(s[i])
  }

  predicate SafeChar(c: char) {
    'A' <= c <= 'Z' || 'a' <= c <= 'z' || '0' <= c <= '9' || c == '-' || c == '_' || c == '='
  }

  lemma DigitIsSafe(v: nat)
    requires v < 64
    ensures SafeChar(Digit(v))
  {
  }

  lemma GroupIsSafe(b0: Byte, b1: Byte, b2: Byte)
    ensures UrlSafe([Digit(b0 / 4), Digit(b0 % 4 * 16)] + "==")
    ensures UrlSafe([Digit(b0 / 4), Digit(b0 % 4 * 16 + b1 / 16), Digit(b1 % 16 * 4)] + "=")
    ensures UrlSafe([Digit(b0 / 4), Digit(b0 % 4 * 16 + b1 / 16), Digit(b1 % 16 * 4 + b2 / 64), Digit(b2 % 64)])
  {
    hide Digit;
    DigitIsSafe(b0 / 4);
    DigitIsSafe(b0 % 4 * 16);
    DigitIsSafe(b0 % 4 * 16 + b1 / 16);
    DigitIsSafe(b1 % 16 * 4);
    DigitIsSafe(b1 % 16 * 4 + b2 / 64);
    DigitIsSafe(b2 % 64);
  }

  /** Four characters for every three bytes begun, all of them safe. */
  lemma {:induction false} EncodeIsUrlSafe(bytes: seq<Byte>)
    ensures UrlSafe(Encode(bytes)) && |Encode(bytes)| == (|bytes| + 2) / 3 * 4
  {
    hide Digit, SafeChar;
    if bytes != [] {
      GroupIsSafe(bytes[0], if |bytes| > 1 then bytes[1] else 0, if |bytes| > 2 then bytes[2] else 0);
    }
    if |bytes| > 2 {
      EncodeIsUrlSafe(bytes[3..]);
    }
  }

  function Decode(s: string): Option<seq<Byte>> {
    if s == "" then Some([])
    else if |s| < 4 || Value(s[0]).None? || Value(s[1]).None? then None
    else
      var v0, v1 := Value(s[0]).value, Value(s[1]).value;
      var b0 := v0 * 4 + v1 / 16;
      if s[2..] == "==" then Some([b0])
      else if Value(s[2]).None? then None
      else
        var v2 := Value(s[2]).value;
        var b1 := v1 % 16 * 16 + v2 / 4;
        if s[3..] == "=" then Some([b0, b1])
        else if Value(s[3]).None? then None
        else match Decode(s[4..])
          case None => None
          case Some(rest) => Some([b0, b1, v2 % 4 * 64 + Value(s[3]).value] + rest)
  }

  lemma Regroup(b0: Byte, b1: Byte, b2: Byte)
    ensures b0 / 4 * 4 + (b0 % 4 * 16 + b1 / 16) / 16 == b0
    ensures (b0 % 4 * 16 + b1 / 16) % 16 * 16 + (b1 % 16 * 4 + b2 / 64) / 4 == b1
    ensures (b1 % 16 * 4 + b2 / 64) % 4 * 64 + b2 % 64 == b2
  {
  }

  lemma DecodeOne(b0: Byte)
    ensures Decode([Digit(b0 / 4), Digit(b0 % 4 * 16)] + "==") == Some([b0])
  {
    var t := [Digit(b0 / 4), Digit(b0 % 4 * 16)] + "==";
    Regroup(b0, 0, 0);
    ValueOfDigit(b0 / 4);
    ValueOfDigit(b0 % 4 * 16);
    assert t[2..] == "==";
  }

  lemma DecodeTwo(b0: Byte, b1: Byte)
    ensures Decode([Digit(b0 / 4), Digit(b0 % 4 * 16 + b1 / 16), Digit(b1 % 16 * 4)] + "=") == Some([b0, b1])
  {
    var t := [Digit(b0 / 4), Digit(b0 % 4 * 16 + b1 / 16), Digit(b1 % 16 * 4)] + "=";
    Regroup(b0, b1, 0);
    ValueOfDigit(b0 / 4);
    ValueOfDigit(b0 % 4 * 16 + b1 / 16);
    ValueOfDigit(b1 % 16 * 4);
    assert t[3..] == "=" && t[2..][0] != '=';
  }

  /** A full group in front of an encoded rest. */
  lemma DecodeGroup(b0: Byte, b1: Byte, b2: Byte, s: string)
    requires Decode(s).Some?
    ensures Decode([Digit(b0 / 4), Digit(b0 % 4 * 16 + b1 / 16), Digit(b1 % 16 * 4 + b2 / 64), Digit(b2 % 64)] + s)
         == Some([b0, b1, b2] + Decode(s).value)
  {
    hide Digit, Value, Encode;
    var t := [Digit(b0 / 4), Digit(b0 % 4 * 16 + b1 / 16), Digit(b1 % 16 * 4 + b2 / 64), Digit(b2 % 64)] + s;
    Regroup(b0, b1, b2);
    ValueOfDigit(b0 / 4);
    ValueOfDigit(b0 % 4 * 16 + b1 / 16);
    ValueOfDigit(b1 % 16 * 4 + b2 / 64);
    ValueOfDigit(b2 % 64);
    assert t[4..] == s && t[2..][0] != '=' && t[3..][0] != '=';
  }

  lemma {:induction false} DecodeOfEncode(bytes: seq<Byte>)
    ensures Decode(Encode(bytes)) == Some(bytes)
  {
    if |bytes| > 2 {
      DecodeOfEncode(bytes[3..]);
      DecodeGroup(bytes[0], bytes[1], bytes[2], Encode(bytes[3..]));
      assert bytes == [bytes[0], bytes[1], bytes[2]] + bytes[3..];
    } else if |bytes| == 2 {
      DecodeTwo(bytes[0], bytes[1]);
      assert bytes == [bytes[0], bytes[1]];
    } else if |bytes| == 1 {
      DecodeOne(bytes[0]);
      assert bytes == [bytes[0]];
    }
  }

  /** UTF-8 of a text that is all ASCII. */
  function Bytes(s: string): (bytes: seq<Byte>)
    requires forall i :: 0 <= i < |s| ==> s[i] < 128 as char
    ensures |bytes| == |s|
  {
    seq(|s|, i requires 0 <= i < |s| => s[i] as nat)
  }

  /** `None` beyond ASCII, which no cursor contains. */
  function Ascii(bytes: seq<Byte>): Option<string> {
    if forall i :: 0 <= i < |bytes| ==> bytes[i] < 128
    then Some(seq(|bytes|, i requires 0 <= i < |bytes| && bytes[i] < 128 => bytes[i] as char))
    else None
  }

  lemma AsciiOfBytes(s: string)
    requires forall i :: 0 <= i < |s| ==> s[i] < 128 as char
    ensures Ascii(Bytes(s)) == Some(s)
  {
    assert Ascii(Bytes(s)).value == s;
  }
}
