/** `datetime` values and their ISO 8601 text, as `isoformat()` writes it. */
module Timestamps {
  import opened Wrappers
  import Identity

  function DaysInMonth(year: nat, month: nat): nat {
    if month == 2 then (if (year % 4 == 0 && year % 100 != 0) || year % 400 == 0 then 29 else 28)
    else if month in {4, 6, 9, 11} then 30 else 31
  }

  /** Naive, as the database columns are, or aware in UTC, as `datetime.now(UTC)` is. */
  datatype Fields = Fields(year: nat, month: nat, day: nat, hour: nat, minute: nat, second: nat, microsecond: nat,
    utc: bool) {
    predicate Valid() {
      && 1 <= year <= 9999 && 1 <= month <= 12 && 1 <= day <= DaysInMonth(year, month)
      && hour < 24 && minute < 60 && second < 60 && microsecond < 1_000_000
    }
  }

  const EPOCH := Fields(1970, 1, 1, 0, 0, 0, 0, false)

  type DateTime = t: Fields | t.Valid() witness EPOCH

  function DayNumber(t: DateTime): nat {
    (t.year * 12 + t.month - 1) * 31 + t.day - 1
  }

  function SecondOfDay(t: DateTime): (second: nat)
    ensures second < 86_400
  {
    (t.hour * 60 + t.minute) * 60 + t.second
  }

  /** Field by field, the most significant first: the order Python and SQL compare timestamps in. */
  function Instant(t: DateTime): nat {
    (DayNumber(t) * 86_400 + SecondOfDay(t)) * 1_000_000 + t.microsecond
  }

  predicate Lexical(a: nat, b: nat, laterFields: bool) {
    a < b || (a == b && laterFields)
  }

  lemma MixedRadix(x: nat, a: nat, y: nat, b: nat, radix: nat)
    requires a < radix && b < radix
    ensures x * radix + a < y * radix + b <==> x < y || (x == y && a < b)
    ensures x * radix + a == y * radix + b <==> x == y && a == b
  {
    if x < y {
      assert (x + 1) * radix <= y * radix;
    } else if y < x {
      assert (y + 1) * radix <= x * radix;
    }
  }

  lemma DayOrders(t: DateTime, u: DateTime)
    ensures DayNumber(t) < DayNumber(u) <==> Lexical(t.year, u.year, Lexical(t.month, u.month, t.day < u.day))
    ensures DayNumber(t) == DayNumber(u) <==> t.year == u.year && t.month == u.month && t.day == u.day
  {
    MixedRadix(t.year, t.month - 1, u.year, u.month - 1, 12);
    MixedRadix(t.year * 12 + t.month - 1, t.day - 1, u.year * 12 + u.month - 1, u.day - 1, 31);
  }

  lemma SecondOrders(t: DateTime, u: DateTime)
    ensures SecondOfDay(t) < SecondOfDay(u)
      <==> Lexical(t.hour, u.hour, Lexical(t.minute, u.minute, t.second < u.second))
    ensures SecondOfDay(t) == SecondOfDay(u) <==> t.hour == u.hour && t.minute == u.minute && t.second == u.second
  {
    MixedRadix(t.hour, t.minute, u.hour, u.minute, 60);
    MixedRadix(t.hour * 60 + t.minute, t.second, u.hour * 60 + u.minute, u.second, 60);
  }

  /** The first field that differs decides, the year first. */
  predicate Earlier(t: DateTime, u: DateTime) {
    Lexical(t.year, u.year, Lexical(t.month, u.month, Lexical(t.day, u.day, Lexical(t.hour, u.hour,
      Lexical(t.minute, u.minute, Lexical(t.second, u.second, t.microsecond < u.microsecond))))))
  }

  predicate SameFields(t: DateTime, u: DateTime) {
    && t.year == u.year && t.month == u.month && t.day == u.day
    && t.hour == u.hour && t.minute == u.minute && t.second == u.second && t.microsecond == u.microsecond
  }

  /** The number orders timestamps field by field, the year first. */
  lemma InstantOrders(t: DateTime, u: DateTime)
    ensures Instant(t) < Instant(u) <==> Earlier(t, u)
    ensures Instant(t) == Instant(u) <==> SameFields(t, u)
  {
    hide DayNumber, SecondOfDay;
    DayOrders(t, u);
    SecondOrders(t, u);
    MixedRadix(DayNumber(t), SecondOfDay(t), DayNumber(u), SecondOfDay(u), 86_400);
    MixedRadix(DayNumber(t) * 86_400 + SecondOfDay(t), t.microsecond, DayNumber(u) * 86_400 + SecondOfDay(u),
      u.microsecond, 1_000_000);
  }

  function Pow10(width: nat): (p: nat)
    ensures p > 0
  {
    if width == 0 then 1 else 10 * Pow10(width - 1)
  }

  /** `n` as exactly `width` decimal digits. */
  function Padded(n: nat, width: nat): (s: string)
    ensures |s| == width
    ensures forall i :: 0 <= i < |s| ==> '0' <= s[i] <= '9'
  {
    if width == 0 then "" else Padded(n / 10, width - 1) + [Identity.DigitChar(n % 10)]
  }

  function ParsePadded(s: string): Option<nat> {
    if s == "" then Some(0)
    else match ParsePadded(s[..|s| - 1])
      case None => None
      case Some(high) =>
        var c := s[|s| - 1];
        if '0' <= c <= '9' then Some(10 * high + (c as nat - '0' as nat)) else None
  }

  lemma ParseOfDigit(high: string, n: nat)
    requires ParsePadded(high) == Some(n / 10)
    ensures ParsePadded(high + [Identity.DigitChar(n % 10)]) == Some(n)
  {
    var s := high + [Identity.DigitChar(n % 10)];
    assert s[..|s| - 1] == high;
    assert s[|s| - 1] as nat - '0' as nat == n % 10;
  }

  lemma {:induction false} ParseOfPadded(n: nat, width: nat)
    requires n < Pow10(width)
    ensures ParsePadded(Padded(n, width)) == Some(n)
  {
    if width > 0 {
      ParseOfPadded(n / 10, width - 1);
      ParseOfDigit(Padded(n / 10, width - 1), n);
    }
  }

  const DATE_LENGTH: nat := 10
  const TIME_LENGTH: nat := 8
  const HEAD_LENGTH: nat := 19

  function DateText(year: nat, month: nat, day: nat): (s: string)
    ensures |s| == DATE_LENGTH
    ensures forall i :: 0 <= i < |s| ==> s[i] < 128 as char
  {
    Padded(year, 4) + "-" + Padded(month, 2) + "-" + Padded(day, 2)
  }

  function TimeText(hour: nat, minute: nat, second: nat): (s: string)
    ensures |s| == TIME_LENGTH
    ensures forall i :: 0 <= i < |s| ==> s[i] < 128 as char
  {
    Padded(hour, 2) + ":" + Padded(minute, 2) + ":" + Padded(second, 2)
  }

  function HeadText(t: DateTime): (s: string)
    ensures |s| == HEAD_LENGTH
    ensures forall i :: 0 <= i < |s| ==> s[i] < 128 as char
  {
    DateText(t.year, t.month, t.day) + "T" + TimeText(t.hour, t.minute, t.second)
  }

  /** The fraction is left out when it is zero. */
  function FractionText(t: DateTime): (s: string)
    ensures forall i :: 0 <= i < |s| ==> s[i] < 128 as char
  {
    if t.microsecond == 0 then "" else "." + Padded(t.microsecond, 6)
  }

  const UTC_OFFSET := "+00:00"

  function IsoFormat(t: DateTime): (s: string)
    ensures forall i :: 0 <= i < |s| ==> s[i] < 128 as char
  {
    HeadText(t) + FractionText(t) + (if t.utc then UTC_OFFSET else "")
  }

  /** The three numbers of a date, or of a time of day. */
  function ParseThree(a: string, b: string, c: string): Option<(nat, nat, nat)> {
    match (ParsePadded(a), ParsePadded(b), ParsePadded(c)) {
      case (Some(x), Some(y), Some(z)) => Some((x, y, z))
      case _ => None
    }
  }

  function ParseDate(s: string): Option<(nat, nat, nat)>
    requires |s| == DATE_LENGTH
  {
    if s[4] != '-' || s[7] != '-' then None else ParseThree(s[..4], s[5..7], s[8..])
  }

  function ParseTime(s: string): Option<(nat, nat, nat)>
    requires |s| == TIME_LENGTH
  {
    if s[2] != ':' || s[5] != ':' then None else ParseThree(s[..2], s[3..5], s[6..])
  }

  function ParseHead(s: string): Option<Fields>
    requires |s| == HEAD_LENGTH
  {
    if s[10] != 'T' then None
    else match (ParseDate(s[..10]), ParseTime(s[11..])) {
      case (Some(d), Some(t)) => Some(Fields(d.0, d.1, d.2, t.0, t.1, t.2, 0, false))
      case _ => None
    }
  }

  function ParseFraction(s: string): Option<nat> {
    if s == "" then Some(0)
    else if |s| == 7 && s[0] == '.' then ParsePadded(s[1..])
    else None
  }

  /** `datetime.fromisoformat` on the texts that `isoformat` writes. */
  function FromIsoFormat(s: string): Option<DateTime> {
    if |s| < HEAD_LENGTH then None
    else
      var tail := s[HEAD_LENGTH..];
      var utc := |tail| >= |UTC_OFFSET| && tail[|tail| - |UTC_OFFSET|..] == UTC_OFFSET;
      var fraction := if utc then tail[..|tail| - |UTC_OFFSET|] else tail;
      match (ParseHead(s[..HEAD_LENGTH]), ParseFraction(fraction)) {
        case (Some(head), Some(microsecond)) =>
          var t := head.(microsecond := microsecond, utc := utc);
          if t.Valid() then Some(t) else None
        case _ => None
      }
  }

  lemma Pieces(a: string, b: string, c: string, separator: string)
    requires |separator| == 1
    ensures var s := a + separator + b + separator + c;
      s[..|a|] == a && s[|a| + 1..|a| + 1 + |b|] == b && s[|a| + |b| + 2..] == c
  {
  }

  lemma ParseThreeOfPadded(a: nat, width: nat, b: nat, c: nat)
    requires a < Pow10(width) && b < 100 && c < 100
    ensures ParseThree(Padded(a, width), Padded(b, 2), Padded(c, 2)) == Some((a, b, c))
  {
    assert Pow10(2) == 100;
    ParseOfPadded(a, width);
    ParseOfPadded(b, 2);
    ParseOfPadded(c, 2);
  }

  lemma ParseDateOfText(year: nat, month: nat, day: nat)
    requires year < 10000 && month < 100 && day < 100
    ensures ParseDate(DateText(year, month, day)) == Some((year, month, day))
  {
    assert Pow10(2) == 100 && Pow10(4) == 10000;
    ParseThreeOfPadded(year, 4, month, day);
    Pieces(Padded(year, 4), Padded(month, 2), Padded(day, 2), "-");
  }

  lemma ParseTimeOfText(hour: nat, minute: nat, second: nat)
    requires hour < 100 && minute < 100 && second < 100
    ensures ParseTime(TimeText(hour, minute, second)) == Some((hour, minute, second))
  {
    assert Pow10(2) == 100;
    ParseThreeOfPadded(hour, 2, minute, second);
    Pieces(Padded(hour, 2), Padded(minute, 2), Padded(second, 2), ":");
  }

  lemma ParseHeadOfHeadText(t: DateTime)
    ensures ParseHead(HeadText(t)) == Some(t.(microsecond := 0, utc := false))
  {
    var s := HeadText(t);
    ParseDateOfText(t.year, t.month, t.day);
    ParseTimeOfText(t.hour, t.minute, t.second);
    assert s[..10] == DateText(t.year, t.month, t.day) && s[11..] == TimeText(t.hour, t.minute, t.second);
  }

  lemma ParseFractionOfText(t: DateTime)
    ensures ParseFraction(FractionText(t)) == Some(t.microsecond)
  {
    if t.microsecond != 0 {
      assert Pow10(3) == 1000 && Pow10(6) == 1_000_000;
      ParseOfPadded(t.microsecond, 6);
      assert FractionText(t)[1..] == Padded(t.microsecond, 6);
    }
  }

  lemma FromIsoFormatOfIsoFormat(t: DateTime)
    ensures FromIsoFormat(IsoFormat(t)) == Some(t)
  {
    hide ParseHead, HeadText, ParseFraction, Padded, DaysInMonth;
    var s := IsoFormat(t);
    var fraction, offset := FractionText(t), if t.utc then UTC_OFFSET else "";
    ParseHeadOfHeadText(t);
    ParseFractionOfText(t);
    assert s[..HEAD_LENGTH] == HeadText(t);
    var tail := s[HEAD_LENGTH..];
    assert tail == fraction + offset;
    if t.utc {
      assert tail[|tail| - 6..] == UTC_OFFSET && tail[..|tail| - 6] == fraction;
    } else {
      assert tail == fraction;
      if |tail| >= 6 {
        assert tail[|tail| - 6..][0] == tail[1] != '+';
      }
    }
  }

  // ---- Nothing else parses ----

  lemma {:induction false} PaddedOfParse(s: string)
    requires ParsePadded(s).Some?
    ensures Padded(ParsePadded(s).value, |s|) == s
  {
    if s != "" {
      var front, last := s[..|s| - 1], s[|s| - 1];
      PaddedOfParse(front);
      assert Identity.DigitChar(last as nat - '0' as nat) == last;
      assert s == front + [last];
    }
  }

  lemma Split(s: string, separator: string, i: nat, j: nat)
    requires |separator| == 1 && i < j < |s| && s[i] == s[j] == separator[0]
    ensures s == s[..i] + separator + s[i + 1..j] + separator + s[j + 1..]
  {
  }

  lemma DateOfParse(s: string)
    requires |s| == DATE_LENGTH && ParseDate(s).Some?
    ensures var d := ParseDate(s).value; DateText(d.0, d.1, d.2) == s
  {
    hide Padded, ParsePadded;
    PaddedOfParse(s[..4]);
    PaddedOfParse(s[5..7]);
    PaddedOfParse(s[8..]);
    Split(s, "-", 4, 7);
  }

  lemma TimeOfParse(s: string)
    requires |s| == TIME_LENGTH && ParseTime(s).Some?
    ensures var d := ParseTime(s).value; TimeText(d.0, d.1, d.2) == s
  {
    hide Padded, ParsePadded;
    PaddedOfParse(s[..2]);
    PaddedOfParse(s[3..5]);
    PaddedOfParse(s[6..]);
    Split(s, ":", 2, 5);
  }

  lemma HeadOfParse(s: string)
    requires |s| == HEAD_LENGTH && ParseHead(s).Some?
    ensures var d, t := ParseDate(s[..10]).value, ParseTime(s[11..]).value;
      DateText(d.0, d.1, d.2) + "T" + TimeText(t.0, t.1, t.2) == s
  {
    hide DateText, TimeText, ParseDate, ParseTime;
    DateOfParse(s[..10]);
    TimeOfParse(s[11..]);
    assert s == s[..10] + "T" + s[11..];
  }

  lemma FractionOfParse(s: string)
    requires ParseFraction(s).Some?
    ensures if s == "" then ParseFraction(s).value == 0 else s == "." + Padded(ParseFraction(s).value, 6)
  {
    if s != "" {
      PaddedOfParse(s[1..]);
    }
  }

  /** Only the text of a timestamp parses, if need be with the zero fraction spelled out. */
  lemma IsoFormatOfFromIsoFormat(s: string)
    requires FromIsoFormat(s).Some?
    ensures var t := FromIsoFormat(s).value;
      || s == IsoFormat(t)
      || (t.microsecond == 0 && s == HeadText(t) + "." + Padded(0, 6) + (if t.utc then UTC_OFFSET else ""))
  {
    hide ParseHead, ParseFraction, Padded, DateText, TimeText, ParseDate, ParseTime;
    var t, tail := FromIsoFormat(s).value, s[HEAD_LENGTH..];
    var offset := if t.utc then UTC_OFFSET else "";
    var fraction := tail[..|tail| - |offset|];
    HeadIs(s[..HEAD_LENGTH]);
    assert !t.utc ==> fraction == tail;
    FractionOfParse(fraction);
    assert tail == fraction + offset;
    assert s == s[..HEAD_LENGTH] + fraction + offset;
  }

  lemma HeadIs(s: string)
    requires |s| == HEAD_LENGTH && ParseHead(s).Some?
    ensures var f := ParseHead(s).value;
      DateText(f.year, f.month, f.day) + "T" + TimeText(f.hour, f.minute, f.second) == s
  {
    HeadOfParse(s);
  }

  /** Where the separators stand. */
  lemma IsoLayout(t: DateTime)
    ensures var s := IsoFormat(t);
      && |s| == (if t.microsecond == 0 then 19 else 26) + (if t.utc then 6 else 0)
      && s[4] == s[7] == '-' && s[10] == 'T' && s[13] == s[16] == ':' && (t.microsecond != 0 ==> s[19] == '.')
      && (t.utc ==> s[|s| - 6..] == "+00:00")
  {
    hide Padded;
  }
}
