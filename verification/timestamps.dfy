/**
 * `format_time`: an ISO-8601 timestamp from the guide API becomes the
 * XMLTV form `YYYYMMDDHHMMSS ±HHMM`. The parse is the subset
 * `YYYY-MM-DDTHH:MM:SS` followed by nothing, by `Z` or by `±HH:MM`;
 * every other string is treated as one `datetime.fromisoformat` rejects.
 */
module Timestamps {
  import opened Values

  /**
   * A UTC offset as written: `-00:00` and `+00:00` are kept apart, and the
   * minute field may exceed 59 (`+00:75` is 75 minutes east).
   */
  datatype Offset = Offset(negative: bool, hours: nat, minutes: nat)

  /** The size of an offset in minutes, as `timedelta(hours=h, minutes=m)` sums it. */
  function Minutes(o: Offset): nat {
    o.hours * 60 + o.minutes
  }

  /** A parsed timestamp; no offset is Python's naive datetime. */
  datatype DateTime = DateTime(year: nat, month: nat, day: nat,
                               hour: nat, minute: nat, second: nat,
                               offset: Option<Offset>)

  predicate IsLeapYear(y: nat) {
    y % 4 == 0 && (y % 100 != 0 || y % 400 == 0)
  }

  function DaysInMonth(y: nat, m: nat): nat
    requires 1 <= m <= 12
  {
    if m == 2 then (if IsLeapYear(y) then 29 else 28)
    else if m == 4 || m == 6 || m == 9 || m == 11 then 30
    else 31
  }

  /**
   * The timestamps of the modelled subset that Python accepts: a real
   * calendar date from year 1000 on, a time of day without leap second,
   * and an offset of two-digit fields whose total stays strictly below
   * 24 hours (the bound `timezone` enforces; the fields themselves are
   * not range-checked).
   */
  predicate Valid(t: DateTime) {
    && 1000 <= t.year <= 9999
    && 1 <= t.month <= 12
    && 1 <= t.day <= DaysInMonth(t.year, t.month)
    && t.hour < 24 && t.minute < 60 && t.second < 60
    && (t.offset.Some? ==> t.offset.value.minutes < 100 && Minutes(t.offset.value) < 24 * 60)
  }

  predicate IsDigit(c: char) { '0' <= c <= '9' }

  predicate AllDigits(s: string) {
    forall k :: 0 <= k < |s| ==> IsDigit(s[k])
  }

  function Pow10(w: nat): nat {
    if w == 0 then 1 else 10 * Pow10(w - 1)
  }

  function DigitChar(d: nat): (c: char)
    requires d < 10
    ensures IsDigit(c)
  {
    ('0' as int + d) as char
  }

  /** The value of a string of decimal digits. */
  function Number(s: string): (n: nat)
    requires AllDigits(s)
    ensures n < Pow10(|s|)
    decreases |s|
  {
    if s == [] then 0
    else
      var init := s[..|s| - 1];
      assert AllDigits(init) by {
        forall k | 0 <= k < |init| ensures IsDigit(init[k]) { assert init[k] == s[k]; }
      }
      var n' := Number(init);
      assert n' * 10 + 9 < Pow10(|s|) by {
        assert n' + 1 <= Pow10(|init|);
        assert (n' + 1) * 10 <= Pow10(|init|) * 10;
      }
      n' * 10 + (s[|s| - 1] as int - '0' as int)
  }

  /** `n` written with exactly `w` digits, zero-padded on the left (`%04d`, `%02d`). */
  function Pad(n: nat, w: nat): (r: string)
    ensures |r| == w && AllDigits(r)
  {
    if w == 0 then "" else Pad(n / 10, w - 1) + [DigitChar(n % 10)]
  }

  /** Zero-padding loses nothing for a number that fits its width. */
  lemma {:induction false} NumberOfPad(n: nat, w: nat)
    requires n < Pow10(w)
    ensures Number(Pad(n, w)) == n
  {
    if w > 0 {
      assert n / 10 < Pow10(w - 1);
      NumberOfPad(n / 10, w - 1);
      var p := Pad(n, w);
      assert p[..|p| - 1] == Pad(n / 10, w - 1);
    }
  }

  /** A digit string is the padding of its own value. */
  lemma {:induction false} PadOfNumber(s: string)
    requires AllDigits(s)
    ensures Pad(Number(s), |s|) == s
    decreases |s|
  {
    if s != [] {
      var init := s[..|s| - 1];
      assert AllDigits(init) by {
        forall k | 0 <= k < |init| ensures IsDigit(init[k]) { assert init[k] == s[k]; }
      }
      PadOfNumber(init);
      var d := s[|s| - 1] as int - '0' as int;
      assert Number(s) / 10 == Number(init) && Number(s) % 10 == d;
      assert s == init + [s[|s| - 1]];
    }
  }

  // ---- the ISO-8601 subset ----

  function DateText(t: DateTime): (r: string)
    ensures |r| == 10
  {
    Pad(t.year, 4) + "-" + Pad(t.month, 2) + "-" + Pad(t.day, 2)
  }

  function ClockText(t: DateTime): (r: string)
    ensures |r| == 8
  {
    Pad(t.hour, 2) + ":" + Pad(t.minute, 2) + ":" + Pad(t.second, 2)
  }

  function OffsetText(offset: Option<Offset>): (r: string)
    ensures |r| == if offset.Some? then 6 else 0
  {
    match offset
    case None => ""
    case Some(o) => (if o.negative then "-" else "+") + Pad(o.hours, 2) + ":" + Pad(o.minutes, 2)
  }

  /** The ISO-8601 text of a timestamp, as `datetime.isoformat()` writes it. */
  function IsoText(t: DateTime): (r: string)
    ensures |r| == 19 + |OffsetText(t.offset)|
  {
    DateText(t) + "T" + ClockText(t) + OffsetText(t.offset)
  }

  /** The three numbers of `DDDD?DD?DD`-shaped text (a date or a clock time). */
  predicate Shaped(s: string, w: nat, sep: char) {
    |s| == w + 6 && AllDigits(s[..w]) && s[w] == sep &&
    AllDigits(s[w + 1..w + 3]) && s[w + 3] == sep && AllDigits(s[w + 4..])
  }

  predicate OffsetShaped(s: string) {
    |s| == 6 && (s[0] == '+' || s[0] == '-') && AllDigits(s[1..3]) && s[3] == ':' && AllDigits(s[4..])
  }

  function ParseOffset(s: string): Option<Option<Offset>> {
    if s == [] then Some(None)
    else if OffsetShaped(s) then Some(Some(Offset(s[0] == '-', Number(s[1..3]), Number(s[4..]))))
    else None
  }

  /** `datetime.fromisoformat` restricted to the subset; None where it raises ValueError. */
  function ParseIso(s: string): (r: Option<DateTime>)
    ensures r.Some? ==> Valid(r.value)
  {
    if |s| < 19 || !Shaped(s[..10], 4, '-') || s[10] != 'T' || !Shaped(s[11..19], 2, ':') then None
    else
      var date, clock := s[..10], s[11..19];
      match ParseOffset(s[19..])
      case None => None
      case Some(offset) =>
        var t := DateTime(Number(date[..4]), Number(date[5..7]), Number(date[8..]),
                          Number(clock[..2]), Number(clock[3..5]), Number(clock[6..]), offset);
        if Valid(t) then Some(t) else None
  }

  lemma DateRoundTrip(t: DateTime)
    requires Valid(t)
    ensures var d := DateText(t);
            Shaped(d, 4, '-') && Number(d[..4]) == t.year && Number(d[5..7]) == t.month &&
            Number(d[8..]) == t.day
  {
    var d := DateText(t);
    assert d[..4] == Pad(t.year, 4);
    assert d[5..7] == Pad(t.month, 2);
    assert d[8..] == Pad(t.day, 2);
    NumberOfPad(t.year, 4);
    NumberOfPad(t.month, 2);
    NumberOfPad(t.day, 2);
  }

  lemma ClockRoundTrip(t: DateTime)
    requires Valid(t)
    ensures var c := ClockText(t);
            Shaped(c, 2, ':') && Number(c[..2]) == t.hour && Number(c[3..5]) == t.minute &&
            Number(c[6..]) == t.second
  {
    var c := ClockText(t);
    assert c[..2] == Pad(t.hour, 2);
    assert c[3..5] == Pad(t.minute, 2);
    assert c[6..] == Pad(t.second, 2);
    NumberOfPad(t.hour, 2);
    NumberOfPad(t.minute, 2);
    NumberOfPad(t.second, 2);
  }

  lemma OffsetRoundTrip(offset: Option<Offset>)
    requires offset.Some? ==> offset.value.hours < 100 && offset.value.minutes < 100
    ensures ParseOffset(OffsetText(offset)) == Some(offset)
  {
    if offset.Some? {
      var o, s := offset.value, OffsetText(offset);
      var sign, hh, mm := if o.negative then "-" else "+", Pad(o.hours, 2), Pad(o.minutes, 2);
      assert s == sign + hh + ":" + mm;
      assert s[0] == sign[0] && (s[0] == '-' <==> o.negative);
      assert s[1..3] == hh && s[3] == ':' && s[4..] == mm;
      NumberOfPad(o.hours, 2);
      NumberOfPad(o.minutes, 2);
      assert OffsetShaped(s);
    }
  }

  /** Every valid timestamp's ISO text parses back to it. */
  lemma IsoRoundTrip(t: DateTime)
    requires Valid(t)
    ensures ParseIso(IsoText(t)) == Some(t)
  {
    var s := IsoText(t);
    assert s[..10] == DateText(t);
    assert s[10] == 'T';
    assert s[11..19] == ClockText(t);
    assert s[19..] == OffsetText(t.offset);
    DateRoundTrip(t);
    ClockRoundTrip(t);
    OffsetRoundTrip(t.offset);
  }

  lemma DateCanonical(d: string)
    requires Shaped(d, 4, '-')
    ensures Pad(Number(d[..4]), 4) + "-" + Pad(Number(d[5..7]), 2) + "-" + Pad(Number(d[8..]), 2) == d
  {
    PadOfNumber(d[..4]);
    PadOfNumber(d[5..7]);
    PadOfNumber(d[8..]);
    assert d == d[..4] + [d[4]] + d[5..7] + [d[7]] + d[8..];
  }

  lemma ClockCanonical(c: string)
    requires Shaped(c, 2, ':')
    ensures Pad(Number(c[..2]), 2) + ":" + Pad(Number(c[3..5]), 2) + ":" + Pad(Number(c[6..]), 2) == c
  {
    PadOfNumber(c[..2]);
    PadOfNumber(c[3..5]);
    PadOfNumber(c[6..]);
    assert c == c[..2] + [c[2]] + c[3..5] + [c[5]] + c[6..];
  }

  lemma OffsetCanonical(s: string)
    requires ParseOffset(s).Some?
    ensures OffsetText(ParseOffset(s).value) == s
  {
    if s != [] {
      PadOfNumber(s[1..3]);
      PadOfNumber(s[4..]);
      assert s == [s[0]] + s[1..3] + [s[3]] + s[4..];
    }
  }

  /** The parser accepts nothing but the canonical text of what it returns. */
  lemma IsoCanonical(s: string)
    requires ParseIso(s).Some?
    ensures IsoText(ParseIso(s).value) == s
  {
    IsoDatePart(s);
    IsoClockPart(s);
    IsoOffsetPart(s);
    assert s == s[..10] + [s[10]] + s[11..19] + s[19..];
  }

  lemma IsoDatePart(s: string)
    requires ParseIso(s).Some?
    ensures DateText(ParseIso(s).value) == s[..10]
  {
    DateCanonical(s[..10]);
  }

  lemma IsoClockPart(s: string)
    requires ParseIso(s).Some?
    ensures s[10] == 'T' && ClockText(ParseIso(s).value) == s[11..19]
  {
    ClockCanonical(s[11..19]);
  }

  lemma IsoOffsetPart(s: string)
    requires ParseIso(s).Some?
    ensures |s| >= 19 && OffsetText(ParseIso(s).value.offset) == s[19..]
  {
    OffsetCanonical(s[19..]);
  }

  // ---- the XMLTV form ----

  /**
   * `%z`: `+HHMM` or `-HHMM` for an aware datetime, empty for a naive one.
   * The offset is printed from its total, so `+00:75` shows as `+0115` and
   * `-00:00` as `+0000`.
   */
  function ZoneText(offset: Option<Offset>): string {
    match offset
    case None => ""
    case Some(o) =>
      (if o.negative && Minutes(o) > 0 then "-" else "+") +
      Pad(Minutes(o) / 60, 2) + Pad(Minutes(o) % 60, 2)
  }

  /** The fourteen digits of `%Y%m%d%H%M%S`. */
  function DigitsText(t: DateTime): (r: string)
    ensures |r| == 14 && AllDigits(r)
  {
    Pad(t.year, 4) + Pad(t.month, 2) + Pad(t.day, 2) +
    Pad(t.hour, 2) + Pad(t.minute, 2) + Pad(t.second, 2)
  }

  lemma DigitsFields(t: DateTime)
    requires Valid(t)
    ensures var r := DigitsText(t);
            && Number(r[..4]) == t.year && Number(r[4..6]) == t.month && Number(r[6..8]) == t.day
            && Number(r[8..10]) == t.hour && Number(r[10..12]) == t.minute
            && Number(r[12..14]) == t.second
  {
    var r := DigitsText(t);
    var p1, p2, p3 := Pad(t.year, 4), Pad(t.month, 2), Pad(t.day, 2);
    var p4, p5, p6 := Pad(t.hour, 2), Pad(t.minute, 2), Pad(t.second, 2);
    assert r == p1 + p2 + p3 + p4 + p5 + p6;
    assert r[..4] == p1 && r[4..6] == p2 && r[6..8] == p3;
    assert r[8..10] == p4 && r[10..12] == p5 && r[12..14] == p6;
    NumberOfPad(t.year, 4);
    NumberOfPad(t.month, 2);
    NumberOfPad(t.day, 2);
    NumberOfPad(t.hour, 2);
    NumberOfPad(t.minute, 2);
    NumberOfPad(t.second, 2);
  }

  lemma ZoneFields(o: Offset)
    requires Minutes(o) < 24 * 60
    ensures var z := ZoneText(Some(o));
            && |z| == 5 && (z[0] == '+' || z[0] == '-') && AllDigits(z[1..])
            && Number(z[1..3]) < 24 && Number(z[3..]) < 60
            && Number(z[1..3]) * 60 + Number(z[3..]) == Minutes(o)
            && (z[0] == '-' <==> o.negative && Minutes(o) > 0)
  {
    var z := ZoneText(Some(o));
    var total := Minutes(o);
    var sign := if o.negative && total > 0 then "-" else "+";
    var hh, mm := Pad(total / 60, 2), Pad(total % 60, 2);
    assert z == sign + hh + mm;
    assert z[0] == sign[0];
    assert z[1..] == hh + mm;
    assert z[1..3] == hh && z[3..] == mm;
    assert AllDigits(hh + mm);
    NumberOfPad(total / 60, 2);
    NumberOfPad(total % 60, 2);
  }

  /** `strftime('%Y%m%d%H%M%S %z')`. */
  function XmltvText(t: DateTime): string {
    DigitsText(t) + " " + ZoneText(t.offset)
  }

  /** Fourteen digits, a space, then a signed four-digit zone or nothing. */
  predicate XmltvShaped(r: string) {
    (|r| == 15 || |r| == 20) && AllDigits(r[..14]) && r[14] == ' ' &&
    (|r| == 20 ==> (r[15] == '+' || r[15] == '-') && AllDigits(r[16..]))
  }

  /** The XMLTV text encodes every field of the timestamp and its zone. */
  lemma XmltvFields(t: DateTime)
    requires Valid(t)
    ensures var r := XmltvText(t);
            && XmltvShaped(r)
            && Number(r[..4]) == t.year && Number(r[4..6]) == t.month && Number(r[6..8]) == t.day
            && Number(r[8..10]) == t.hour && Number(r[10..12]) == t.minute
            && Number(r[12..14]) == t.second
            && (t.offset.None? <==> |r| == 15)
            && (t.offset.Some? ==>
                  && Number(r[16..18]) < 24 && Number(r[18..]) < 60
                  && Number(r[16..18]) * 60 + Number(r[18..]) == Minutes(t.offset.value)
                  && (r[15] == '-' <==> t.offset.value.negative && Minutes(t.offset.value) > 0))
  {
    var r, digits, zone := XmltvText(t), DigitsText(t), ZoneText(t.offset);
    assert r[..14] == digits;
    assert r[..4] == digits[..4] && r[4..6] == digits[4..6] && r[6..8] == digits[6..8];
    assert r[8..10] == digits[8..10] && r[10..12] == digits[10..12] && r[12..14] == digits[12..14];
    DigitsFields(t);
    if t.offset.Some? {
      ZoneFields(t.offset.value);
      assert r[15..] == zone;
      assert r[16..18] == zone[1..3] && r[18..] == zone[3..];
      assert r[16..] == zone[1..];
    }
  }

  // ---- format_time ----

  /** `s.replace('Z', '+00:00')`. */
  function ReplaceZ(s: string): (r: string)
    ensures 'Z' !in s ==> r == s
    ensures 'Z' !in r
    decreases |s|
  {
    if s == [] then ""
    else
      ReplaceZ(s[..|s| - 1]) + (if s[|s| - 1] == 'Z' then "+00:00" else [s[|s| - 1]])
  }

  /**
   * `format_time(time_str)`: the empty string for a falsy value, for a
   * value without `.replace` (AttributeError) and for text
   * `fromisoformat` rejects (ValueError); the XMLTV form otherwise.
   */
  function FormatTime(v: Json): (r: string)
    ensures !Truthy(v) || !v.Str? ==> r == ""
    ensures r != "" <==> v.Str? && ParseIso(ReplaceZ(v.s)).Some?
    ensures r == "" || XmltvShaped(r)
  {
    if !Truthy(v) then ""
    else match v
      case Str(s) =>
        (match ParseIso(ReplaceZ(s))
         case Some(t) => XmltvFields(t); XmltvText(t)
         case None => "")
      case _ => ""
  }

  /** A timestamp written with an offset (or none) converts to its XMLTV text. */
  lemma FormatIso(t: DateTime)
    requires Valid(t)
    ensures FormatTime(Str(IsoText(t))) == XmltvText(t)
  {
    var s := IsoText(t);
    assert 'Z' !in s by {
      IsoDigitsOnly(t);
    }
    IsoRoundTrip(t);
  }

  lemma IsoDigitsOnly(t: DateTime)
    ensures forall k :: 0 <= k < |IsoText(t)| ==> IsoText(t)[k] != 'Z'
  {
    var d, c, o := DateText(t), ClockText(t), OffsetText(t.offset);
    assert forall k :: 0 <= k < |d| ==> d[k] != 'Z' by {
      var p1, p2, p3 := Pad(t.year, 4), Pad(t.month, 2), Pad(t.day, 2);
      assert d == p1 + "-" + p2 + "-" + p3;
    }
    assert forall k :: 0 <= k < |c| ==> c[k] != 'Z' by {
      var p1, p2, p3 := Pad(t.hour, 2), Pad(t.minute, 2), Pad(t.second, 2);
      assert c == p1 + ":" + p2 + ":" + p3;
    }
    assert forall k :: 0 <= k < |o| ==> o[k] != 'Z';
    var s := IsoText(t);
    assert s == d + "T" + c + o;
    forall k | 0 <= k < |s| ensures s[k] != 'Z' {
      if k < 10 { assert s[k] == d[k]; }
      else if k == 10 { }
      else if k < 19 { assert s[k] == c[k - 11]; }
      else { assert s[k] == o[k - 19]; }
    }
  }

  /** A `Z` suffix reads as the zero offset `+00:00`. */
  lemma FormatZulu(t: DateTime)
    requires Valid(t) && t.offset.None?
    ensures FormatTime(Str(DateText(t) + "T" + ClockText(t) + "Z")) ==
            XmltvText(t.(offset := Some(Offset(false, 0, 0))))
  {
    var utc := t.(offset := Some(Offset(false, 0, 0)));
    var base := DateText(t) + "T" + ClockText(t);
    IsoDigitsOnly(t);
    assert IsoText(t) == base;
    assert 'Z' !in base;
    var s := base + "Z";
    assert s[..|s| - 1] == base;
    assert ReplaceZ(s) == base + "+00:00";
    assert OffsetText(utc.offset) == "+00:00";
    assert IsoText(utc) == base + "+00:00";
    IsoRoundTrip(utc);
  }

  lemma ExamplePads()
    ensures Pad(2024, 4) == "2024" && Pad(1, 2) == "01" && Pad(15, 2) == "15"
    ensures Pad(10, 2) == "10" && Pad(30, 2) == "30" && Pad(0, 2) == "00"
  {
    ExampleDatePads();
    ExampleClockPads();
  }

  lemma ExampleDatePads()
    ensures Pad(2024, 4) == "2024" && Pad(1, 2) == "01" && Pad(15, 2) == "15"
  {
    assert Pad(2, 1) == "2";
    assert Pad(20, 2) == "20";
    assert Pad(202, 3) == "202";
  }

  lemma ExampleClockPads()
    ensures Pad(10, 2) == "10" && Pad(30, 2) == "30" && Pad(0, 2) == "00"
  {
  }

  /** The input text of the worked example. */
  lemma ExampleIso(t: DateTime)
    requires t == DateTime(2024, 1, 15, 10, 30, 0, None)
    ensures DateText(t) + "T" + ClockText(t) + "Z" == "2024-01-15T10:30:00Z"
  {
    ExamplePads();
    assert DateText(t) == "2024-01-15";
    assert ClockText(t) == "10:30:00";
    assert "2024-01-15" + "T" + "10:30:00" + "Z" == "2024-01-15T10:30:00Z";
  }

  /** The output text of the worked example. */
  lemma ExampleXmltv(t: DateTime)
    requires t == DateTime(2024, 1, 15, 10, 30, 0, Some(Offset(false, 0, 0)))
    ensures XmltvText(t) == "20240115103000 +0000"
  {
    ExamplePads();
    assert ZoneText(t.offset) == "+0000";
    ExampleDigits(t);
    assert "20240115103000" + " " == "20240115103000 ";
    assert "20240115103000 " + "+0000" == "20240115103000 +0000";
  }

  /** The worked example: `Z` becomes `+0000`. */
  lemma FormatTimeExample(s: string)
    requires s == "2024-01-15T10:30:00Z"
    ensures FormatTime(Str(s)) == "20240115103000 +0000"
  {
    var t := DateTime(2024, 1, 15, 10, 30, 0, None);
    ExampleIso(t);
    ExampleXmltv(t.(offset := Some(Offset(false, 0, 0))));
    FormatZulu(t);
  }

  /** A minute field past 59 is accepted and printed normalised: `+00:75` becomes `+0115`. */
  lemma FormatMinuteOverflow(s: string)
    requires s == "2024-01-15T10:30:00+00:75"
    ensures FormatTime(Str(s)) == "20240115103000 +0115"
  {
    var t := DateTime(2024, 1, 15, 10, 30, 0, Some(Offset(false, 0, 75)));
    OverflowIso(t);
    FormatIso(t);
    OverflowXmltv(t);
  }

  lemma OverflowIso(t: DateTime)
    requires t == DateTime(2024, 1, 15, 10, 30, 0, Some(Offset(false, 0, 75)))
    ensures Valid(t) && IsoText(t) == "2024-01-15T10:30:00+00:75"
  {
    ExamplePads();
    assert Pad(75, 2) == "75";
    assert DateText(t) == "2024-01-15";
    assert ClockText(t) == "10:30:00";
    assert OffsetText(t.offset) == "+00:75";
    assert "2024-01-15" + "T" + "10:30:00" + "+00:75" == "2024-01-15T10:30:00+00:75";
  }

  lemma OverflowXmltv(t: DateTime)
    requires t == DateTime(2024, 1, 15, 10, 30, 0, Some(Offset(false, 0, 75)))
    ensures XmltvText(t) == "20240115103000 +0115"
  {
    ExamplePads();
    assert Minutes(t.offset.value) == 75 && 75 / 60 == 1 && 75 % 60 == 15;
    assert ZoneText(t.offset) == "+" + "01" + "15";
    ExampleDigits(t);
    assert "20240115103000" + " " + "+0115" == "20240115103000 +0115";
  }

  lemma ExampleDigits(t: DateTime)
    requires t.year == 2024 && t.month == 1 && t.day == 15
    requires t.hour == 10 && t.minute == 30 && t.second == 0
    ensures DigitsText(t) == "20240115103000"
  {
    ExamplePads();
    assert "2024" + "01" == "202401";
    assert "202401" + "15" == "20240115";
    assert "20240115" + "10" == "2024011510";
    assert "2024011510" + "30" == "202401151030";
    assert "202401151030" + "00" == "20240115103000";
  }
}
