/** The `format_datetime` template filter of app.py: a timestamp written
    in the user's preferred date layout and 12- or 24-hour clock. An absent
    timestamp prints as the empty text; an unknown preference falls back to
    the year-first date and the 24-hour clock. */
module DateTimeFormat {
  import opened Common

  datatype DateTime = DateTime(year: nat, month: nat, day: nat, hour: nat, minute: nat, second: nat)

  /** The ranges Python's datetime enforces. */
  predicate ValidDateTime(dt: DateTime) {
    1 <= dt.year <= 9999 && 1 <= dt.month <= 12 && 1 <= dt.day <= 31
    && dt.hour < 24 && dt.minute < 60 && dt.second < 60
  }

  /** The four date layouts the preference may name. */
  datatype DateLayout = YearMonthDayDash | DayMonthYearSlash | MonthDayYearSlash | DayMonthYearDash
  datatype ClockStyle = Clock24 | Clock12

  /** The date-format lookup with its default. */
  function LayoutOf(dateFormat: string): (l: DateLayout)
    ensures dateFormat == "DD/MM/YYYY" ==> l == DayMonthYearSlash
    ensures dateFormat == "MM/DD/YYYY" ==> l == MonthDayYearSlash
    ensures dateFormat == "DD-MM-YYYY" ==> l == DayMonthYearDash
    ensures dateFormat !in {"DD/MM/YYYY", "MM/DD/YYYY", "DD-MM-YYYY"} ==> l == YearMonthDayDash
  {
    if dateFormat == "DD/MM/YYYY" then DayMonthYearSlash
    else if dateFormat == "MM/DD/YYYY" then MonthDayYearSlash
    else if dateFormat == "DD-MM-YYYY" then DayMonthYearDash
    else YearMonthDayDash
  }

  /** The time-format lookup with its default. */
  function StyleOf(timeFormat: string): (c: ClockStyle)
    ensures c == Clock12 <==> timeFormat == "12h"
  {
    if timeFormat == "12h" then Clock12 else Clock24
  }

  function DateSeparator(l: DateLayout): char {
    if l == DayMonthYearSlash || l == MonthDayYearSlash then '/' else '-'
  }

  /** %Y, as the C library writes it: the year without padding. */
  function YearText(y: nat): string { NatToString(y) }

  function DateFields(dt: DateTime, l: DateLayout): seq<string>
    requires ValidDateTime(dt)
  {
    match l
    case YearMonthDayDash => [YearText(dt.year), Pad2(dt.month), Pad2(dt.day)]
    case DayMonthYearSlash => [Pad2(dt.day), Pad2(dt.month), YearText(dt.year)]
    case MonthDayYearSlash => [Pad2(dt.month), Pad2(dt.day), YearText(dt.year)]
    case DayMonthYearDash => [Pad2(dt.day), Pad2(dt.month), YearText(dt.year)]
  }

  /** %I: the hour on a 12-hour clock, 12 in place of 0. */
  function Hour12(hour: nat): (h: nat)
    ensures 1 <= h <= 12
  {
    if hour % 12 == 0 then 12 else hour % 12
  }

  /** %p in the C locale. */
  function Meridiem(hour: nat): string {
    if hour < 12 then "AM" else "PM"
  }

  function TimeFields(dt: DateTime, c: ClockStyle): seq<string>
    requires ValidDateTime(dt)
  {
    match c
    case Clock24 => [Pad2(dt.hour), Pad2(dt.minute), Pad2(dt.second)]
    case Clock12 => [Pad2(Hour12(dt.hour)), Pad2(dt.minute), Pad2(dt.second)]
  }

  /** The date, a space, the time, and for the 12-hour clock a space and
      AM or PM. */
  function Render(dt: DateTime, l: DateLayout, c: ClockStyle): string
    requires ValidDateTime(dt)
  {
    var date := JoinWith(DateFields(dt, l), DateSeparator(l));
    var time := JoinWith(TimeFields(dt, c), ':');
    if c == Clock12 then JoinWith([date, time, Meridiem(dt.hour)], ' ')
    else JoinWith([date, time], ' ')
  }

  function FormatDateTime(dt: Option<DateTime>, dateFormat: string, timeFormat: string): (s: string)
    requires dt.Some? ==> ValidDateTime(dt.value)
    ensures dt.None? ==> s == ""
  {
    if dt.None? then "" else Render(dt.value, LayoutOf(dateFormat), StyleOf(timeFormat))
  }

  /** The time of day as the time format prints it. */
  function TimeText(dt: DateTime, c: ClockStyle): string
    requires ValidDateTime(dt)
  {
    var time := JoinWith(TimeFields(dt, c), ':');
    if c == Clock12 then time + " " + Meridiem(dt.hour) else time
  }

  /** Each named date preference prints its three fields in its own order
      with its own separator, then a space and the time; any other
      preference prints year, month and day with dashes. */
  lemma PreferenceOrder(dt: DateTime, dateFormat: string, timeFormat: string)
    requires ValidDateTime(dt)
    ensures var s := FormatDateTime(Some(dt), dateFormat, timeFormat);
      var t := TimeText(dt, StyleOf(timeFormat));
      var d, m, y := Pad2(dt.day), Pad2(dt.month), YearText(dt.year);
      && (dateFormat == "DD/MM/YYYY" ==> s == d + "/" + m + "/" + y + " " + t)
      && (dateFormat == "MM/DD/YYYY" ==> s == m + "/" + d + "/" + y + " " + t)
      && (dateFormat == "DD-MM-YYYY" ==> s == d + "-" + m + "-" + y + " " + t)
      && (dateFormat !in {"DD/MM/YYYY", "MM/DD/YYYY", "DD-MM-YYYY"} ==> s == y + "-" + m + "-" + d + " " + t)
  {
    var l, c := LayoutOf(dateFormat), StyleOf(timeFormat);
    var f := DateFields(dt, l);
    var sep := DateSeparator(l);
    JoinThree(f[0], f[1], f[2], sep);
    assert f == [f[0], f[1], f[2]];
    var date := JoinWith(f, sep);
    var time := JoinWith(TimeFields(dt, c), ':');
    if c == Clock12 {
      JoinThree(date, time, Meridiem(dt.hour), ' ');
    } else {
      JoinTwo(date, time, ' ');
    }
  }

  /** "12h" prints the 12-hour clock with seconds and AM or PM; anything
      else prints the 24-hour clock with seconds. */
  lemma ClockOrder(dt: DateTime, timeFormat: string)
    requires ValidDateTime(dt)
    ensures var t := TimeText(dt, StyleOf(timeFormat));
      && (timeFormat == "12h" ==>
            t == Pad2(Hour12(dt.hour)) + ":" + Pad2(dt.minute) + ":" + Pad2(dt.second) + " " + Meridiem(dt.hour))
      && (timeFormat != "12h" ==> t == Pad2(dt.hour) + ":" + Pad2(dt.minute) + ":" + Pad2(dt.second))
  {
    var f := TimeFields(dt, StyleOf(timeFormat));
    JoinThree(f[0], f[1], f[2], ':');
    assert f == [f[0], f[1], f[2]];
  }

  lemma JoinTwo(a: string, b: string, sep: char)
    ensures JoinWith([a, b], sep) == a + [sep] + b
  {
    assert [a, b][1..] == [b];
  }

  lemma JoinThree(a: string, b: string, c: string, sep: char)
    ensures JoinWith([a, b, c], sep) == a + [sep] + b + [sep] + c
  {
    assert [a, b, c][1..] == [b, c];
    JoinTwo(b, c, sep);
  }

  // ---------------------------------------------------------------------
  // Reading a formatted timestamp back

  function ParseNumber(p: string): Option<nat> {
    if |p| >= 1 && AllDigits(p) then Some(DigitsValue(p)) else None
  }

  function ParseFields(p: string, sep: char): Option<(nat, nat, nat)> {
    var f := SplitOn(p, sep);
    if |f| != 3 then None
    else
      var a, b, c := ParseNumber(f[0]), ParseNumber(f[1]), ParseNumber(f[2]);
      if a.Some? && b.Some? && c.Some? then Some((a.value, b.value, c.value)) else None
  }

  /** Year, month and day of a date text in the given layout. */
  function ParseDate(p: string, l: DateLayout): Option<(nat, nat, nat)> {
    match ParseFields(p, DateSeparator(l))
    case None => None
    case Some((a, b, c)) =>
      match l
      case YearMonthDayDash => Some((a, b, c))
      case DayMonthYearSlash => Some((c, b, a))
      case MonthDayYearSlash => Some((c, a, b))
      case DayMonthYearDash => Some((c, b, a))
  }

  function ParseTimestamp(s: string, l: DateLayout, c: ClockStyle): Option<DateTime> {
    ParseParts(SplitOn(s, ' '), l, c)
  }

  /** A timestamp from its space-separated parts: date, time and, on the
      12-hour clock, the AM/PM marker. */
  function ParseParts(parts: seq<string>, l: DateLayout, c: ClockStyle): Option<DateTime> {
    if |parts| != (if c.Clock12? then 3 else 2) then None
    else
      match (ParseDate(parts[0], l), ParseFields(parts[1], ':'))
      case (Some((y, mo, d)), Some((h, mi, se))) =>
        if c.Clock24? then Some(DateTime(y, mo, d, h, mi, se))
        else if parts[2] == "AM" then Some(DateTime(y, mo, d, h % 12, mi, se))
        else if parts[2] == "PM" then Some(DateTime(y, mo, d, h % 12 + 12, mi, se))
        else None
      case _ => None
  }

  lemma Pad2Number(n: nat)
    requires n < 100
    ensures ParseNumber(Pad2(n)) == Some(n)
    ensures forall c :: !IsDigit(c) ==> c !in Pad2(n)
  {
  }

  lemma YearNumber(y: nat)
    ensures ParseNumber(YearText(y)) == Some(y)
    ensures forall c :: !IsDigit(c) ==> c !in YearText(y)
  {
    NatToStringValue(y);
  }

  lemma FieldsRoundTrip(x: string, y: string, z: string, sep: char, a: nat, b: nat, c: nat)
    requires !IsDigit(sep)
    requires ParseNumber(x) == Some(a) && ParseNumber(y) == Some(b) && ParseNumber(z) == Some(c)
    requires AllDigits(x) && AllDigits(y) && AllDigits(z)
    ensures ParseFields(JoinWith([x, y, z], sep), sep) == Some((a, b, c))
    ensures forall ch :: !IsDigit(ch) && ch != sep ==> ch !in JoinWith([x, y, z], sep)
  {
    DigitsAvoid(x, sep);
    DigitsAvoid(y, sep);
    DigitsAvoid(z, sep);
    JoinSplit([x, y, z], sep);
    forall ch | !IsDigit(ch) && ch != sep
      ensures ch !in JoinWith([x, y, z], sep)
    {
      DigitsAvoid(x, ch);
      DigitsAvoid(y, ch);
      DigitsAvoid(z, ch);
      JoinAvoids([x, y, z], sep, ch);
    }
  }

  lemma DateRoundTrip(dt: DateTime, l: DateLayout)
    requires ValidDateTime(dt)
    ensures ParseDate(JoinWith(DateFields(dt, l), DateSeparator(l)), l) == Some((dt.year, dt.month, dt.day))
    ensures ' ' !in JoinWith(DateFields(dt, l), DateSeparator(l))
  {
    Pad2Number(dt.month);
    Pad2Number(dt.day);
    YearNumber(dt.year);
    var f := DateFields(dt, l);
    FieldsRoundTrip(f[0], f[1], f[2], DateSeparator(l), ParseNumber(f[0]).value,
                    ParseNumber(f[1]).value, ParseNumber(f[2]).value);
    assert f == [f[0], f[1], f[2]];
  }

  lemma TimeRoundTrip(dt: DateTime, c: ClockStyle)
    requires ValidDateTime(dt)
    ensures var f := TimeFields(dt, c);
      ParseFields(JoinWith(f, ':'), ':') == Some((if c == Clock12 then Hour12(dt.hour) else dt.hour, dt.minute, dt.second))
    ensures ' ' !in JoinWith(TimeFields(dt, c), ':')
  {
    Pad2Number(dt.hour);
    Pad2Number(Hour12(dt.hour));
    Pad2Number(dt.minute);
    Pad2Number(dt.second);
    var f := TimeFields(dt, c);
    FieldsRoundTrip(f[0], f[1], f[2], ':', ParseNumber(f[0]).value,
                    ParseNumber(f[1]).value, ParseNumber(f[2]).value);
    assert f == [f[0], f[1], f[2]];
  }

  /** The 12-hour clock with its AM/PM marker loses nothing. */
  lemma Hour12RoundTrip(hour: nat)
    requires hour < 24
    ensures Meridiem(hour) == "AM" ==> Hour12(hour) % 12 == hour
    ensures Meridiem(hour) == "PM" ==> Hour12(hour) % 12 + 12 == hour
  {
  }

  /** Every timestamp the filter prints can be read back exactly, in every
      layout and on both clocks. */
  lemma FormatRoundTrip(dt: DateTime, dateFormat: string, timeFormat: string)
    requires ValidDateTime(dt)
    ensures ParseTimestamp(FormatDateTime(Some(dt), dateFormat, timeFormat),
                           LayoutOf(dateFormat), StyleOf(timeFormat)) == Some(dt)
  {
    var l, c := LayoutOf(dateFormat), StyleOf(timeFormat);
    assert FormatDateTime(Some(dt), dateFormat, timeFormat) == Render(dt, l, c);
    if c == Clock12 {
      RoundTrip12(dt, l);
    } else {
      RoundTrip24(dt, l);
    }
  }

  lemma RoundTrip24(dt: DateTime, l: DateLayout)
    requires ValidDateTime(dt)
    ensures ParseTimestamp(Render(dt, l, Clock24), l, Clock24) == Some(dt)
  {
    var date := JoinWith(DateFields(dt, l), DateSeparator(l));
    var time := JoinWith(TimeFields(dt, Clock24), ':');
    DateRoundTrip(dt, l);
    TimeRoundTrip(dt, Clock24);
    JoinSplit([date, time], ' ');
    assert ParseParts([date, time], l, Clock24) == Some(dt);
  }

  lemma RoundTrip12(dt: DateTime, l: DateLayout)
    requires ValidDateTime(dt)
    ensures ParseTimestamp(Render(dt, l, Clock12), l, Clock12) == Some(dt)
  {
    var date := JoinWith(DateFields(dt, l), DateSeparator(l));
    var time := JoinWith(TimeFields(dt, Clock12), ':');
    var m := Meridiem(dt.hour);
    DateRoundTrip(dt, l);
    TimeRoundTrip(dt, Clock12);
    assert ' ' !in m;
    var parts := [date, time, m];
    assert forall i :: 0 <= i < |parts| ==> ' ' !in parts[i];
    JoinSplit(parts, ' ');
    Parts12(dt, l, date, time);
  }

  /** The parts of a 12-hour timestamp read back as the original. */
  lemma Parts12(dt: DateTime, l: DateLayout, date: string, time: string)
    requires ValidDateTime(dt)
    requires ParseDate(date, l) == Some((dt.year, dt.month, dt.day))
    requires time == JoinWith(TimeFields(dt, Clock12), ':')
    ensures ParseParts([date, time, Meridiem(dt.hour)], l, Clock12) == Some(dt)
  {
    TimeRoundTrip(dt, Clock12);
    Hour12RoundTrip(dt.hour);
    assert ParseFields(time, ':') == Some((Hour12(dt.hour), dt.minute, dt.second));
  }

  /** Distinct timestamps print differently under one preference. */
  lemma FormatInjective(a: DateTime, b: DateTime, dateFormat: string, timeFormat: string)
    requires ValidDateTime(a) && ValidDateTime(b) && a != b
    ensures FormatDateTime(Some(a), dateFormat, timeFormat) != FormatDateTime(Some(b), dateFormat, timeFormat)
  {
    FormatRoundTrip(a, dateFormat, timeFormat);
    FormatRoundTrip(b, dateFormat, timeFormat);
  }
}
