/** Server uptime (calculate_uptime in app.py): the elapsed time since the
    server started, broken into days, hours, minutes and seconds and shown
    as a short text whose shape depends on the largest non-zero unit. The
    clock is a parameter: the elapsed time arrives in microseconds. */
module Uptime {
  import opened Common

  const SecondsPerDay: nat := 86400
  const SecondsPerHour: nat := 3600
  const SecondsPerMinute: nat := 60
  const MicrosPerSecond: nat := 1000000

  /** Python's int() of a float number of seconds: truncation toward zero. */
  function TruncSeconds(micros: int): (s: int)
    ensures micros >= 0 ==> s >= 0 && s * MicrosPerSecond <= micros < (s + 1) * MicrosPerSecond
    ensures micros < 0 ==> s <= 0 && (s - 1) * MicrosPerSecond < micros <= s * MicrosPerSecond
  {
    if micros >= 0 then micros / MicrosPerSecond else -((-micros) / MicrosPerSecond)
  }

  datatype UptimeInfo = UptimeInfo(
    uptimeString: string,
    uptimeSeconds: int,
    days: int,
    hours: nat,
    minutes: nat,
    seconds: nat)

  /** One "<number><unit>" piece of the uptime text. */
  function Part(n: nat, unit: char): string {
    NatToString(n) + [unit]
  }

  /** The pieces shown: days, hours and minutes once a day has passed;
      hours, minutes and seconds once an hour has; else minutes and seconds. */
  function UptimeParts(days: int, hours: nat, minutes: nat, seconds: nat): (parts: seq<string>)
    ensures 2 <= |parts| <= 3
  {
    if days > 0 then [Part(days, 'd'), Part(hours, 'h'), Part(minutes, 'm')]
    else if hours > 0 then [Part(hours, 'h'), Part(minutes, 'm'), Part(seconds, 's')]
    else [Part(minutes, 'm'), Part(seconds, 's')]
  }

  function CalculateUptime(elapsedMicros: int): (u: UptimeInfo)
    ensures u.uptimeSeconds == TruncSeconds(elapsedMicros)
    ensures u.days * SecondsPerDay + u.hours * SecondsPerHour + u.minutes * SecondsPerMinute + u.seconds
            == u.uptimeSeconds
    ensures u.hours < 24 && u.minutes < 60 && u.seconds < 60
    ensures u.uptimeString == JoinWith(UptimeParts(u.days, u.hours, u.minutes, u.seconds), ' ')
  {
    var total := TruncSeconds(elapsedMicros);
    var days := total / SecondsPerDay;
    var hours := (total % SecondsPerDay) / SecondsPerHour;
    var minutes := (total % SecondsPerHour) / SecondsPerMinute;
    var seconds := total % SecondsPerMinute;
    assert total % SecondsPerHour == (total % SecondsPerDay) % SecondsPerHour by {
      var r1 := total % SecondsPerDay;
      DivModUnique(total, SecondsPerHour, days * 24 + r1 / SecondsPerHour, r1 % SecondsPerHour);
    }
    assert total % SecondsPerMinute == (total % SecondsPerHour) % SecondsPerMinute by {
      var r2 := total % SecondsPerHour;
      DivModUnique(total, SecondsPerMinute, (total / SecondsPerHour) * 60 + r2 / SecondsPerMinute, r2 % SecondsPerMinute);
    }
    UptimeInfo(JoinWith(UptimeParts(days, hours, minutes, seconds), ' '), total, days, hours, minutes, seconds)
  }

  // ---------------------------------------------------------------------
  // Reading the text back

  datatype Component = Component(value: nat, unit: char)

  function ParseComponent(p: string): Option<Component> {
    if |p| >= 2 && AllDigits(p[..|p| - 1]) then Some(Component(DigitsValue(p[..|p| - 1]), p[|p| - 1]))
    else None
  }

  function ParseComponents(parts: seq<string>): Option<seq<Component>> {
    if parts == [] then Some([])
    else
      var head := ParseComponent(parts[0]);
      var tail := ParseComponents(parts[1..]);
      if head.Some? && tail.Some? then Some([head.value] + tail.value) else None
  }

  /** The components of an uptime text, split on spaces. */
  function ParseUptimeString(s: string): Option<seq<Component>> {
    ParseComponents(SplitOn(s, ' '))
  }

  lemma PartRoundTrip(n: nat, unit: char)
    requires !IsDigit(unit) && unit != ' '
    ensures ParseComponent(Part(n, unit)) == Some(Component(n, unit))
    ensures ' ' !in Part(n, unit)
  {
    var p := Part(n, unit);
    assert p[..|p| - 1] == NatToString(n);
    NatToStringValue(n);
  }

  /** The uptime text reads back as the components it was built from. */
  lemma UptimeStringRoundTrip(elapsedMicros: int)
    ensures var u := CalculateUptime(elapsedMicros);
      ParseUptimeString(u.uptimeString) == Some(
        if u.days > 0 then [Component(u.days, 'd'), Component(u.hours, 'h'), Component(u.minutes, 'm')]
        else if u.hours > 0 then [Component(u.hours, 'h'), Component(u.minutes, 'm'), Component(u.seconds, 's')]
        else [Component(u.minutes, 'm'), Component(u.seconds, 's')])
  {
    var u := CalculateUptime(elapsedMicros);
    var parts := UptimeParts(u.days, u.hours, u.minutes, u.seconds);
    if u.days > 0 { PartRoundTrip(u.days, 'd'); }
    PartRoundTrip(u.hours, 'h');
    PartRoundTrip(u.minutes, 'm');
    PartRoundTrip(u.seconds, 's');
    JoinSplit(parts, ' ');
    if |parts| == 3 {
      ParseThree(parts[0], parts[1], parts[2]);
      assert parts == [parts[0], parts[1], parts[2]];
    } else {
      ParseTwo(parts[0], parts[1]);
      assert parts == [parts[0], parts[1]];
    }
  }

  lemma ParseTwo(a: string, b: string)
    ensures ParseComponents([a, b]) ==
      if ParseComponent(a).Some? && ParseComponent(b).Some?
      then Some([ParseComponent(a).value, ParseComponent(b).value]) else None
  {
    assert [a, b][1..] == [b];
    assert [b][1..] == [];
    if ParseComponent(b).Some? {
      assert ParseComponents([b]) == Some([ParseComponent(b).value] + []);
      assert [ParseComponent(b).value] + [] == [ParseComponent(b).value];
      if ParseComponent(a).Some? {
        assert [ParseComponent(a).value] + [ParseComponent(b).value]
            == [ParseComponent(a).value, ParseComponent(b).value];
      }
    }
  }

  lemma ParseThree(a: string, b: string, c: string)
    ensures ParseComponents([a, b, c]) ==
      if ParseComponent(a).Some? && ParseComponent(b).Some? && ParseComponent(c).Some?
      then Some([ParseComponent(a).value, ParseComponent(b).value, ParseComponent(c).value]) else None
  {
    assert [a, b, c][1..] == [b, c];
    ParseTwo(b, c);
    if ParseComponent(a).Some? && ParseComponent(b).Some? && ParseComponent(c).Some? {
      var x, y, z := ParseComponent(a).value, ParseComponent(b).value, ParseComponent(c).value;
      assert [x] + [y, z] == [x, y, z];
    }
  }

  /** Seconds named by a text without a day component. */
  function SecondsOfText(s: string): Option<int> {
    match ParseUptimeString(s)
    case Some(cs) =>
      if |cs| == 3 && cs[0].unit == 'h' && cs[1].unit == 'm' && cs[2].unit == 's' then
        Some(cs[0].value * SecondsPerHour + cs[1].value * SecondsPerMinute + cs[2].value)
      else if |cs| == 2 && cs[0].unit == 'm' && cs[1].unit == 's' then
        Some(cs[0].value * SecondsPerMinute + cs[1].value)
      else None
    case None => None
  }

  /** Within the first day the text gives the uptime to the second. */
  lemma FirstDayTextExact(elapsedMicros: int)
    requires 0 <= elapsedMicros < SecondsPerDay * MicrosPerSecond
    ensures SecondsOfText(CalculateUptime(elapsedMicros).uptimeString)
            == Some(CalculateUptime(elapsedMicros).uptimeSeconds)
  {
    UptimeStringRoundTrip(elapsedMicros);
  }

  /** After the first day the text gives the uptime to the minute. */
  lemma LaterDaysTextToTheMinute(elapsedMicros: int)
    requires elapsedMicros >= SecondsPerDay * MicrosPerSecond
    ensures var u := CalculateUptime(elapsedMicros);
      match ParseUptimeString(u.uptimeString)
      case Some(cs) =>
        |cs| == 3 && cs[0].unit == 'd'
        && var shown := cs[0].value * SecondsPerDay + cs[1].value * SecondsPerHour + cs[2].value * SecondsPerMinute;
        shown <= u.uptimeSeconds < shown + SecondsPerMinute
      case None => false
  {
    UptimeStringRoundTrip(elapsedMicros);
  }
}
