/** Scheduled e-mail reports in app.py: the checks made when a schedule is
    created through the API, the first run it is given, and the
    rescheduling the background scheduler does after each report it sends.

    Moments are whole minutes counted from an epoch; a moment's date is its
    day number. The PDF, the e-mail and the hourly sleep are not modelled. */
module ScheduledReports {
  import opened Common

  const MinutesPerDay: int := 1440
  const DefaultScheduledTime: string := "09:00"
  const ValidFrequencies: seq<string> := ["daily", "weekly", "monthly"]

  function DayOf(moment: int): int { moment / MinutesPerDay }

  /** The minutes since midnight of a moment. */
  function TimeOfDay(moment: int): int { moment % MinutesPerDay }

  /** The moment at `hour`:`minute` on day `day`. */
  function At(day: int, hour: int, minute: int): int { day * MinutesPerDay + hour * 60 + minute }

  datatype CreateError = MissingFields | BadFrequency | TimeOutOfRange | TimeMalformed

  function ErrorMessage(e: CreateError): string {
    match e
    case MissingFields => "report_type, frequency, and recipients are required"
    case BadFrequency => "frequency must be one of: daily, weekly, monthly"
    case TimeOutOfRange => "Invalid time format. Use HH:MM (00:00-23:59)"
    case TimeMalformed => "Invalid time format. Use HH:MM"
  }

  // ---------------------------------------------------------------------
  // HH:MM

  /** Splitting on ':' must give exactly two pieces, each an integer as
      Python's int() reads it; anything else is malformed. */
  function ParseClock(s: string): Option<(int, int)> {
    var parts := SplitOn(s, ':');
    if |parts| != 2 then None
    else
      var h, m := ParseInt(parts[0]), ParseInt(parts[1]);
      if h.Some? && m.Some? then Some((h.value, m.value)) else None
  }

  predicate ClockInRange(h: int, m: int) { 0 <= h <= 23 && 0 <= m <= 59 }

  function FormatClock(h: nat, m: nat): string
    requires h < 100 && m < 100
  {
    Pad2(h) + ":" + Pad2(m)
  }

  /** Every time of day written as HH:MM reads back as itself. */
  lemma ClockRoundTrip(h: nat, m: nat)
    requires ClockInRange(h, m)
    ensures ParseClock(FormatClock(h, m)) == Some((h, m))
  {
    ParseIntOfDigits(Pad2(h));
    ParseIntOfDigits(Pad2(m));
    DigitsAvoid(Pad2(h), ':');
    DigitsAvoid(Pad2(m), ':');
    SplitAround(Pad2(h), Pad2(m), ':');
    assert FormatClock(h, m) == Pad2(h) + [':'] + Pad2(m);
  }

  lemma DefaultTimeIsNine()
    ensures ParseClock(DefaultScheduledTime) == Some((9, 0))
  {
    var hh, mm := Pad2(9), Pad2(0);
    assert hh == "09" && mm == "00";
    assert DefaultScheduledTime == hh + [':'] + mm;
    ClockRoundTrip(9, 0);
  }

  // ---------------------------------------------------------------------
  // Creation

  /** Days until the first run of a new schedule; the frequency has already
      been checked, so anything other than daily or weekly is monthly. */
  function CreateDaysAhead(frequency: string): nat {
    if frequency == "daily" then 1 else if frequency == "weekly" then 7 else 30
  }

  datatype Schedule = Schedule(
    reportType: string,
    frequency: string,
    scheduledTime: string,
    recipients: string,
    enabled: bool,
    nextRun: int,
    lastRun: Option<int>)

  datatype CreateRequest = CreateRequest(
    reportType: Field,
    frequency: Field,
    recipients: Field,
    scheduledTime: Field,
    enabled: Option<bool>)

  /** The time asked for: 09:00 when the member is absent; a null or
      numeric member has no `split` and is reported malformed. */
  function RequestedTime(f: Field): Option<string> {
    match f
    case Missing => Some(DefaultScheduledTime)
    case Null => None
    case Number(_) => None
    case Text(s) => Some(s)
  }

  /** The HH:MM check: malformed unless it reads as two integers, out of
      range unless they are an hour and a minute. */
  function CheckTime(time: Option<string>): (r: Result<(int, int), CreateError>)
    ensures r.Ok? ==> ClockInRange(r.value.0, r.value.1)
    ensures r.Err? ==> r.error in {TimeMalformed, TimeOutOfRange}
  {
    if time.None? then Err(TimeMalformed)
    else match ParseClock(time.value)
      case None => Err(TimeMalformed)
      case Some((h, m)) => if ClockInRange(h, m) then Ok((h, m)) else Err(TimeOutOfRange)
  }

  /** POST /api/scheduled-reports at moment `now`. The first run is on
      the day the frequency gives, at the hour and minute the stored time
      reads as, whether or not it was written as HH:MM. A numeric report
      type or recipients member is stored as its decimal text. */
  function CreateSchedule(req: CreateRequest, now: int): (r: Result<Schedule, CreateError>)
    ensures r.Ok? ==> r.value.nextRun > now && DayOf(r.value.nextRun) == DayOf(now) + CreateDaysAhead(r.value.frequency)
    ensures r.Ok? ==> r.value.frequency in ValidFrequencies && r.value.lastRun.None?
    ensures r.Ok? ==> Truthy(req.reportType) && Truthy(req.recipients) && req.frequency.Text?
                      && r.value.reportType == FieldText(req.reportType)
                      && r.value.frequency == req.frequency.text
                      && r.value.recipients == FieldText(req.recipients)
                      && Some(r.value.scheduledTime) == RequestedTime(req.scheduledTime)
                      && r.value.enabled == (if req.enabled.Some? then req.enabled.value else true)
    ensures r.Ok? ==> var c := ParseClock(r.value.scheduledTime);
                      c.Some? && ClockInRange(c.value.0, c.value.1)
                      && TimeOfDay(r.value.nextRun) == c.value.0 * 60 + c.value.1
    ensures r.Ok? && req.scheduledTime.Missing? ==> r.value.scheduledTime == DefaultScheduledTime
  {
    if !Truthy(req.reportType) || !Truthy(req.frequency) || !Truthy(req.recipients) then Err(MissingFields)
    else if !req.frequency.Text? || req.frequency.text !in ValidFrequencies then Err(BadFrequency)
    else
      var time := RequestedTime(req.scheduledTime);
      match CheckTime(time)
      case Err(e) => Err(e)
      case Ok((h, m)) =>
        var days := CreateDaysAhead(req.frequency.text);
        NextRunAfter(now, days, h, m);
        Ok(Schedule(FieldText(req.reportType), req.frequency.text, time.value, FieldText(req.recipients),
                    if req.enabled.Some? then req.enabled.value else true, At(DayOf(now) + days, h, m), None))
  }

  /** A run set `days` ahead (at least one) at any time of day is strictly
      after now, falls on that day and at that time. */
  lemma NextRunAfter(now: int, days: nat, h: int, m: int)
    requires days >= 1 && ClockInRange(h, m)
    ensures At(DayOf(now) + days, h, m) > now
    ensures DayOf(At(DayOf(now) + days, h, m)) == DayOf(now) + days
    ensures TimeOfDay(At(DayOf(now) + days, h, m)) == h * 60 + m
  {
    DivModUnique(At(DayOf(now) + days, h, m), MinutesPerDay, DayOf(now) + days, h * 60 + m);
  }

  /** Creation succeeds exactly when the three required members are
      present, the frequency is one of the three, and the time (09:00 when
      absent) is two integers in range separated by a colon. */
  lemma CreateAcceptedExactly(req: CreateRequest, now: int)
    ensures CreateSchedule(req, now).Ok? <==>
      Truthy(req.reportType) && Truthy(req.frequency) && Truthy(req.recipients)
      && req.frequency.Text? && req.frequency.text in ValidFrequencies
      && (req.scheduledTime.Missing? || req.scheduledTime.Text?)
      && var t := if req.scheduledTime.Missing? then DefaultScheduledTime else req.scheduledTime.text;
         ParseClock(t).Some? && ClockInRange(ParseClock(t).value.0, ParseClock(t).value.1)
  {
  }

  /** Every HH:MM in range is accepted, and the first run is at that time. */
  lemma CreateKeepsTime(reportType: string, frequency: string, recipients: string, h: nat, m: nat, now: int)
    requires reportType != "" && recipients != "" && frequency in ValidFrequencies && ClockInRange(h, m)
    ensures var r := CreateSchedule(CreateRequest(Text(reportType), Text(frequency), Text(recipients),
                                                  Text(FormatClock(h, m)), None), now);
      r.Ok? && r.value.nextRun == At(DayOf(now) + CreateDaysAhead(frequency), h, m) && r.value.enabled
  {
    ClockRoundTrip(h, m);
    var req := CreateRequest(Text(reportType), Text(frequency), Text(recipients), Text(FormatClock(h, m)), None);
    assert RequestedTime(req.scheduledTime) == Some(FormatClock(h, m));
    assert CheckTime(RequestedTime(req.scheduledTime)) == Ok((h, m));
    assert req.frequency.text in ValidFrequencies;
    assert Truthy(req.reportType) && Truthy(req.frequency) && Truthy(req.recipients);
    assert CreateSchedule(req, now).Ok?;
  }

  // ---------------------------------------------------------------------
  // The scheduler

  /** Days until the next run after a report is sent; an unknown
      frequency is treated as daily. */
  function SchedulerDaysAhead(frequency: string): (d: nat)
    ensures d >= 1
    ensures frequency in ValidFrequencies ==> d == CreateDaysAhead(frequency)
    ensures frequency !in ValidFrequencies ==> d == 1
  {
    if frequency == "daily" then 1
    else if frequency == "weekly" then 7
    else if frequency == "monthly" then 30
    else 1
  }

  /** The report's date window, first and last day: one, seven or thirty
      days back to today, and one day back for an unknown frequency. */
  function ReportWindow(frequency: string, now: int): (w: (int, int))
    ensures w.1 == DayOf(now) && w.1 - w.0 == SchedulerDaysAhead(frequency)
  {
    (DayOf(now) - SchedulerDaysAhead(frequency), DayOf(now))
  }

  predicate Due(s: Schedule, now: int) { s.enabled && s.nextRun <= now }

  /** The hour and minute a run is scheduled at: the stored time, or nine
      o'clock when none is stored. */
  function RunClock(scheduledTime: string): Option<(int, int)> {
    ParseClock(if scheduledTime == "" then DefaultScheduledTime else scheduledTime)
  }

  /** The bookkeeping after a report is sent at `now`: the last run is now
      and the next run is the stored time (09:00 when empty) on the day the
      frequency gives. A time that does not read as two integers, or whose
      hour or minute is out of range, raises; the rollback then leaves the
      schedule as it was, shown as None. */
  function Reschedule(s: Schedule, now: int): (r: Option<Schedule>)
    ensures r.None? <==> RunClock(s.scheduledTime).None? || !ClockInRange(RunClock(s.scheduledTime).value.0, RunClock(s.scheduledTime).value.1)
    ensures r.Some? ==> r.value == s.(lastRun := Some(now), nextRun := r.value.nextRun)
    ensures r.Some? ==> r.value.nextRun > now && DayOf(r.value.nextRun) == DayOf(now) + SchedulerDaysAhead(s.frequency)
    ensures r.Some? ==> TimeOfDay(r.value.nextRun) == RunClock(s.scheduledTime).value.0 * 60 + RunClock(s.scheduledTime).value.1
  {
    match RunClock(s.scheduledTime)
    case None => None
    case Some((h, m)) =>
      if !ClockInRange(h, m) then None
      else
        var days := SchedulerDaysAhead(s.frequency);
        NextRunAfter(now, days, h, m);
        Some(s.(lastRun := Some(now), nextRun := At(DayOf(now) + days, h, m)))
  }

  /** A schedule created through the API and sent when due is rescheduled
      to a moment after the send, so it is not due again in the same
      check; nothing but the two run fields changes. */
  lemma RescheduledNotDueAgain(req: CreateRequest, created: int, now: int)
    requires CreateSchedule(req, created).Ok?
    ensures var s := CreateSchedule(req, created).value;
      Reschedule(s, now).Some?
      && Reschedule(s, now).value.lastRun == Some(now)
      && !Due(Reschedule(s, now).value, now)
      && Reschedule(s, now).value == s.(lastRun := Some(now), nextRun := Reschedule(s, now).value.nextRun)
      && DayOf(Reschedule(s, now).value.nextRun) == DayOf(now) + CreateDaysAhead(s.frequency)
  {
    var s := CreateSchedule(req, created).value;
    assert SplitOn("", ':') == [""];
    assert s.scheduledTime != "";
    var t := ParseClock(s.scheduledTime).value;
    NextRunAfter(now, SchedulerDaysAhead(s.frequency), t.0, t.1);
  }

  /** The same holds of every stored schedule, however it was created or
      edited, whose stored time (or the default when empty) reads as an
      hour and minute in range: sending it moves it past `now`, so it is
      not due again in the same check, whatever its frequency. */
  lemma ParsedScheduleNotDueAgain(s: Schedule, now: int)
    requires RunClock(s.scheduledTime).Some?
    requires ClockInRange(RunClock(s.scheduledTime).value.0, RunClock(s.scheduledTime).value.1)
    ensures Reschedule(s, now).Some? && !Due(Reschedule(s, now).value, now)
    ensures Reschedule(s, now).value.lastRun == Some(now)
    ensures DayOf(Reschedule(s, now).value.nextRun) == DayOf(now) + SchedulerDaysAhead(s.frequency)
  {
  }

  /** A schedule stored as HH:MM is rescheduled at that hour and minute,
      and one stored without a time at nine o'clock. */
  lemma RescheduleKeepsClock(s: Schedule, h: nat, m: nat, now: int)
    requires ClockInRange(h, m)
    ensures s.scheduledTime == FormatClock(h, m) ==>
      Reschedule(s, now).Some? && Reschedule(s, now).value.nextRun == At(DayOf(now) + SchedulerDaysAhead(s.frequency), h, m)
    ensures s.scheduledTime == "" ==>
      Reschedule(s, now).Some? && Reschedule(s, now).value.nextRun == At(DayOf(now) + SchedulerDaysAhead(s.frequency), 9, 0)
  {
    ClockRoundTrip(h, m);
    DefaultTimeIsNine();
  }

  /** A time that is not written as HH:MM but reads as one is accepted:
      "9:5" gives a first run at 09:05. */
  lemma LooseTimeAccepted(reportType: string, frequency: string, recipients: string, now: int)
    requires reportType != "" && recipients != "" && frequency in ValidFrequencies
    ensures var r := CreateSchedule(CreateRequest(Text(reportType), Text(frequency), Text(recipients),
                                                  Text("9:5"), None), now);
      r.Ok? && r.value.scheduledTime == "9:5" && TimeOfDay(r.value.nextRun) == 9 * 60 + 5
  {
    ParseIntOfDigits("9");
    ParseIntOfDigits("5");
    DigitsAvoid("9", ':');
    DigitsAvoid("5", ':');
    SplitAround("9", "5", ':');
    assert "9:5" == "9" + [':'] + "5";
  }

  /** A stored schedule, as the scheduler updates it. */
  class ScheduledReport {
    var reportType: string
    var frequency: string
    var scheduledTime: string
    var recipients: string
    var enabled: bool
    var nextRun: int
    var lastRun: Option<int>

    function Current(): Schedule
      reads this
    {
      Schedule(reportType, frequency, scheduledTime, recipients, enabled, nextRun, lastRun)
    }

    constructor (s: Schedule)
      ensures Current() == s
    {
      reportType, frequency, scheduledTime, recipients := s.reportType, s.frequency, s.scheduledTime, s.recipients;
      enabled, nextRun, lastRun := s.enabled, s.nextRun, s.lastRun;
    }

    /** After the report was sent at `now`: records the run and moves the
        next run forward, or on a malformed time leaves everything as the
        rollback does. */
    method RecordSent(now: int) returns (committed: bool)
      modifies this
      ensures committed <==> Reschedule(old(Current()), now).Some?
      ensures committed ==> Current() == Reschedule(old(Current()), now).value
      ensures !committed ==> Current() == old(Current())
      ensures committed ==> TimeOfDay(nextRun) == RunClock(scheduledTime).value.0 * 60 + RunClock(scheduledTime).value.1
    {
      var parsed := RunClock(scheduledTime);
      if parsed.None? || !ClockInRange(parsed.value.0, parsed.value.1) {
        return false;
      }
      ghost var before := Current();
      var (h, m) := parsed.value;
      lastRun := Some(now);
      nextRun := At(DayOf(now) + SchedulerDaysAhead(frequency), h, m);
      assert Current() == before.(lastRun := Some(now), nextRun := nextRun);
      return true;
    }
  }
}
