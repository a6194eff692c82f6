/** The counting parts of the analytics page in app.py: open counts per
    period, pairing of door_open with the next door_close into open
    durations, the eight-way duration histogram, the four weekly alarm
    counts and the compliance tally of alarms resolved in time.

    Timestamps are integer microseconds; a timestamp's date is its day
    number. Averages, percentages other than compliance, and the database
    queries themselves are not modelled. */
module Analytics {
  import opened Common

  const MicrosPerSecond: int := 1000000
  const MicrosPerDay: int := 86400 * MicrosPerSecond
  const DefaultAlarmThreshold: int := 30

  function DayOf(atUs: int): int { atUs / MicrosPerDay }

  datatype DoorKind = Open | Close
  datatype DoorEvent = DoorEvent(kind: DoorKind, atUs: int)

  // =====================================================================
  // Duration histogram

  /** Upper cut points of the first seven buckets, in seconds. */
  const Cuts: seq<int> := [5, 10, 30, 60, 120, 300, 600]
  const BucketLabels: seq<string> := ["0-5s", "5-10s", "10-30s", "30-60s", "1-2min", "2-5min", "5-10min", "10+min"]
  const BucketCount: nat := 8

  /** The bucket of a duration: the first cut it falls below, else the last. */
  function BucketOf(durationUs: int): (b: nat)
    ensures b < BucketCount
    ensures b > 0 ==> durationUs >= Cuts[b - 1] * MicrosPerSecond
    ensures b < BucketCount - 1 ==> durationUs < Cuts[b] * MicrosPerSecond
  {
    if durationUs < 5 * MicrosPerSecond then 0
    else if durationUs < 10 * MicrosPerSecond then 1
    else if durationUs < 30 * MicrosPerSecond then 2
    else if durationUs < 60 * MicrosPerSecond then 3
    else if durationUs < 120 * MicrosPerSecond then 4
    else if durationUs < 300 * MicrosPerSecond then 5
    else if durationUs < 600 * MicrosPerSecond then 6
    else 7
  }

  /** The buckets are half-open and cover every duration: a duration lies
      in bucket b exactly when it is within b's bounds. */
  lemma BucketExactlyOne(durationUs: int, b: nat)
    requires b < BucketCount
    ensures BucketOf(durationUs) == b <==>
      (b == 0 || durationUs >= Cuts[b - 1] * MicrosPerSecond)
      && (b == BucketCount - 1 || durationUs < Cuts[b] * MicrosPerSecond)
  {
  }

  function Histogram(durations: seq<int>): (h: seq<nat>)
    ensures |h| == BucketCount
  {
    if durations == [] then seq(BucketCount, _ => 0)
    else
      var h := Histogram(durations[..|durations| - 1]);
      var b := BucketOf(durations[|durations| - 1]);
      h[b := h[b] + 1]
  }

  function Sum(xs: seq<nat>): nat {
    if xs == [] then 0 else Sum(xs[..|xs| - 1]) + xs[|xs| - 1]
  }

  lemma {:induction false} SumUpdate(xs: seq<nat>, i: nat, v: nat)
    requires i < |xs|
    ensures Sum(xs[i := v]) == Sum(xs) - xs[i] + v
    decreases |xs|
  {
    if i < |xs| - 1 {
      assert xs[i := v][..|xs| - 1] == xs[..|xs| - 1][i := v];
      SumUpdate(xs[..|xs| - 1], i, v);
    } else {
      assert xs[i := v][..|xs| - 1] == xs[..|xs| - 1];
    }
  }

  lemma SumZeros(n: nat)
    ensures Sum(seq(n, _ => 0)) == 0
  {
    if n > 0 {
      assert seq(n, _ => 0)[..n - 1] == seq(n - 1, _ => 0);
      SumZeros(n - 1);
    }
  }

  /** Every duration is counted in exactly one bucket. */
  lemma {:induction false} HistogramTotal(durations: seq<int>)
    ensures Sum(Histogram(durations)) == |durations|
    decreases |durations|
  {
    if durations == [] {
      SumZeros(BucketCount);
    } else {
      var h := Histogram(durations[..|durations| - 1]);
      var b := BucketOf(durations[|durations| - 1]);
      HistogramTotal(durations[..|durations| - 1]);
      SumUpdate(h, b, h[b] + 1);
    }
  }

  // =====================================================================
  // Pairing opens with closes

  /** The open durations: each close that follows a pending open yields
      one duration and clears it; a close with nothing pending is ignored;
      a later open replaces a pending one. */
  function PairFrom(events: seq<DoorEvent>, pending: Option<int>): seq<int>
    decreases |events|
  {
    if events == [] then []
    else
      var e := events[0];
      if e.kind == Open then PairFrom(events[1..], Some(e.atUs))
      else if pending.Some? then [e.atUs - pending.value] + PairFrom(events[1..], None)
      else PairFrom(events[1..], None)
  }

  function Durations(events: seq<DoorEvent>): seq<int> { PairFrom(events, None) }

  function CountKind(events: seq<DoorEvent>, k: DoorKind): nat {
    if events == [] then 0 else (if events[0].kind == k then 1 else 0) + CountKind(events[1..], k)
  }

  predicate SortedByTime(events: seq<DoorEvent>) {
    forall i, j :: 0 <= i < j < |events| ==> events[i].atUs <= events[j].atUs
  }

  /** At most one duration per close. */
  lemma {:induction false} DurationsAtMostCloses(events: seq<DoorEvent>, pending: Option<int>)
    ensures |PairFrom(events, pending)| <= CountKind(events, Close)
    decreases |events|
  {
    if events != [] {
      DurationsAtMostCloses(events[1..], if events[0].kind == Open then Some(events[0].atUs) else None);
    }
  }

  /** In time order, no duration is negative. */
  lemma {:induction false} DurationsNonNegative(events: seq<DoorEvent>, pending: Option<int>)
    requires SortedByTime(events)
    requires pending.Some? ==> forall i :: 0 <= i < |events| ==> pending.value <= events[i].atUs
    ensures forall i :: 0 <= i < |PairFrom(events, pending)| ==> PairFrom(events, pending)[i] >= 0
    decreases |events|
  {
    if events != [] {
      DurationsNonNegative(events[1..], if events[0].kind == Open then Some(events[0].atUs) else None);
    }
  }

  /** Events alternating open, close, open, ... pair completely: one
      duration for every close. */
  predicate Alternating(events: seq<DoorEvent>, first: DoorKind) {
    forall i :: 0 <= i < |events| ==> events[i].kind == (if i % 2 == 0 then first else if first == Open then Close else Open)
  }

  lemma {:induction false} AlternatingPairsEveryClose(events: seq<DoorEvent>, pending: Option<int>)
    requires Alternating(events, if pending.Some? then Close else Open)
    ensures |PairFrom(events, pending)| == CountKind(events, Close)
    decreases |events|
  {
    if events != [] {
      var next := if events[0].kind == Open then Some(events[0].atUs) else None;
      assert Alternating(events[1..], if next.Some? then Close else Open) by {
        forall i | 0 <= i < |events[1..]|
          ensures events[1..][i].kind == (if i % 2 == 0 then (if next.Some? then Close else Open)
                                          else if (if next.Some? then Close else Open) == Open then Close else Open)
        {
          assert events[1..][i] == events[i + 1];
        }
      }
      AlternatingPairsEveryClose(events[1..], next);
    }
  }

  // =====================================================================
  // The door-event loop

  /** Opens dated today, within the last 7 days and within the last 30. */
  function OpenCounts(events: seq<DoorEvent>, today: int): (int, int, int)
  {
    if events == [] then (0, 0, 0)
    else CountOpen(events[0], today, OpenCounts(events[1..], today))
  }

  /** One event added to the three counts. */
  function CountOpen(e: DoorEvent, today: int, c: (int, int, int)): (int, int, int) {
    if e.kind != Open then c
    else
      (c.0 + (if DayOf(e.atUs) == today then 1 else 0),
       c.1 + (if DayOf(e.atUs) >= today - 7 then 1 else 0),
       c.2 + (if DayOf(e.atUs) >= today - 30 then 1 else 0))
  }

  /** Today's opens are among the week's, and the week's among the month's. */
  lemma {:induction false} OpenCountsNested(events: seq<DoorEvent>, today: int)
    ensures var (d, w, m) := OpenCounts(events, today);
      0 <= d <= w <= m <= CountKind(events, Open)
    decreases |events|
  {
    if events != [] {
      OpenCountsNested(events[1..], today);
    }
  }

  /** The loop over door events: counts opens per period, pairs opens
      with closes and fills the duration histogram. */
  method DoorUsage(events: seq<DoorEvent>, today: int)
    returns (countDay: int, countWeek: int, countMonth: int, durations: seq<int>, buckets: seq<nat>)
    ensures (countDay, countWeek, countMonth) == OpenCounts(events, today)
    ensures durations == Durations(events)
    ensures buckets == Histogram(durations)
    ensures Sum(buckets) == |durations| <= CountKind(events, Close)
  {
    countDay, countWeek, countMonth := 0, 0, 0;
    durations := [];
    buckets := seq(BucketCount, _ => 0);
    var lastOpen: Option<int> := None;
    var i := 0;
    while i < |events|
      invariant 0 <= i <= |events|
      invariant durations + PairFrom(events[i..], lastOpen) == Durations(events)
      invariant buckets == Histogram(durations)
      invariant countDay + OpenCounts(events[i..], today).0 == OpenCounts(events, today).0
      invariant countWeek + OpenCounts(events[i..], today).1 == OpenCounts(events, today).1
      invariant countMonth + OpenCounts(events[i..], today).2 == OpenCounts(events, today).2
    {
      var e := events[i];
      assert events[i..][1..] == events[i + 1..];
      assert OpenCounts(events[i..], today) == CountOpen(e, today, OpenCounts(events[i + 1..], today));
      if e.kind == Open {
        assert PairFrom(events[i..], lastOpen) == PairFrom(events[i + 1..], Some(e.atUs));
        lastOpen := Some(e.atUs);
        var day := DayOf(e.atUs);
        if day == today { countDay := countDay + 1; }
        if day >= today - 7 { countWeek := countWeek + 1; }
        if day >= today - 30 { countMonth := countMonth + 1; }
      } else if lastOpen.Some? {
        var duration := e.atUs - lastOpen.value;
        assert PairFrom(events[i..], lastOpen) == [duration] + PairFrom(events[i + 1..], None);
        var b := BucketOf(duration);
        assert (durations + [duration])[..|durations|] == durations;
        assert Histogram(durations + [duration]) == buckets[b := buckets[b] + 1];
        assert durations + [duration] + PairFrom(events[i + 1..], None) == durations + PairFrom(events[i..], lastOpen);
        durations := durations + [duration];
        buckets := buckets[b := buckets[b] + 1];
        lastOpen := None;
      } else {
        assert PairFrom(events[i..], lastOpen) == PairFrom(events[i + 1..], None);
      }
      i := i + 1;
    }
    assert events[i..] == [];
    HistogramTotal(durations);
    DurationsAtMostCloses(events, None);
  }

  // =====================================================================
  // Weekly alarm counts

  /** The week an alarm falls in, counting back from today; none after four. */
  function WeekOf(daysAgo: int): (w: Option<nat>)
    ensures w.Some? <==> daysAgo < 28
    ensures w.Some? ==> w.value < 4 && (w.value == 0 || daysAgo >= 7 * w.value) && daysAgo < 7 * (w.value + 1)
  {
    if daysAgo < 7 then Some(0)
    else if daysAgo < 14 then Some(1)
    else if daysAgo < 21 then Some(2)
    else if daysAgo < 28 then Some(3)
    else None
  }

  function WeeklySpec(alarmDays: seq<int>, today: int): (weeks: seq<nat>)
    ensures |weeks| == 4
  {
    if alarmDays == [] then [0, 0, 0, 0]
    else
      var weeks := WeeklySpec(alarmDays[..|alarmDays| - 1], today);
      match WeekOf(today - alarmDays[|alarmDays| - 1])
      case None => weeks
      case Some(w) => weeks[w := weeks[w] + 1]
  }

  function CountRecent(alarmDays: seq<int>, today: int): nat {
    if alarmDays == [] then 0
    else CountRecent(alarmDays[..|alarmDays| - 1], today) + (if today - alarmDays[|alarmDays| - 1] < 28 then 1 else 0)
  }

  /** Alarms of the last 28 days are each counted in exactly one week;
      older ones in none. */
  lemma {:induction false} WeeklyTotal(alarmDays: seq<int>, today: int)
    ensures Sum(WeeklySpec(alarmDays, today)) == CountRecent(alarmDays, today)
    decreases |alarmDays|
  {
    if alarmDays == [] {
      assert Sum([0, 0, 0, 0]) == 0 by {
        assert [0, 0, 0, 0][..3] == [0, 0, 0];
        assert [0, 0, 0][..2] == [0, 0];
        assert [0, 0][..1] == [0];
        assert [0][..0] == [];
      }
    } else {
      var init := alarmDays[..|alarmDays| - 1];
      WeeklyTotal(init, today);
      var w := WeekOf(today - alarmDays[|alarmDays| - 1]);
      if w.Some? {
        var weeks := WeeklySpec(init, today);
        SumUpdate(weeks, w.value, weeks[w.value] + 1);
      }
    }
  }

  /** The loop over the alarm dates. */
  method WeeklyAlarms(alarmDays: seq<int>, today: int) returns (weeks: seq<nat>)
    ensures weeks == WeeklySpec(alarmDays, today)
    ensures |weeks| == 4 && Sum(weeks) == CountRecent(alarmDays, today)
  {
    weeks := [0, 0, 0, 0];
    var i := 0;
    while i < |alarmDays|
      invariant 0 <= i <= |alarmDays|
      invariant weeks == WeeklySpec(alarmDays[..i], today)
    {
      assert alarmDays[..i + 1][..i] == alarmDays[..i];
      var daysAgo := today - alarmDays[i];
      if daysAgo < 7 {
        weeks := weeks[0 := weeks[0] + 1];
      } else if daysAgo < 14 {
        weeks := weeks[1 := weeks[1] + 1];
      } else if daysAgo < 21 {
        weeks := weeks[2 := weeks[2] + 1];
      } else if daysAgo < 28 {
        weeks := weeks[3 := weeks[3] + 1];
      }
      i := i + 1;
    }
    assert alarmDays[..i] == alarmDays;
    WeeklyTotal(alarmDays, today);
  }

  // =====================================================================
  // Compliance

  /** The alarm threshold: the stored timer setting, else 30 seconds. */
  function AlarmThreshold(stored: Option<int>): int {
    if stored.Some? then stored.value else DefaultAlarmThreshold
  }

  /** The earliest close strictly after `t`, over all recorded closes. */
  function NextClose(t: int, closes: seq<int>): (r: Option<int>)
    ensures r.Some? ==> r.value in closes && r.value > t
    ensures r.Some? ==> forall c :: c in closes && c > t ==> r.value <= c
    ensures r.None? ==> forall c :: c in closes ==> c <= t
  {
    if closes == [] then None
    else
      var rest := NextClose(t, closes[1..]);
      assert forall c :: c in closes[1..] ==> c in closes;
      assert forall c :: c in closes ==> c == closes[0] || c in closes[1..];
      if closes[0] <= t then rest
      else if rest.None? || closes[0] <= rest.value then Some(closes[0])
      else rest
  }

  /** An alarm is compliant when a close follows within twice the threshold. */
  predicate Compliant(alarmUs: int, closes: seq<int>, threshold: int) {
    var next := NextClose(alarmUs, closes);
    next.Some? && next.value - alarmUs <= threshold * 2 * MicrosPerSecond
  }

  function CountCompliant(alarms: seq<int>, closes: seq<int>, threshold: int): nat {
    if alarms == [] then 0
    else CountCompliant(alarms[..|alarms| - 1], closes, threshold)
         + (if Compliant(alarms[|alarms| - 1], closes, threshold) then 1 else 0)
  }

  lemma {:induction false} CountCompliantBound(alarms: seq<int>, closes: seq<int>, threshold: int)
    ensures CountCompliant(alarms, closes, threshold) <= |alarms|
    decreases |alarms|
  {
    if alarms != [] {
      CountCompliantBound(alarms[..|alarms| - 1], closes, threshold);
    }
  }

  /** The loop over alarm events: each alarm is compliant or not, and a
      non-compliant one — late or never closed — is also unacknowledged. */
  method ComplianceCounts(alarms: seq<int>, closes: seq<int>, stored: Option<int>)
    returns (compliant: nat, nonCompliant: nat, unacknowledged: nat)
    ensures compliant == CountCompliant(alarms, closes, AlarmThreshold(stored))
    ensures compliant + nonCompliant == |alarms|
    ensures unacknowledged == nonCompliant
  {
    var threshold := AlarmThreshold(stored);
    compliant, nonCompliant, unacknowledged := 0, 0, 0;
    var i := 0;
    while i < |alarms|
      invariant 0 <= i <= |alarms|
      invariant compliant == CountCompliant(alarms[..i], closes, threshold)
      invariant compliant + nonCompliant == i && unacknowledged == nonCompliant
    {
      assert alarms[..i + 1][..i] == alarms[..i];
      var next := NextClose(alarms[i], closes);
      if next.Some? {
        var duration := next.value - alarms[i];
        if duration <= threshold * 2 * MicrosPerSecond {
          compliant := compliant + 1;
        } else {
          nonCompliant := nonCompliant + 1;
          unacknowledged := unacknowledged + 1;
        }
      } else {
        unacknowledged := unacknowledged + 1;
        nonCompliant := nonCompliant + 1;
      }
      i := i + 1;
    }
    assert alarms[..i] == alarms;
  }

  /** compliant / (compliant + non-compliant) * 100, or 100 with no alarms. */
  function CompliancePercentage(compliant: nat, nonCompliant: nat): (p: real)
    ensures compliant + nonCompliant == 0 ==> p == 100.0
    ensures nonCompliant == 0 ==> p == 100.0
    ensures compliant == 0 && nonCompliant > 0 ==> p == 0.0
    ensures 0.0 <= p <= 100.0
  {
    if compliant + nonCompliant > 0 then
      RatioAtMostOne(compliant, compliant + nonCompliant);
      compliant as real / (compliant + nonCompliant) as real * 100.0
    else 100.0
  }

  lemma RatioAtMostOne(a: nat, b: nat)
    requires 0 < b && a <= b
    ensures 0.0 <= a as real / b as real <= 1.0
  {
    var r := a as real / b as real;
    assert r * b as real == a as real;
  }
}
