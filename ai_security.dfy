/** The heuristic threat scoring of ai_security.py: the bounded event
    history and the per-hour and per-weekday patterns the engine learns,
    anomaly detection, threat prediction, the analysis of one event, and
    the integer and exact parts of the dashboard insights.

    Moments are integer microseconds of local time, with day 0 the first
    of January 1970 (a Thursday). Confidences are kept as percentages,
    the number the analysis reports. The clock is a parameter. */
module AISecurity {
  import opened Common

  const HistoryLimit: nat := 1000
  const MicrosPerSecond: nat := 1000000
  const SecondsPerDay: nat := 86400
  const MicrosPerHour: nat := 3600000000
  const MicrosPerDay: nat := 86400000000

  /** An entry of the event history. */
  datatype Event = Event(at: int, eventType: string)

  function HourOf(at: int): (h: nat)
    ensures h < 24
  {
    (at / MicrosPerHour) % 24
  }

  /** The weekday of a moment, Monday 0. */
  function WeekdayOf(at: int): (d: nat)
    ensures d < 7
  {
    (at / MicrosPerDay + 3) % 7
  }

  const WeekdayNames: seq<string> := ["Monday", "Tuesday", "Wednesday", "Thursday", "Friday", "Saturday", "Sunday"]

  /** The `seconds` attribute of the difference later - earlier: the
      seconds left once whole days (rounded down) are taken out. */
  function DeltaSeconds(later: int, earlier: int): (s: nat)
    ensures s < SecondsPerDay
  {
    ((later - earlier) / MicrosPerSecond) % SecondsPerDay
  }

  /** The attribute forgets whole days: an event k days and s seconds in
      the past looks s seconds old, and one a second in the future looks
      almost a day old. */
  lemma DeltaSecondsDropsDays(t: int, k: nat, s: nat)
    requires s < SecondsPerDay
    ensures DeltaSeconds(t + k * MicrosPerDay + s * MicrosPerSecond, t) == s
    ensures DeltaSeconds(t, t + MicrosPerSecond) == SecondsPerDay - 1
  {
    DivModUnique(k * MicrosPerDay + s * MicrosPerSecond, MicrosPerSecond, k * SecondsPerDay + s, 0);
    DivModUnique(k * SecondsPerDay + s, SecondsPerDay, k, s);
    DivModUnique(-(MicrosPerSecond as int), MicrosPerSecond, -1, 0);
    DivModUnique(-1, SecondsPerDay, -1, SecondsPerDay - 1);
  }

  /** The last n elements, all of them when there are fewer: s[-n:], and
      what a deque of length n keeps. */
  function Last<T>(s: seq<T>, n: nat): (r: seq<T>)
    ensures |r| == if |s| <= n then |s| else n
    ensures r == s[|s| - |r|..]
  {
    if |s| <= n then s else s[|s| - n..]
  }

  function Min(a: nat, b: nat): nat { if a <= b then a else b }

  // =====================================================================
  // Learned patterns

  /** Event types seen, by hour (0-23) or by weekday (0-6). */
  type Patterns = map<nat, seq<string>>

  function Lookup(p: Patterns, k: nat): seq<string> {
    if k in p then p[k] else []
  }

  /** learn_pattern on one of the two tables. */
  function Learn(p: Patterns, k: nat, eventType: string): (r: Patterns)
    ensures Lookup(r, k) == Lookup(p, k) + [eventType]
    ensures forall j :: j != k ==> Lookup(r, j) == Lookup(p, j)
    ensures r.Keys == p.Keys + {k}
  {
    p[k := Lookup(p, k) + [eventType]]
  }

  // =====================================================================
  // Scored signals

  /** The running score and the reasons collected so far. */
  datatype Tally = Tally(score: nat, reasons: seq<string>)

  const NoSignals: Tally := Tally(0, [])

  /** One scoring step: a signal that fires adds its points and reason. */
  function Add(t: Tally, fires: bool, points: nat, reason: string): (r: Tally)
    ensures r.score == t.score + (if fires then points else 0)
    ensures r.reasons == t.reasons + (if fires then [reason] else [])
  {
    if fires then Tally(t.score + points, t.reasons + [reason]) else t
  }

  /** The reasons joined by " | ", or the default text. */
  function Explain(t: Tally, none: string): string {
    if t.reasons == [] then none else JoinedBy(t.reasons, " | ")
  }

  function Weight(b: bool, points: nat): nat { if b then points else 0 }

  // =====================================================================
  // Anomaly detection

  function Distinct(s: seq<string>): nat {
    |set e | e in s|
  }

  /** The type occurs more than three times as often as the average type
      seen at this hour: count > 3 * (n / distinct), with distinct >= 1. */
  predicate FrequencyHit(hourEvents: seq<string>, eventType: string) {
    hourEvents != [] && multiset(hourEvents)[eventType] * Distinct(hourEvents) > 3 * |hourEvents|
  }

  /** A door opening or an alarm between 23:00 and 05:59. */
  predicate NightHit(hour: nat, eventType: string) {
    (hour >= 23 || hour <= 5) && (eventType == "door_opened" || eventType == "alarm_triggered")
  }

  /** History entries whose difference from `at` shows under 60 seconds. */
  function RecentCount(history: seq<Event>, at: int): (n: nat)
    ensures n <= |history|
  {
    if history == [] then 0
    else RecentCount(history[..|history| - 1], at) + (if DeltaSeconds(at, history[|history| - 1].at) < 60 then 1 else 0)
  }

  predicate RapidHit(history: seq<Event>, at: int) { RecentCount(history, at) > 10 }

  /** A type never seen on this weekday, once more than 20 events were. */
  predicate AtypicalHit(dayEvents: seq<string>, eventType: string) {
    dayEvents != [] && eventType !in dayEvents && |dayEvents| > 20
  }

  predicate Learning(hourEvents: seq<string>, dayEvents: seq<string>) {
    |hourEvents| < 2 && |dayEvents| < 3
  }

  function FrequencyReason(hour: nat): string { "Unusual frequency at " + NatToString(hour) + ":00" }
  const NightReason: string := "Unusual activity during night hours"
  const RapidReason: string := "Abnormally rapid events detected"
  function AtypicalReason(weekday: nat): string requires weekday < 7 { "Atypical event for " + WeekdayNames[weekday] }

  /** The four checks in order. */
  function AnomalyTally(hourEvents: seq<string>, dayEvents: seq<string>, history: seq<Event>,
                        eventType: string, at: int): Tally
  {
    var t1 := Add(NoSignals, FrequencyHit(hourEvents, eventType), 30, FrequencyReason(HourOf(at)));
    var t2 := Add(t1, NightHit(HourOf(at), eventType), 40, NightReason);
    var t3 := Add(t2, RapidHit(history, at), 50, RapidReason);
    Add(t3, AtypicalHit(dayEvents, eventType), 25, AtypicalReason(WeekdayOf(at)))
  }

  /** The verdict: flagged or not, the confidence in percent, the reason. */
  datatype Anomaly = Anomaly(isAnomaly: bool, confidence: nat, reason: string)

  /** detect_anomaly against the learned tables and the history. */
  function DetectSpec(hourly: Patterns, daily: Patterns, history: seq<Event>, eventType: string, at: int): (r: Anomaly)
    ensures r.confidence <= 100
    ensures r.isAnomaly ==> r.confidence >= 50
  {
    var hourEvents := Lookup(hourly, HourOf(at));
    var dayEvents := Lookup(daily, WeekdayOf(at));
    if Learning(hourEvents, dayEvents) then Anomaly(false, 0, "Learning phase - collecting data")
    else
      var t := AnomalyTally(hourEvents, dayEvents, history, eventType, at);
      Anomaly(t.score >= 50, Min(t.score, 100), Explain(t, "Normal behavior"))
  }

  /** While learning nothing is flagged. Afterwards the confidence is the
      sum of the weights 30, 40, 50 and 25 of the signals that fire, capped
      at 100, and an event is flagged exactly when the events are rapid or
      at least two of the other three signals fire; so no signal but the
      rapid one is enough alone. */
  lemma DetectCharacterized(hourly: Patterns, daily: Patterns, history: seq<Event>, eventType: string, at: int)
    ensures var he := Lookup(hourly, HourOf(at));
      var de := Lookup(daily, WeekdayOf(at));
      var d := DetectSpec(hourly, daily, history, eventType, at);
      var f, n, r, a := FrequencyHit(he, eventType), NightHit(HourOf(at), eventType), RapidHit(history, at),
                        AtypicalHit(de, eventType);
      var score := Weight(f, 30) + Weight(n, 40) + Weight(r, 50) + Weight(a, 25);
      && (Learning(he, de) ==> !d.isAnomaly && d.confidence == 0)
      && (!Learning(he, de) ==> d.confidence == Min(score, 100) && (d.isAnomaly <==> score >= 50))
      && (!Learning(he, de) ==> (d.isAnomaly <==> r || (f && n) || (f && a) || (n && a)))
  {
  }

  /** A night-time opening with no other signal is reported but not
      flagged. */
  lemma NightAloneIsNotAnomaly(hourly: Patterns, daily: Patterns, history: seq<Event>, at: int)
    requires var he := Lookup(hourly, HourOf(at));
      !Learning(he, Lookup(daily, WeekdayOf(at))) && !FrequencyHit(he, "door_opened")
    requires !RapidHit(history, at) && !AtypicalHit(Lookup(daily, WeekdayOf(at)), "door_opened")
    requires HourOf(at) >= 23 || HourOf(at) <= 5
    ensures DetectSpec(hourly, daily, history, "door_opened", at) == Anomaly(false, 40, NightReason)
  {
  }

  // =====================================================================
  // Threat prediction

  datatype ThreatLevel = Low | Medium | High | Critical

  function LevelName(l: ThreatLevel): string {
    match l
    case Low => "LOW"
    case Medium => "MEDIUM"
    case High => "HIGH"
    case Critical => "CRITICAL"
  }

  function Rank(l: ThreatLevel): nat {
    match l
    case Low => 0
    case Medium => 1
    case High => 2
    case Critical => 3
  }

  /** The thresholds 80, 60 and 40. */
  function LevelOf(score: int): (l: ThreatLevel)
    ensures l == Critical <==> score >= 80
    ensures l == High <==> 60 <= score < 80
    ensures l == Medium <==> 40 <= score < 60
    ensures l == Low <==> score < 40
  {
    if score >= 80 then Critical else if score >= 60 then High else if score >= 40 then Medium else Low
  }

  /** A higher score never gives a lower level. */
  lemma LevelMonotone(a: int, b: int)
    requires a <= b
    ensures Rank(LevelOf(a)) <= Rank(LevelOf(b))
  {
  }

  /** The confidence in percent that goes with a level. */
  function LevelConfidence(l: ThreatLevel): nat {
    match l
    case Critical => 95
    case High => 85
    case Medium => 75
    case Low => 65
  }

  function CountType(events: seq<Event>, eventType: string): (n: nat)
    ensures n <= |events|
  {
    if events == [] then 0
    else CountType(events[..|events| - 1], eventType) + (if events[|events| - 1].eventType == eventType then 1 else 0)
  }

  /** The sum of the seconds between consecutive events. */
  function GapSum(events: seq<Event>): nat {
    if |events| <= 1 then 0
    else GapSum(events[..|events| - 1]) + DeltaSeconds(events[|events| - 1].at, events[|events| - 2].at)
  }

  /** Five or more events whose mean gap is under 30 seconds. */
  predicate Clustered(events: seq<Event>) {
    |events| >= 5 && GapSum(events) < 30 * (|events| - 1)
  }

  predicate RiskyHour(clockHour: nat) { clockHour >= 22 || clockHour <= 6 }

  /** The five factors in order. */
  function ThreatTally(last: seq<Event>, clockHour: nat): Tally {
    var t1 := Add(NoSignals, CountType(last, "alarm_triggered") >= 2, 40, "Multiple alarms detected");
    var t2 := Add(t1, CountType(last, "door_opened") >= 5, 30, "Excessive door access attempts");
    var t3 := Add(t2, RiskyHour(clockHour), 20, "High-risk time period");
    var t4 := Add(t3, CountType(last, "door_opened") > CountType(last, "door_closed"), 25, "Unclosed door detected");
    Add(t4, Clustered(last), 35, "Rapid event clustering")
  }

  datatype Threat = Threat(level: ThreatLevel, confidence: nat, prediction: string)

  /** predict_threat_level at clock hour `clockHour`. */
  function ThreatSpec(recent: seq<Event>, clockHour: nat): (r: Threat)
    ensures |recent| < 3 ==> r.level == Low && r.confidence == 50
    ensures 50 <= r.confidence <= 95
  {
    if |recent| < 3 then Threat(Low, 50, "Insufficient data for prediction")
    else
      var t := ThreatTally(Last(recent, 10), clockHour);
      var level := LevelOf(t.score);
      Threat(level, LevelConfidence(level), Explain(t, "Normal activity pattern"))
  }

  /** Only the last ten events count: anything before them changes
      nothing. */
  lemma OnlyLastTenMatter(older: seq<Event>, recent: seq<Event>, clockHour: nat)
    requires |recent| >= 10
    ensures ThreatSpec(older + recent, clockHour) == ThreatSpec(recent, clockHour)
  {
    var all := older + recent;
    assert all[|all| - 10..] == recent[|recent| - 10..];
    assert Last(all, 10) == Last(recent, 10);
  }

  /** The threat score sums the weights of the five factors, so it is at
      most 150, and the level is read off it. */
  lemma ThreatCharacterized(recent: seq<Event>, clockHour: nat)
    requires |recent| >= 3
    ensures var last := Last(recent, 10);
      var score := Weight(CountType(last, "alarm_triggered") >= 2, 40) + Weight(CountType(last, "door_opened") >= 5, 30)
                   + Weight(RiskyHour(clockHour), 20)
                   + Weight(CountType(last, "door_opened") > CountType(last, "door_closed"), 25)
                   + Weight(Clustered(last), 35);
      var t := ThreatSpec(recent, clockHour);
      score <= 150 && t.level == LevelOf(score) && t.confidence == LevelConfidence(t.level)
  {
  }

  /** The loop summing the gaps between consecutive events. */
  method GapTotal(events: seq<Event>) returns (total: nat)
    ensures total == GapSum(events)
  {
    total := 0;
    if |events| <= 1 {
      return;
    }
    var i := 1;
    while i < |events|
      invariant 1 <= i <= |events|
      invariant total == GapSum(events[..i])
    {
      assert events[..i + 1][..i] == events[..i];
      total := total + DeltaSeconds(events[i].at, events[i - 1].at);
      i := i + 1;
    }
    assert events[..|events|] == events;
  }

  /** The loop counting the history entries that look under a minute old. */
  method CountRecent(history: seq<Event>, at: int) returns (recent: nat)
    ensures recent == RecentCount(history, at)
  {
    recent := 0;
    var i := 0;
    while i < |history|
      invariant 0 <= i <= |history|
      invariant recent == RecentCount(history[..i], at)
    {
      assert history[..i + 1][..i] == history[..i];
      if DeltaSeconds(at, history[i].at) < 60 {
        recent := recent + 1;
      }
      i := i + 1;
    }
    assert history[..|history|] == history;
  }

  /** predict_threat_level, step by step. */
  method PredictThreatLevel(recent: seq<Event>, clockHour: nat) returns (t: Threat)
    ensures t == ThreatSpec(recent, clockHour)
  {
    if |recent| < 3 {
      return Threat(Low, 50, "Insufficient data for prediction");
    }
    var last := Last(recent, 10);
    var tally := ScoreFactors(last, clockHour);
    var level := LevelOf(tally.score);
    var prediction := if tally.reasons == [] then "Normal activity pattern" else JoinedBy(tally.reasons, " | ");
    t := Threat(level, LevelConfidence(level), prediction);
  }

  /** The five factors of predict_threat_level over the last events. */
  method ScoreFactors(last: seq<Event>, clockHour: nat) returns (tally: Tally)
    ensures tally == ThreatTally(last, clockHour)
  {
    var alarms := CountType(last, "alarm_triggered");
    var opens := CountType(last, "door_opened");
    var closes := CountType(last, "door_closed");
    tally := NoSignals;
    tally := Add(tally, alarms >= 2, 40, "Multiple alarms detected");
    tally := Add(tally, opens >= 5, 30, "Excessive door access attempts");
    tally := Add(tally, clockHour >= 22 || clockHour <= 6, 20, "High-risk time period");
    tally := Add(tally, opens > closes, 25, "Unclosed door detected");
    var clustered := false;
    if |last| >= 5 {
      var total := GapTotal(last);
      clustered := total < 30 * (|last| - 1);
    }
    tally := Add(tally, clustered, 35, "Rapid event clustering");
  }

  // =====================================================================
  // Analysing an event

  /** The engine's state: history, patterns and the incident counter. */
  datatype Engine = Engine(history: seq<Event>, hourly: Patterns, daily: Patterns, incidentsPrevented: nat)

  datatype Analysis = Analysis(
    at: int,
    eventType: string,
    anomalyDetected: bool,
    anomalyConfidence: nat,
    anomalyReason: string,
    threatLevel: ThreatLevel,
    threatConfidence: nat,
    threatPrediction: string,
    recommendations: seq<string>,
    aiScore: real)

  const ReviewFootage: string := "\U{26A0}\U{FE0F} Review security footage"
  const IncreaseMonitoring: string := "\U{1F514} Increase monitoring"
  const AlertPersonnel: string := "\U{1F6A8} Alert security personnel"
  const EnableRecording: string := "\U{1F4F9} Enable continuous recording"
  const VerifyLateAccess: string := "\U{1F319} Verify authorized late-night access"

  function Recommendations(anomaly: bool, level: ThreatLevel, eventType: string, hour: nat): seq<string> {
    (if anomaly then [ReviewFootage, IncreaseMonitoring] else [])
    + (if level == High || level == Critical then [AlertPersonnel, EnableRecording] else [])
    + (if eventType == "door_opened" && hour >= 23 then [VerifyLateAccess] else [])
  }

  /** analyze_behavior: the event (its type defaulting to "unknown", its
      moment to `now`) joins the bounded history and both pattern tables,
      is checked for an anomaly, and the whole history is assessed. */
  function AnalyzeSpec(e: Engine, eventType: Option<string>, at: Option<int>, now: int): (Engine, Analysis) {
    Analyze(e, EventOf(eventType, at, now), HourOf(now))
  }

  /** The event analysed: the given type or "unknown", the given moment or
      `now`. */
  function EventOf(eventType: Option<string>, at: Option<int>, now: int): (ev: Event)
    ensures ev.at == (if at.Some? then at.value else now)
    ensures ev.eventType == (if eventType.Some? then eventType.value else "unknown")
  {
    Event(if at.Some? then at.value else now, if eventType.Some? then eventType.value else "unknown")
  }

  function Analyze(e: Engine, ev: Event, clockHour: nat): (Engine, Analysis) {
    var r := Recorded(e, ev);
    var d := DetectSpec(r.hourly, r.daily, r.history, ev.eventType, ev.at);
    (Counted(r, d), Report(ev, d, ThreatSpec(r.history, clockHour)))
  }

  /** incidents_prevented counts flagged events. */
  function Counted(e: Engine, d: Anomaly): (r: Engine)
    ensures r.incidentsPrevented == e.incidentsPrevented + (if d.isAnomaly then 1 else 0)
    ensures r.history == e.history && r.hourly == e.hourly && r.daily == e.daily
  {
    e.(incidentsPrevented := e.incidentsPrevented + (if d.isAnomaly then 1 else 0))
  }

  /** The event appended to the bounded history and learned by both
      pattern tables. */
  function Recorded(e: Engine, ev: Event): (r: Engine)
    ensures r.history == Last(e.history + [ev], HistoryLimit)
    ensures r.hourly == Learn(e.hourly, HourOf(ev.at), ev.eventType)
    ensures r.daily == Learn(e.daily, WeekdayOf(ev.at), ev.eventType)
    ensures r.incidentsPrevented == e.incidentsPrevented
  {
    Engine(Last(e.history + [ev], HistoryLimit), Learn(e.hourly, HourOf(ev.at), ev.eventType),
           Learn(e.daily, WeekdayOf(ev.at), ev.eventType), e.incidentsPrevented)
  }

  /** The analysis record of an event, its anomaly verdict and the threat. */
  function Report(ev: Event, d: Anomaly, threat: Threat): (a: Analysis)
    ensures a.at == ev.at && a.eventType == ev.eventType && a.anomalyDetected == d.isAnomaly
  {
    Analysis(ev.at, ev.eventType, d.isAnomaly, d.confidence, d.reason, threat.level, threat.confidence,
             threat.prediction, Recommendations(d.isAnomaly, threat.level, ev.eventType, HourOf(ev.at)),
             (d.confidence + threat.confidence) as real / 2.0)
  }

  /** The history never exceeds 1000 entries and ends with the newest
      event, after as many of the previous ones as fit, in order. */
  lemma RecordKeepsBounds(e: Engine, ev: Event)
    ensures var h := Recorded(e, ev).history;
      && |h| <= HistoryLimit && h[|h| - 1] == ev
      && h[..|h| - 1] == Last(e.history, |h| - 1)
      && (|e.history| < HistoryLimit ==> h == e.history + [ev])
  {
    var all := e.history + [ev];
    var h := Recorded(e, ev).history;
    assert h == all[|all| - |h|..];
    assert h[..|h| - 1] == e.history[|e.history| - (|h| - 1)..];
  }

  /** Analysing an event records it as above, and the counter grows by
      exactly one for a flagged event and stays put otherwise. */
  lemma AnalyzeRecordsAndCounts(e: Engine, eventType: Option<string>, at: Option<int>, now: int)
    ensures var r := AnalyzeSpec(e, eventType, at, now);
      && r.0.history == Recorded(e, Event(r.1.at, r.1.eventType)).history
      && |r.0.history| <= HistoryLimit
      && r.0.incidentsPrevented == e.incidentsPrevented + (if r.1.anomalyDetected then 1 else 0)
  {
    RecordKeepsBounds(e, EventOf(eventType, at, now));
  }

  /** The recommendations follow the verdicts: footage review exactly for
      a flagged event, alerting personnel exactly for a HIGH or CRITICAL
      threat. */
  lemma RecommendationsFollowVerdicts(anomaly: bool, level: ThreatLevel, eventType: string, hour: nat)
    ensures var r := Recommendations(anomaly, level, eventType, hour);
      && (ReviewFootage in r <==> anomaly)
      && (AlertPersonnel in r <==> level == High || level == Critical)
      && (VerifyLateAccess in r <==> eventType == "door_opened" && hour >= 23)
  {
    var r := Recommendations(anomaly, level, eventType, hour);
    assert ReviewFootage[0] != AlertPersonnel[0] && ReviewFootage[0] != VerifyLateAccess[0];
    assert IncreaseMonitoring[0] != ReviewFootage[0] && IncreaseMonitoring[0] != AlertPersonnel[0];
    assert IncreaseMonitoring[0] != VerifyLateAccess[0];
    assert EnableRecording[0] != ReviewFootage[0] && EnableRecording[0] != AlertPersonnel[0];
    assert EnableRecording[0] != VerifyLateAccess[0] && AlertPersonnel[0] != VerifyLateAccess[0];
  }

  // =====================================================================
  // Insights

  /** An element of greatest count; which one among equals is not fixed. */
  function MostFrequent<T(==)>(s: seq<T>): (r: T)
    requires s != []
    ensures r in s && forall x :: x in s ==> multiset(s)[x] <= multiset(s)[r]
  {
    if |s| == 1 then s[0]
    else
      var m := MostFrequent(s[1..]);
      assert s == [s[0]] + s[1..];
      if multiset(s)[s[0]] >= multiset(s)[m] then s[0] else m
  }

  function Types(history: seq<Event>): (r: seq<string>)
    ensures |r| == |history| && forall i :: 0 <= i < |history| ==> r[i] == history[i].eventType
  {
    if history == [] then [] else [history[0].eventType] + Types(history[1..])
  }

  function Hours(history: seq<Event>): (r: seq<nat>)
    ensures |r| == |history| && forall i :: 0 <= i < |history| ==> r[i] == HourOf(history[i].at)
  {
    if history == [] then [] else [HourOf(history[0].at)] + Hours(history[1..])
  }

  function Penalty(l: ThreatLevel): nat {
    match l
    case Low => 0
    case Medium => 10
    case High => 25
    case Critical => 40
  }

  function RealMin(a: real, b: real): real { if a <= b then a else b }

  /** min(95, 60 + events / 10). */
  function AiAccuracy(total: nat): real {
    RealMin(95.0, 60.0 + total as real / 10.0)
  }

  /** The security score: 100, less the threat penalty, less the anomaly
      rate (at most 30) once there are more than 10 events, plus 5 once
      the accuracy reaches 90, clamped to [0, 100]. The lowest it can
      reach is 30, so the lower clamp never acts. */
  function SecurityScore(level: ThreatLevel, incidents: nat, total: nat): (s: real)
    requires total > 0
    ensures 30.0 <= s <= 100.0
  {
    var base := 100.0 - Penalty(level) as real;
    var rate := (incidents * 100) as real / total as real;
    var afterRate := if total > 10 then base - RealMin(30.0, rate) else base;
    var withBonus := if AiAccuracy(total) >= 90.0 then afterRate + 5.0 else afterRate;
    if withBonus < 0.0 then 0.0 else if withBonus > 100.0 then 100.0 else withBonus
  }

  /** The training bonus applies from 300 events on. */
  lemma BonusFrom300(total: nat)
    ensures AiAccuracy(total) >= 90.0 <==> total >= 300
  {
  }

  /** A quiet engine (no incidents, threat LOW) with 300 or more events
      scores the full 100. */
  lemma QuietEngineScoresFull(total: nat)
    requires total >= 300
    ensures SecurityScore(Low, 0, total) == 100.0
  {
    BonusFrom300(total);
  }

  datatype Insights =
    | LearningInsights(message: string, eventsAnalyzed: nat)
    | ActiveInsights(eventsAnalyzed: nat, incidentsPrevented: nat, securityScore: real, mostCommonEvent: string,
                     busiestHour: string, threatLevel: ThreatLevel, threatConfidence: nat, patternsLearned: nat,
                     aiAccuracy: real)

  /** get_ai_insights at clock hour `clockHour`. */
  function InsightsSpec(e: Engine, clockHour: nat): (r: Insights)
    ensures r.LearningInsights? <==> e.history == []
    ensures r.ActiveInsights? ==>
      && r.eventsAnalyzed == |e.history| && r.incidentsPrevented == e.incidentsPrevented
      && r.threatLevel == ThreatSpec(Last(e.history, 20), clockHour).level
      && r.mostCommonEvent in Types(e.history)
      && (forall x :: x in Types(e.history) ==> multiset(Types(e.history))[x] <= multiset(Types(e.history))[r.mostCommonEvent])
      && 30.0 <= r.securityScore <= 100.0
      && r.patternsLearned == |e.hourly.Keys|
  {
    if e.history == [] then LearningInsights("AI is learning your security patterns...", 0)
    else
      var total := |e.history|;
      var threat := ThreatSpec(Last(e.history, 20), clockHour);
      ActiveInsights(total, e.incidentsPrevented, SecurityScore(threat.level, e.incidentsPrevented, total),
                     MostFrequent(Types(e.history)), NatToString(MostFrequent(Hours(e.history))) + ":00",
                     threat.level, threat.confidence, |e.hourly.Keys|, AiAccuracy(total))
  }

  // =====================================================================
  // The engine

  class AISecurityEngine {
    var history: seq<Event>
    var hourly: Patterns
    var daily: Patterns
    var incidentsPrevented: nat

    function Current(): Engine
      reads this
    {
      Engine(history, hourly, daily, incidentsPrevented)
    }

    /** A fresh engine (no saved model). */
    constructor ()
      ensures Current() == Engine([], map[], map[], 0)
    {
      history, hourly, daily, incidentsPrevented := [], map[], map[], 0;
    }

    /** detect_anomaly, step by step. */
    method DetectAnomaly(eventType: string, at: int) returns (r: Anomaly)
      ensures r == DetectSpec(hourly, daily, history, eventType, at)
    {
      var hour := HourOf(at);
      var hourEvents := Lookup(hourly, hour);
      var dayEvents := Lookup(daily, WeekdayOf(at));
      if |hourEvents| < 2 && |dayEvents| < 3 {
        return Anomaly(false, 0, "Learning phase - collecting data");
      }
      var t := NoSignals;
      t := Add(t, FrequencyHit(hourEvents, eventType), 30, FrequencyReason(hour));
      t := Add(t, NightHit(hour, eventType), 40, NightReason);
      var recent := CountRecent(history, at);
      t := Add(t, recent > 10, 50, RapidReason);
      t := Add(t, AtypicalHit(dayEvents, eventType), 25, AtypicalReason(WeekdayOf(at)));
      var score, reasons := t.score, t.reasons;
      var reason := if reasons == [] then "Normal behavior" else JoinedBy(reasons, " | ");
      r := Anomaly(score >= 50, Min(score, 100), reason);
    }

    /** The history append and learn_pattern (saving the model to disk
        aside). */
    method Record(ev: Event)
      modifies this
      ensures Current() == Recorded(old(Current()), ev)
    {
      history := Last(history + [ev], HistoryLimit);
      hourly := Learn(hourly, HourOf(ev.at), ev.eventType);
      daily := Learn(daily, WeekdayOf(ev.at), ev.eventType);
    }

    /** The incidents_prevented counter after a verdict. */
    method CountIncident(d: Anomaly)
      modifies this
      ensures Current() == Counted(old(Current()), d)
    {
      if d.isAnomaly {
        incidentsPrevented := incidentsPrevented + 1;
      }
    }

    /** analyze_behavior. */
    method AnalyzeBehavior(eventType: Option<string>, at: Option<int>, now: int) returns (a: Analysis)
      modifies this
      ensures (Current(), a) == AnalyzeSpec(old(Current()), eventType, at, now)
    {
      var ev := EventOf(eventType, at, now);
      ghost var r := Recorded(Current(), ev);
      Record(ev);
      var d := DetectAnomaly(ev.eventType, ev.at);
      assert d == DetectSpec(r.hourly, r.daily, r.history, ev.eventType, ev.at);
      CountIncident(d);
      var threat := PredictThreatLevel(history, HourOf(now));
      assert threat == ThreatSpec(r.history, HourOf(now));
      a := Report(ev, d, threat);
    }
  }
}
