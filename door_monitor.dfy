/** The door monitor of app.py: the open/close edge rules of
    monitor_door, the decision taken when alarm_timer ends, and the
    per-event-type de-duplication at the head of log_event.

    One call of a method is one decision of the source's loops; the loops,
    threads, GPIO pins and LEDs themselves are not modelled. Times are
    integer milliseconds on the server clock and are passed in. */
module DoorMonitor {
  import opened Common

  const MinDoorGapMs: int := 1000
  const DedupeWindowMs: int := 2000
  const DefaultTimerDuration: int := 30

  // =====================================================================
  // The three global flags

  datatype Flags = Flags(doorOpen: bool, alarmActive: bool, timerActive: bool)

  /** Neither the timer nor the alarm runs with the door closed, and they
      never run together. */
  predicate SafeFlags(f: Flags) {
    ((f.alarmActive || f.timerActive) ==> f.doorOpen) && !(f.alarmActive && f.timerActive)
  }

  datatype DoorState = DoorState(flags: Flags, lastDoorEventMs: int, timerDuration: int)

  /** What a stable sensor reading did. */
  datatype Edge = NoEdge | Opened | Closed

  /** A reading is a door event only when it differs from `door_open` and
      at least a second has passed since the last accepted door event. */
  predicate EdgeAccepted(s: DoorState, doorIsOpen: bool, nowMs: int) {
    doorIsOpen != s.flags.doorOpen && nowMs - s.lastDoorEventMs >= MinDoorGapMs
  }

  /** The timer duration for a new opening: the stored setting, else 30. */
  function TimerDurationFor(stored: Option<int>): int {
    if stored.Some? then stored.value else DefaultTimerDuration
  }

  /** One pass of monitor_door's decision on a stable reading. */
  function DoorReading(s: DoorState, doorIsOpen: bool, nowMs: int, stored: Option<int>): (r: (DoorState, Edge))
    ensures !EdgeAccepted(s, doorIsOpen, nowMs) <==> r.1 == NoEdge
    ensures r.1 == NoEdge ==> r.0 == s
    ensures r.1 == Opened <==> EdgeAccepted(s, doorIsOpen, nowMs) && doorIsOpen
    ensures r.1 == Opened ==> r.0 == DoorState(Flags(true, false, true), nowMs, TimerDurationFor(stored))
    ensures r.1 == Closed ==> r.0 == DoorState(Flags(false, false, false), nowMs, s.timerDuration)
  {
    if doorIsOpen && !s.flags.doorOpen then
      if nowMs - s.lastDoorEventMs < MinDoorGapMs then (s, NoEdge)
      else (DoorState(Flags(true, false, true), nowMs, TimerDurationFor(stored)), Opened)
    else if !doorIsOpen && s.flags.doorOpen then
      if nowMs - s.lastDoorEventMs < MinDoorGapMs then (s, NoEdge)
      else (s.(flags := Flags(false, false, false), lastDoorEventMs := nowMs), Closed)
    else (s, NoEdge)
  }

  /** The decision when alarm_timer's loop ends after `elapsedMs`: fire iff
      the timer is still active, the door still open and the full duration
      has passed; in every case the timer stops, and the alarm is cleared
      only when the door is closed. */
  function TimerEnd(f: Flags, elapsedMs: int, duration: int): (r: (Flags, bool))
    ensures r.1 <==> f.timerActive && f.doorOpen && elapsedMs >= duration * 1000
    ensures !r.0.timerActive && r.0.doorOpen == f.doorOpen
    ensures r.1 ==> r.0.alarmActive
    ensures !r.1 ==> r.0.alarmActive == (f.alarmActive && f.doorOpen)
  {
    if f.timerActive && f.doorOpen && elapsedMs >= duration * 1000 then
      (f.(timerActive := false, alarmActive := true), true)
    else
      (f.(timerActive := false, alarmActive := if !f.doorOpen then false else f.alarmActive), false)
  }

  /** Both decisions keep the flags safe. */
  lemma DecisionsKeepSafe(s: DoorState, doorIsOpen: bool, nowMs: int, stored: Option<int>,
                          elapsedMs: int, duration: int)
    requires SafeFlags(s.flags)
    ensures SafeFlags(DoorReading(s, doorIsOpen, nowMs, stored).0.flags)
    ensures SafeFlags(TimerEnd(s.flags, elapsedMs, duration).0)
  {
  }

  // ---------------------------------------------------------------------
  // Sequences of readings

  datatype Reading = Reading(doorIsOpen: bool, nowMs: int)
  datatype Accepted = Accepted(edge: Edge, atMs: int)

  /** Feeds readings in order; returns the final state and the accepted edges. */
  function RunReadings(s: DoorState, readings: seq<Reading>, stored: Option<int>): (DoorState, seq<Accepted>)
    decreases |readings|
  {
    if readings == [] then (s, [])
    else
      var (s1, e) := DoorReading(s, readings[0].doorIsOpen, readings[0].nowMs, stored);
      var (sn, rest) := RunReadings(s1, readings[1..], stored);
      (sn, if e == NoEdge then rest else [Accepted(e, readings[0].nowMs)] + rest)
  }

  /** Accepted edges alternate, begin with the opposite of the current
      door state, are at least a second apart and at least a second after
      the last door event; the final state remembers the last of them. */
  predicate WellSpaced(s: DoorState, acc: seq<Accepted>) {
    && (forall i :: 0 <= i < |acc| ==> acc[i].edge != NoEdge)
    && (|acc| > 0 ==> acc[0].edge == (if s.flags.doorOpen then Closed else Opened)
                      && acc[0].atMs - s.lastDoorEventMs >= MinDoorGapMs)
    && (forall i :: 0 < i < |acc| ==>
          acc[i].edge != acc[i - 1].edge && acc[i].atMs - acc[i - 1].atMs >= MinDoorGapMs)
  }

  lemma {:induction false} RunReadingsWellSpaced(s: DoorState, readings: seq<Reading>, stored: Option<int>)
    ensures var (sn, acc) := RunReadings(s, readings, stored);
      && WellSpaced(s, acc)
      && (acc == [] ==> sn.flags.doorOpen == s.flags.doorOpen && sn.lastDoorEventMs == s.lastDoorEventMs)
      && (acc != [] ==> sn.lastDoorEventMs == acc[|acc| - 1].atMs
                        && sn.flags.doorOpen == (acc[|acc| - 1].edge == Opened))
    decreases |readings|
  {
    if readings != [] {
      var r0 := readings[0];
      var step := DoorReading(s, r0.doorIsOpen, r0.nowMs, stored);
      var s1, e := step.0, step.1;
      RunReadingsWellSpaced(s1, readings[1..], stored);
      var tail := RunReadings(s1, readings[1..], stored);
      var rest := tail.1;
      assert RunReadings(s, readings, stored) == (tail.0, if e == NoEdge then rest else [Accepted(e, r0.nowMs)] + rest);
      if e == NoEdge {
        assert s1 == s;
      } else {
        var a := Accepted(e, r0.nowMs);
        assert s1.flags.doorOpen == (e == Opened) && s1.lastDoorEventMs == r0.nowMs;
        PrependWellSpaced(s, a, s1, rest);
        assert ([a] + rest)[|rest|] == if rest == [] then a else rest[|rest| - 1];
      }
    }
  }

  /** An accepted edge followed by well-spaced edges from the state it
      leads to is well spaced from the state before it. */
  lemma PrependWellSpaced(s: DoorState, a: Accepted, s1: DoorState, rest: seq<Accepted>)
    requires WellSpaced(s1, rest)
    requires a.edge == (if s.flags.doorOpen then Closed else Opened) && a.atMs - s.lastDoorEventMs >= MinDoorGapMs
    requires s1.flags.doorOpen == (a.edge == Opened) && s1.lastDoorEventMs == a.atMs
    ensures WellSpaced(s, [a] + rest)
  {
    var acc := [a] + rest;
    assert acc[1..] == rest;
  }

  // =====================================================================
  // De-duplication in log_event

  /** An event is stored unless the same type was approved less than two
      seconds earlier (a stamp in the future also counts as "earlier"). */
  predicate Approved(stamps: map<string, int>, eventType: string, nowMs: int) {
    eventType !in stamps || nowMs - stamps[eventType] >= DedupeWindowMs
  }

  function Stamp(stamps: map<string, int>, eventType: string, nowMs: int): (m: map<string, int>)
    ensures Approved(stamps, eventType, nowMs) ==> m == stamps[eventType := nowMs]
    ensures !Approved(stamps, eventType, nowMs) ==> m == stamps
  {
    if Approved(stamps, eventType, nowMs) then stamps[eventType := nowMs] else stamps
  }

  /** Within two seconds of an approval, the same type is dropped; other
      types are judged exactly as before. */
  lemma DedupeWindow(stamps: map<string, int>, eventType: string, nowMs: int, laterMs: int, other: string)
    requires Approved(stamps, eventType, nowMs)
    requires nowMs <= laterMs < nowMs + DedupeWindowMs
    requires other != eventType
    ensures !Approved(Stamp(stamps, eventType, nowMs), eventType, laterMs)
    ensures Approved(Stamp(stamps, eventType, nowMs), other, laterMs) == Approved(stamps, other, laterMs)
  {
  }

  /** A drop leaves the map as it was, so a burst of repeats cannot push
      the window forward: the first repeat at least two seconds after the
      last approval is stored. */
  lemma DroppedRepeatsDoNotExtend(stamps: map<string, int>, eventType: string, times: seq<int>, laterMs: int)
    requires forall i :: 0 <= i < |times| ==> !Approved(stamps, eventType, times[i])
    requires eventType in stamps && laterMs - stamps[eventType] >= DedupeWindowMs
    ensures StampAll(stamps, eventType, times) == stamps
    ensures Approved(StampAll(stamps, eventType, times), eventType, laterMs)
  {
    StampAllDropped(stamps, eventType, times);
  }

  function StampAll(stamps: map<string, int>, eventType: string, times: seq<int>): map<string, int>
    decreases |times|
  {
    if times == [] then stamps else StampAll(Stamp(stamps, eventType, times[0]), eventType, times[1..])
  }

  lemma {:induction false} StampAllDropped(stamps: map<string, int>, eventType: string, times: seq<int>)
    requires forall i :: 0 <= i < |times| ==> !Approved(stamps, eventType, times[i])
    ensures StampAll(stamps, eventType, times) == stamps
    decreases |times|
  {
    if times != [] {
      assert !Approved(stamps, eventType, times[0]);
      StampAllDropped(stamps, eventType, times[1..]);
    }
  }

  // =====================================================================
  // log_event on the logging globals

  datatype EventRecord = EventRecord(eventType: string, description: string, atMs: int)

  /** The globals log_event reads and writes: the stamp map, the call
      counter, the last logged door and alarm states, and the rows
      committed to the event log. */
  datatype EventLog = EventLog(stamps: map<string, int>, counter: nat, loggedDoor: Option<bool>,
                               loggedAlarm: bool, events: seq<EventRecord>)

  /** log_event(eventType, description) at `nowMs`. */
  function LogSpec(l: EventLog, eventType: string, description: string, nowMs: int): (r: EventLog)
    ensures r.counter == l.counter + 1
    ensures r.stamps == Stamp(l.stamps, eventType, nowMs)
    ensures Approved(l.stamps, eventType, nowMs) ==> r.events == l.events + [EventRecord(eventType, description, nowMs)]
    ensures !Approved(l.stamps, eventType, nowMs) ==> r.events == l.events
    ensures r.loggedDoor != l.loggedDoor ==>
      Approved(l.stamps, eventType, nowMs) && r.loggedDoor == Some(eventType == "door_open")
      && (eventType == "door_open" || eventType == "door_close")
    ensures r.loggedAlarm != l.loggedAlarm ==>
      Approved(l.stamps, eventType, nowMs) && eventType == "alarm_triggered" && r.loggedAlarm
  {
    if !Approved(l.stamps, eventType, nowMs) then l.(counter := l.counter + 1)
    else
      var door := if eventType == "door_open" then Some(true)
                  else if eventType == "door_close" then Some(false) else l.loggedDoor;
      var alarm := l.loggedAlarm || eventType == "alarm_triggered";
      EventLog(l.stamps[eventType := nowMs], l.counter + 1, door, alarm,
               l.events + [EventRecord(eventType, description, nowMs)])
  }

  function AlarmDescription(duration: int): string {
    "Alarm triggered after " + IntToString(duration) + " seconds"
  }

  /** The stamps of the two door event types trail the last door event:
      the stamp of the current state's event is at most `slackMs` after
      that event, and the stamp of the other type at least a second older
      than that. `slackMs` bounds how long log_event runs after the edge
      it logs, since it reads the clock again. */
  predicate StampsTrail(s: DoorState, stamps: map<string, int>, slackMs: int) {
    var openLag := if s.flags.doorOpen then 0 else MinDoorGapMs;
    var closeLag := if s.flags.doorOpen then MinDoorGapMs else 0;
    && ("door_open" in stamps ==> stamps["door_open"] <= s.lastDoorEventMs - openLag + slackMs)
    && ("door_close" in stamps ==> stamps["door_close"] <= s.lastDoorEventMs - closeLag + slackMs)
  }

  /** monitor_door reads the clock for the edge and log_event reads it
      again, at `logMs`, after the GPIO writes and the settings query. When
      that delay is at most `slackMs`, the stamps keep trailing, and the
      de-duplication keeps an accepted edge that comes at least
      `MinDoorGapMs + slackMs` after the previous door event: two events of
      the same type are then more than two seconds apart on log_event's
      clock. With no delay every accepted edge is logged. */
  lemma DoorEdgesLoggedWithinSlack(s: DoorState, stamps: map<string, int>, slackMs: nat, doorIsOpen: bool,
                                   nowMs: int, logMs: int, stored: Option<int>)
    requires StampsTrail(s, stamps, slackMs)
    requires nowMs <= logMs <= nowMs + slackMs
    ensures var (s1, edge) := DoorReading(s, doorIsOpen, nowMs, stored);
      && (edge == Opened ==> StampsTrail(s1, Stamp(stamps, "door_open", logMs), slackMs))
      && (edge == Closed ==> StampsTrail(s1, Stamp(stamps, "door_close", logMs), slackMs))
      && (edge == NoEdge ==> StampsTrail(s1, stamps, slackMs))
      && (edge == Opened && nowMs - s.lastDoorEventMs >= MinDoorGapMs + slackMs ==>
            Approved(stamps, "door_open", logMs))
      && (edge == Closed && nowMs - s.lastDoorEventMs >= MinDoorGapMs + slackMs ==>
            Approved(stamps, "door_close", logMs))
  {
  }

  /** The bound is needed: the constructor's state accepts an opening at
      1000 ms, a closing at 2000 ms and an opening at 3000 ms, but when
      log_event reads the clock at 1050, 2000 and 3010 ms the second
      door_open is only 1960 ms after the first and is dropped, so the
      log ends with the door_close. */
  lemma LateLogDropsOpening()
    ensures var s0 := DoorState(Flags(false, false, false), 0, DefaultTimerDuration);
      var (s1, e1) := DoorReading(s0, true, 1000, None);
      var (s2, e2) := DoorReading(s1, false, 2000, None);
      var (s3, e3) := DoorReading(s2, true, 3000, None);
      var l1 := LogSpec(EventLog(map[], 0, None, false, []), "door_open", "Door opened", 1050);
      var l2 := LogSpec(l1, "door_close", "Door closed", 2000);
      var l3 := LogSpec(l2, "door_open", "Door opened", 3010);
      && e1 == Opened && e2 == Closed && e3 == Opened
      && l3.events == [EventRecord("door_open", "Door opened", 1050), EventRecord("door_close", "Door closed", 2000)]
      && l3.loggedDoor == Some(false)
  {
  }

  /** A log call of any other type keeps the door stamps trailing. */
  lemma OtherEventsKeepTrail(s: DoorState, stamps: map<string, int>, slackMs: int, eventType: string, nowMs: int)
    requires StampsTrail(s, stamps, slackMs)
    requires eventType != "door_open" && eventType != "door_close"
    ensures StampsTrail(s, Stamp(stamps, eventType, nowMs), slackMs)
  {
  }

  // =====================================================================
  // The server's globals

  /** The module-level state shared by monitor_door, alarm_timer and
      log_event; `events` stands for the rows committed to the event log and
      `timersStarted` for the alarm_timer threads started, by duration. */
  class DoorController {
    var doorOpen: bool
    var alarmActive: bool
    var timerActive: bool
    var timerDuration: int
    var lastDoorEventMs: int
    var lastEventTimestamps: map<string, int>
    var eventCounter: nat
    var lastLoggedDoorState: Option<bool>
    var lastLoggedAlarmState: bool
    var events: seq<EventRecord>
    var timersStarted: seq<int>

    function CurrentFlags(): Flags
      reads this
    {
      Flags(doorOpen, alarmActive, timerActive)
    }

    function CurrentDoorState(): DoorState
      reads this
    {
      DoorState(CurrentFlags(), lastDoorEventMs, timerDuration)
    }

    function CurrentLog(): EventLog
      reads this
    {
      EventLog(lastEventTimestamps, eventCounter, lastLoggedDoorState, lastLoggedAlarmState, events)
    }

    /** The values the module starts with. */
    constructor ()
      ensures CurrentFlags() == Flags(false, false, false) && SafeFlags(CurrentFlags())
      ensures timerDuration == DefaultTimerDuration && lastDoorEventMs == 0
      ensures lastEventTimestamps == map[] && eventCounter == 0
      ensures lastLoggedDoorState == None && !lastLoggedAlarmState
      ensures events == [] && timersStarted == []
      ensures forall slackMs: nat :: StampsTrail(CurrentDoorState(), lastEventTimestamps, slackMs)
    {
      doorOpen, alarmActive, timerActive := false, false, false;
      timerDuration := DefaultTimerDuration;
      lastDoorEventMs := 0;
      lastEventTimestamps := map[];
      eventCounter := 0;
      lastLoggedDoorState := None;
      lastLoggedAlarmState := false;
      events, timersStarted := [], [];
    }

    /** log_event: every call is counted; a duplicate within the window is
        dropped with nothing else changed; otherwise the stamp is renewed,
        the logged door or alarm state follows the type, and the event is
        stored. */
    method LogEvent(eventType: string, description: string, nowMs: int) returns (approved: bool)
      modifies this
      ensures approved == Approved(old(lastEventTimestamps), eventType, nowMs)
      ensures CurrentLog() == LogSpec(old(CurrentLog()), eventType, description, nowMs)
      ensures CurrentDoorState() == old(CurrentDoorState()) && timersStarted == old(timersStarted)
    {
      eventCounter := eventCounter + 1;
      if eventType in lastEventTimestamps {
        var diff := nowMs - lastEventTimestamps[eventType];
        if diff < DedupeWindowMs {
          return false;
        }
      }
      lastEventTimestamps := lastEventTimestamps[eventType := nowMs];
      if eventType == "door_open" {
        lastLoggedDoorState := Some(true);
      } else if eventType == "door_close" {
        lastLoggedDoorState := Some(false);
      } else if eventType == "alarm_triggered" {
        lastLoggedAlarmState := true;
      }
      events := events + [EventRecord(eventType, description, nowMs)];
      approved := true;
    }

    /** The accepted-opening branch of monitor_door. */
    method AcceptOpening(nowMs: int, logMs: int, stored: Option<int>)
      requires !doorOpen && nowMs - lastDoorEventMs >= MinDoorGapMs
      modifies this
      ensures CurrentDoorState() == DoorState(Flags(true, false, true), nowMs, TimerDurationFor(stored))
      ensures CurrentLog() == LogSpec(old(CurrentLog()), "door_open", "Door opened", logMs)
      ensures timersStarted == old(timersStarted) + [TimerDurationFor(stored)]
    {
      doorOpen, alarmActive, timerActive := true, false, true;
      lastDoorEventMs := nowMs;
      timerDuration := TimerDurationFor(stored);
      var _ := LogEvent("door_open", "Door opened", logMs);
      timerActive := true;
      timersStarted := timersStarted + [timerDuration];
    }

    /** The accepted-closing branch of monitor_door. */
    method AcceptClosing(nowMs: int, logMs: int)
      requires doorOpen && nowMs - lastDoorEventMs >= MinDoorGapMs
      modifies this
      ensures CurrentDoorState() == DoorState(Flags(false, false, false), nowMs, old(timerDuration))
      ensures CurrentLog() == LogSpec(old(CurrentLog()), "door_close", "Door closed", logMs)
      ensures timersStarted == old(timersStarted)
    {
      doorOpen, alarmActive, timerActive := false, false, false;
      lastDoorEventMs := nowMs;
      var _ := LogEvent("door_close", "Door closed", logMs);
    }

    /** One stable reading in monitor_door at `nowMs`: an accepted opening
        sets the flags, takes the timer duration, logs door_open and starts
        a timer; an accepted closing clears the flags and logs door_close.
        log_event reads the clock itself, at `logMs`. */
    method ProcessReading(doorIsOpen: bool, nowMs: int, logMs: int, stored: Option<int>) returns (edge: Edge)
      modifies this
      ensures (CurrentDoorState(), edge) == DoorReading(old(CurrentDoorState()), doorIsOpen, nowMs, stored)
      ensures CurrentLog() == match edge
        case NoEdge => old(CurrentLog())
        case Opened => LogSpec(old(CurrentLog()), "door_open", "Door opened", logMs)
        case Closed => LogSpec(old(CurrentLog()), "door_close", "Door closed", logMs)
      ensures timersStarted == if edge == Opened then old(timersStarted) + [TimerDurationFor(stored)]
                               else old(timersStarted)
      ensures var slackMs := logMs - nowMs;
        StampsTrail(old(CurrentDoorState()), old(lastEventTimestamps), slackMs) && 0 <= slackMs ==>
        && StampsTrail(CurrentDoorState(), lastEventTimestamps, slackMs)
        && (nowMs - old(lastDoorEventMs) >= MinDoorGapMs + slackMs ==>
              && (edge == Opened ==> events == old(events) + [EventRecord("door_open", "Door opened", logMs)])
              && (edge == Closed ==> events == old(events) + [EventRecord("door_close", "Door closed", logMs)]))
    {
      ghost var s0, stamps0 := CurrentDoorState(), lastEventTimestamps;
      edge := NoEdge;
      if doorIsOpen && !doorOpen && nowMs - lastDoorEventMs >= MinDoorGapMs {
        AcceptOpening(nowMs, logMs, stored);
        edge := Opened;
      } else if !doorIsOpen && doorOpen && nowMs - lastDoorEventMs >= MinDoorGapMs {
        AcceptClosing(nowMs, logMs);
        edge := Closed;
      }
      if 0 <= logMs - nowMs && StampsTrail(s0, stamps0, logMs - nowMs) {
        DoorEdgesLoggedWithinSlack(s0, stamps0, logMs - nowMs, doorIsOpen, nowMs, logMs, stored);
      }
    }

    /** The end of alarm_timer(duration) after `elapsedMs`. */
    method FinishAlarmTimer(elapsedMs: int, duration: int, nowMs: int) returns (fired: bool)
      modifies this
      ensures (CurrentFlags(), fired) == TimerEnd(old(CurrentFlags()), elapsedMs, duration)
      ensures CurrentLog() == if fired then LogSpec(old(CurrentLog()), "alarm_triggered", AlarmDescription(duration), nowMs)
                              else old(CurrentLog())
      ensures lastDoorEventMs == old(lastDoorEventMs) && timerDuration == old(timerDuration)
      ensures timersStarted == old(timersStarted)
      ensures lastEventTimestamps == old(lastEventTimestamps)
              || lastEventTimestamps == old(lastEventTimestamps)["alarm_triggered" := nowMs]
    {
      if timerActive && doorOpen && elapsedMs >= duration * 1000 {
        timerActive := false;
        alarmActive := true;
        var _ := LogEvent("alarm_triggered", AlarmDescription(duration), nowMs);
        fired := true;
      } else {
        timerActive := false;
        if !doorOpen {
          alarmActive := false;
        }
        fired := false;
      }
    }
  }
}
