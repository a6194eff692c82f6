/** The dashboard's real-time client (static/js/dashboard-realtime.js).

    Two halves: a transport state machine that chooses between the push
    socket and a 5-second polling timer, and a dispatcher that applies the
    fields present in a status snapshot to the page. The page is a value
    (View); timers are numbered handles; "now" and the outcome of every
    fetch are parameters. */
module DashboardRealtime {
  import opened Common

  const PollingRate: nat := 5000
  const MaxRetries: nat := 5
  const AnimationDuration: nat := 500
  const DashboardPage := "dashboard"

  // =====================================================================
  // Transport

  datatype Timer = Timer(id: nat, period: nat)

  datatype Badge = RealTime | Polling | Offline

  datatype Outbound = ClientReady(page: string, timestamp: int)

  /** The fields of one DashboardRealTime object that drive transport:
      `hasSocket` is `socket !== null`, `interval` is `updateInterval`,
      `badge` is what the connection indicator shows, `sent` the messages
      emitted on the socket, `fetches` the requests made to /api/dashboard,
      and `nextTimer` the handle the next setInterval returns. */
  datatype Transport = Transport(
    hasSocket: bool,
    isConnected: bool,
    interval: Option<Timer>,
    retries: nat,
    badge: Badge,
    sent: seq<Outbound>,
    fetches: nat,
    nextTimer: nat)

  /** updateConnectionIndicator: real-time while connected, otherwise
      polling while a timer is installed, otherwise offline. */
  function BadgeFor(isConnected: bool, interval: Option<Timer>): (b: Badge)
    ensures b == RealTime <==> isConnected
    ensures b == Polling <==> !isConnected && interval.Some?
    ensures b == Offline <==> !isConnected && interval.None?
  {
    if isConnected then RealTime else if interval.Some? then Polling else Offline
  }

  function RefreshBadge(t: Transport): Transport {
    t.(badge := BadgeFor(t.isConnected, t.interval))
  }

  /** The badge agrees with the state it describes. */
  predicate BadgeCurrent(t: Transport) {
    t.badge == BadgeFor(t.isConnected, t.interval)
  }

  /** Never both transports at once: a live socket means no polling timer. */
  predicate OneTransport(t: Transport) {
    t.isConnected ==> t.interval.None?
  }

  predicate Consistent(t: Transport) {
    BadgeCurrent(t) && OneTransport(t)
      && (t.interval.Some? ==> t.interval.value.id < t.nextTimer)
  }

  /** startPolling: nothing if a timer exists, else install a 5000 ms
      timer and poll once at once. */
  function StartPolling(t: Transport): (r: Transport)
    ensures r.interval.Some?
    ensures t.interval.Some? ==> r == t
    ensures t.interval.None? ==>
      r.interval == Some(Timer(t.nextTimer, PollingRate)) && r.fetches == t.fetches + 1
    ensures r.isConnected == t.isConnected && r.badge == t.badge && r.sent == t.sent
  {
    if t.interval.Some? then t
    else t.(interval := Some(Timer(t.nextTimer, PollingRate)),
            nextTimer := t.nextTimer + 1,
            fetches := t.fetches + 1)
  }

  /** stopPolling: clear the timer, if any. */
  function StopPolling(t: Transport): (r: Transport)
    ensures r.interval.None?
    ensures r == t.(interval := None)
  {
    t.(interval := None)
  }

  /** Starting twice is starting once. */
  lemma StartPollingIdempotent(t: Transport)
    ensures StartPolling(StartPolling(t)) == StartPolling(t)
  {
  }

  /** The DashboardRealTime constructor and initialize(): open the socket
      when the Socket.IO client is loaded, start polling, draw the badge. */
  function Initialize(ioLoaded: bool): (t: Transport)
    ensures Consistent(t) && !t.isConnected && t.retries == 0
    ensures t.hasSocket == ioLoaded
    ensures t.interval == Some(Timer(0, PollingRate)) && t.fetches == 1
    ensures t.badge == Polling && t.sent == []
  {
    var t0 := Transport(ioLoaded, false, None, 0, Offline, [], 0, 0);
    RefreshBadge(StartPolling(t0))
  }

  /** 'connect': connected, retries back to 0, polling stopped, badge
      redrawn, then client_ready is emitted on the socket. After a
      fallback has set `socket` to null the emit throws, so nothing is sent. */
  function OnConnect(t: Transport, now: int): (r: Transport)
    ensures r.isConnected && r.retries == 0 && r.interval.None? && r.badge == RealTime
    ensures r.sent == if t.hasSocket then t.sent + [ClientReady(DashboardPage, now)] else t.sent
    ensures r.fetches == t.fetches && r.hasSocket == t.hasSocket
  {
    var c := RefreshBadge(StopPolling(t.(isConnected := true, retries := 0)));
    if c.hasSocket then c.(sent := c.sent + [ClientReady(DashboardPage, now)]) else c
  }

  /** 'disconnect' as written: the badge is redrawn BEFORE polling starts. */
  function OnDisconnect(t: Transport): (r: Transport)
    ensures !r.isConnected && r.interval.Some?
    ensures r.badge == BadgeFor(false, t.interval)
  {
    StartPolling(RefreshBadge(t.(isConnected := false)))
  }

  /** 'disconnect' with the badge redrawn after polling has started. */
  function OnDisconnectRefreshed(t: Transport): (r: Transport)
    ensures !r.isConnected && r.interval.Some? && r.badge == Polling
  {
    RefreshBadge(StartPolling(t.(isConnected := false)))
  }

  /** fallbackToPolling: drop the socket, poll, redraw the badge. */
  function FallbackToPolling(t: Transport): (r: Transport)
    ensures !r.isConnected && !r.hasSocket && r.interval.Some? && r.badge == Polling
    ensures r.retries == t.retries && r.sent == t.sent
  {
    RefreshBadge(StartPolling(t.(isConnected := false, hasSocket := false)))
  }

  /** 'connect_error': count the failure; at MaxRetries and beyond, fall back. */
  function OnConnectError(t: Transport): (r: Transport)
    ensures r.retries == t.retries + 1
    ensures t.retries + 1 >= MaxRetries ==> r == FallbackToPolling(t.(retries := t.retries + 1))
    ensures t.retries + 1 < MaxRetries ==> r == t.(retries := t.retries + 1)
  {
    var c := t.(retries := t.retries + 1);
    if c.retries >= MaxRetries then FallbackToPolling(c) else c
  }

  /** A tick of the installed interval issues one poll. */
  function OnTick(t: Transport): (r: Transport)
    ensures r.fetches == if t.interval.Some? then t.fetches + 1 else t.fetches
    ensures r.interval == t.interval && r.isConnected == t.isConnected
  {
    if t.interval.Some? then t.(fetches := t.fetches + 1) else t
  }

  datatype TransportStatus = TransportStatus(websocket: bool, polling: bool, retries: nat)

  /** getStatus. */
  function GetStatus(t: Transport): (s: TransportStatus)
    ensures s.websocket == t.isConnected && s.polling == t.interval.Some? && s.retries == t.retries
  {
    TransportStatus(t.isConnected, t.interval.Some?, t.retries)
  }

  /** Each handler except the as-written disconnect keeps the badge current
      and never leaves a live socket beside a polling timer. */
  lemma HandlersKeepConsistent(t: Transport, now: int)
    requires Consistent(t)
    ensures Consistent(OnConnect(t, now))
    ensures Consistent(OnDisconnectRefreshed(t))
    ensures Consistent(OnConnectError(t))
    ensures Consistent(OnTick(t))
    ensures Consistent(FallbackToPolling(t))
  {
  }

  /** As written, a disconnect after a live connection shows "Offline"
      although the polling timer is installed right after. */
  lemma DisconnectLeavesStaleBadge(t: Transport)
    requires Consistent(t) && t.isConnected
    ensures OnDisconnect(t).badge == Offline
    ensures OnDisconnect(t).interval.Some? && !BadgeCurrent(OnDisconnect(t))
  {
  }

  /** `n` consecutive connect_error events. */
  function ConnectErrors(t: Transport, n: nat): Transport
    decreases n
  {
    if n == 0 then t else ConnectErrors(OnConnectError(t), n - 1)
  }

  lemma {:induction false} ConnectErrorsCount(t: Transport, n: nat)
    ensures ConnectErrors(t, n).retries == t.retries + n
    ensures ConnectErrors(t, n).sent == t.sent
    decreases n
  {
    if n > 0 { ConnectErrorsCount(OnConnectError(t), n - 1); }
  }

  /** Before the limit, failures only count. */
  lemma {:induction false} ConnectErrorsBelowLimit(t: Transport, n: nat)
    requires t.retries + n < MaxRetries
    ensures ConnectErrors(t, n) == t.(retries := t.retries + n)
    decreases n
  {
    if n > 0 { ConnectErrorsBelowLimit(OnConnectError(t), n - 1); }
  }

  /** Once fallen back, further failures keep the client polling with no socket. */
  lemma {:induction false} ConnectErrorsStayFallenBack(t: Transport, n: nat)
    requires !t.isConnected && !t.hasSocket && t.interval.Some? && t.badge == Polling
    requires t.retries >= MaxRetries
    ensures var r := ConnectErrors(t, n);
      !r.isConnected && !r.hasSocket && r.interval == t.interval && r.badge == Polling
    decreases n
  {
    if n > 0 {
      assert OnConnectError(t).interval == t.interval;
      ConnectErrorsStayFallenBack(OnConnectError(t), n - 1);
    }
  }

  /** From a fresh retry count, MaxRetries consecutive failures leave the
      client polling: not connected, socket dropped, a timer installed and
      the badge saying so, whatever the state before. */
  lemma FallbackAfterMaxRetries(t: Transport)
    requires t.retries == 0
    ensures var r := ConnectErrors(t, MaxRetries);
      !r.isConnected && !r.hasSocket && r.interval.Some? && r.badge == Polling
      && r.retries == MaxRetries
  {
    ConnectErrorsBelowLimit(t, MaxRetries - 1);
    var s := ConnectErrors(t, MaxRetries - 1);
    assert ConnectErrors(s, 1) == OnConnectError(s);
    ConnectErrorsSplit(t, MaxRetries - 1, 1);
  }

  lemma {:induction false} ConnectErrorsSplit(t: Transport, m: nat, n: nat)
    ensures ConnectErrors(t, m + n) == ConnectErrors(ConnectErrors(t, m), n)
    decreases m
  {
    if m > 0 { ConnectErrorsSplit(OnConnectError(t), m - 1, n); }
  }

  /** Every later failure after the fallback keeps it. */
  lemma FallbackIsPermanent(t: Transport, extra: nat)
    requires t.retries == 0
    ensures var r := ConnectErrors(t, MaxRetries + extra);
      !r.isConnected && !r.hasSocket && r.interval.Some? && r.badge == Polling
  {
    FallbackAfterMaxRetries(t);
    ConnectErrorsSplit(t, MaxRetries, extra);
    ConnectErrorsCount(t, MaxRetries);
    ConnectErrorsStayFallenBack(ConnectErrors(t, MaxRetries), extra);
  }

  // =====================================================================
  // Snapshots and the page

  /** One counter object: a sub-field that is `undefined` is None. */
  datatype Statistics = Statistics(
    totalEvents: Option<int>,
    doorOpenEvents: Option<int>,
    doorCloseEvents: Option<int>,
    alarmEvents: Option<int>)

  /** The part of an uptime object the page shows as text. */
  datatype UptimeInfo = UptimeInfo(uptimeString: Option<string>)

  /** A `new_event` payload or a repackaged poll: every key may be missing. */
  datatype Snapshot = Snapshot(
    doorStatus: Option<string>,
    alarmStatus: Option<string>,
    statistics: Option<Statistics>,
    timerSet: Option<string>,
    uptime: Option<UptimeInfo>)

  /** The flat JSON of GET /api/dashboard. */
  datatype DashboardData = DashboardData(
    doorStatus: Option<string>,
    alarmStatus: Option<string>,
    timerSet: Option<string>,
    totalEvents: Option<int>,
    doorOpenEvents: Option<int>,
    doorCloseEvents: Option<int>,
    alarmEvents: Option<int>)

  datatype PollOutcome = Fetched(data: DashboardData) | NotOk(status: nat) | Failed

  datatype Indicator = Safe | Warning | Danger
  datatype HeroClass = Secure | Alert
  datatype Icon = Lock | Unlock

  datatype Element =
    DoorStatusEl | HeroEl | AlarmStatusEl | TotalEventsEl | DoorOpenEventsEl
    | DoorCloseEventsEl | AlarmEventsEl | TimerEl | UptimeEl

  /** What the page shows; `flashed` lists, in order, the elements given an
      update animation. */
  datatype View = View(
    doorText: string,
    doorBar: Indicator,
    heroClass: HeroClass,
    heroIcon: Icon,
    heroText: string,
    alarmText: string,
    alarmBar: Indicator,
    totalEvents: int,
    doorOpenEvents: int,
    doorCloseEvents: int,
    alarmEvents: int,
    timerText: string,
    uptimeText: string,
    lastUpdated: Option<int>,
    flashed: seq<Element>)

  /** JavaScript truthiness of an optional string. */
  predicate Truthy(s: Option<string>) { s.Some? && s.value != "" }

  /** The door panel's bar: safe only for exactly "Closed". */
  function DoorIndicator(status: string): (c: Indicator)
    ensures c == Safe <==> status == "Closed"
    ensures c != Danger
  {
    if status == "Closed" then Safe else Warning
  }

  /** The alarm panel's bar: safe only for exactly "Inactive". */
  function AlarmIndicator(status: string): (c: Indicator)
    ensures c == Safe <==> status == "Inactive"
    ensures c != Warning
  {
    if status == "Inactive" then Safe else Danger
  }

  function HeroText(status: string): (s: string)
    ensures |s| == 5 + |status| && s[..5] == "DOOR "
    ensures forall i :: 0 <= i < |status| ==> s[5 + i] == UpperChar(status[i])
  {
    "DOOR " + ToUpper(status)
  }

  /** updateDoorStatus followed by updateHeroDoorStatus. */
  function UpdateDoorStatus(v: View, status: string): (r: View)
    ensures r.doorText == status
    ensures r.doorBar == Safe <==> status == "Closed"
    ensures r.heroClass == Secure <==> status == "Closed"
    ensures r.heroIcon == Lock <==> status == "Closed"
    ensures r.heroText == HeroText(status)
    ensures r.flashed == v.flashed + [DoorStatusEl, HeroEl]
  {
    var secure := status == "Closed";
    v.(doorText := status,
       doorBar := DoorIndicator(status),
       heroClass := if secure then Secure else Alert,
       heroIcon := if secure then Lock else Unlock,
       heroText := HeroText(status),
       flashed := v.flashed + [DoorStatusEl, HeroEl])
  }

  function UpdateAlarmStatus(v: View, status: string): (r: View)
    ensures r.alarmText == status && (r.alarmBar == Safe <==> status == "Inactive")
    ensures r.flashed == v.flashed + [AlarmStatusEl]
  {
    v.(alarmText := status, alarmBar := AlarmIndicator(status),
       flashed := v.flashed + [AlarmStatusEl])
  }

  /** animateCounter as seen once its last frame has run: nothing when the
      displayed value already equals the target, else the target is shown
      and the element flashed. */
  function Counter(shown: int, target: Option<int>, el: Element, flashed: seq<Element>): (r: (int, seq<Element>))
    ensures target.None? ==> r == (shown, flashed)
    ensures target.Some? ==> r.0 == target.value
    ensures r.1 == if target.Some? && target.value != shown then flashed + [el] else flashed
  {
    if target.None? || target.value == shown then (shown, flashed) else (target.value, flashed + [el])
  }

  /** updateStatistics: every present sub-field drives its own counter. */
  function UpdateStatistics(v: View, s: Statistics): (r: View)
    ensures r.totalEvents == (if s.totalEvents.Some? then s.totalEvents.value else v.totalEvents)
    ensures r.doorOpenEvents == (if s.doorOpenEvents.Some? then s.doorOpenEvents.value else v.doorOpenEvents)
    ensures r.doorCloseEvents == (if s.doorCloseEvents.Some? then s.doorCloseEvents.value else v.doorCloseEvents)
    ensures r.alarmEvents == (if s.alarmEvents.Some? then s.alarmEvents.value else v.alarmEvents)
    ensures r == v.(totalEvents := r.totalEvents, doorOpenEvents := r.doorOpenEvents,
                    doorCloseEvents := r.doorCloseEvents, alarmEvents := r.alarmEvents,
                    flashed := r.flashed)
  {
    var a := Counter(v.totalEvents, s.totalEvents, TotalEventsEl, v.flashed);
    var b := Counter(v.doorOpenEvents, s.doorOpenEvents, DoorOpenEventsEl, a.1);
    var c := Counter(v.doorCloseEvents, s.doorCloseEvents, DoorCloseEventsEl, b.1);
    var d := Counter(v.alarmEvents, s.alarmEvents, AlarmEventsEl, c.1);
    v.(totalEvents := a.0, doorOpenEvents := b.0, doorCloseEvents := c.0, alarmEvents := d.0,
       flashed := d.1)
  }

  function UpdateTimer(v: View, timerValue: string): (r: View)
    ensures r.timerText == timerValue + "s" && r.flashed == v.flashed + [TimerEl]
  {
    v.(timerText := timerValue + "s", flashed := v.flashed + [TimerEl])
  }

  /** updateUptime: the text is rewritten, and flashed, only when a
      non-empty uptime string differs from what is shown. */
  function UpdateUptime(v: View, u: UptimeInfo): (r: View)
    ensures Truthy(u.uptimeString) ==> r.uptimeText == u.uptimeString.value
    ensures !Truthy(u.uptimeString) ==> r == v
    ensures r.flashed == if Truthy(u.uptimeString) && u.uptimeString.value != v.uptimeText
                         then v.flashed + [UptimeEl] else v.flashed
  {
    if Truthy(u.uptimeString) && u.uptimeString.value != v.uptimeText then
      v.(uptimeText := u.uptimeString.value, flashed := v.flashed + [UptimeEl])
    else v
  }

  /** processRealtimeUpdate: truthy door, alarm, statistics and uptime
      fields and a timer that is not undefined are applied, in that order;
      the "last updated" stamp is always refreshed. */
  function ProcessUpdate(v: View, s: Snapshot, now: int): View
  {
    ApplyUptime(ApplyTimer(ApplyStatistics(ApplyAlarm(ApplyDoor(v, s), s), s), s), s)
      .(lastUpdated := Some(now))
  }

  function ApplyDoor(v: View, s: Snapshot): View {
    if Truthy(s.doorStatus) then UpdateDoorStatus(v, s.doorStatus.value) else v
  }

  function ApplyAlarm(v: View, s: Snapshot): View {
    if Truthy(s.alarmStatus) then UpdateAlarmStatus(v, s.alarmStatus.value) else v
  }

  function ApplyStatistics(v: View, s: Snapshot): View {
    if s.statistics.Some? then UpdateStatistics(v, s.statistics.value) else v
  }

  function ApplyTimer(v: View, s: Snapshot): View {
    if s.timerSet.Some? then UpdateTimer(v, s.timerSet.value) else v
  }

  function ApplyUptime(v: View, s: Snapshot): View {
    if s.uptime.Some? then UpdateUptime(v, s.uptime.value) else v
  }

  /** The displayed values of a view, without the animation trace. */
  function Shown(v: View): View { v.(flashed := [], lastUpdated := None) }

  function Pick(x: Option<int>, current: int): int {
    if x.Some? then x.value else current
  }

  function StatsOf(s: Snapshot): Statistics {
    if s.statistics.Some? then s.statistics.value else Statistics(None, None, None, None)
  }

  predicate UptimeApplies(s: Snapshot) {
    s.uptime.Some? && Truthy(s.uptime.value.uptimeString)
  }

  /** Field by field, what the page shows after a snapshot: a field absent
      from the snapshot (or falsy where truthiness decides) keeps what was
      shown; a present one sets its element. */
  function ExpectedShown(v: View, s: Snapshot): View {
    var door := Truthy(s.doorStatus);
    var ds := if door then s.doorStatus.value else "";
    var alarm := Truthy(s.alarmStatus);
    var as_ := if alarm then s.alarmStatus.value else "";
    var st := StatsOf(s);
    View(
      if door then ds else v.doorText,
      if door then (if ds == "Closed" then Safe else Warning) else v.doorBar,
      if door then (if ds == "Closed" then Secure else Alert) else v.heroClass,
      if door then (if ds == "Closed" then Lock else Unlock) else v.heroIcon,
      if door then HeroText(ds) else v.heroText,
      if alarm then as_ else v.alarmText,
      if alarm then (if as_ == "Inactive" then Safe else Danger) else v.alarmBar,
      Pick(st.totalEvents, v.totalEvents),
      Pick(st.doorOpenEvents, v.doorOpenEvents),
      Pick(st.doorCloseEvents, v.doorCloseEvents),
      Pick(st.alarmEvents, v.alarmEvents),
      if s.timerSet.Some? then s.timerSet.value + "s" else v.timerText,
      if UptimeApplies(s) then s.uptime.value.uptimeString.value else v.uptimeText,
      None, [])
  }

  function CounterFlash(target: Option<int>, shown: int, el: Element): seq<Element> {
    if target.Some? && target.value != shown then [el] else []
  }

  function DoorFlash(s: Snapshot): seq<Element> {
    if Truthy(s.doorStatus) then [DoorStatusEl, HeroEl] else []
  }

  function AlarmFlash(s: Snapshot): seq<Element> {
    if Truthy(s.alarmStatus) then [AlarmStatusEl] else []
  }

  function StatsFlash(v: View, s: Snapshot): seq<Element> {
    var st := StatsOf(s);
    CounterFlash(st.totalEvents, v.totalEvents, TotalEventsEl)
    + CounterFlash(st.doorOpenEvents, v.doorOpenEvents, DoorOpenEventsEl)
    + CounterFlash(st.doorCloseEvents, v.doorCloseEvents, DoorCloseEventsEl)
    + CounterFlash(st.alarmEvents, v.alarmEvents, AlarmEventsEl)
  }

  function TimerFlash(s: Snapshot): seq<Element> {
    if s.timerSet.Some? then [TimerEl] else []
  }

  function UptimeFlash(v: View, s: Snapshot): seq<Element> {
    if UptimeApplies(s) && s.uptime.value.uptimeString.value != v.uptimeText then [UptimeEl] else []
  }

  /** The elements a snapshot animates, in order: door and hero, alarm,
      each counter whose value changes, the timer, and the uptime text when
      it changes. */
  function FlashTrace(v: View, s: Snapshot): seq<Element> {
    DoorFlash(s) + AlarmFlash(s) + StatsFlash(v, s) + TimerFlash(s) + UptimeFlash(v, s)
  }

  /** processRealtimeUpdate shows exactly the field-by-field expectation,
      animates exactly the flash trace, and stamps the update time. */
  lemma ProcessUpdateMeaning(v: View, s: Snapshot, now: int)
    ensures Shown(ProcessUpdate(v, s, now)) == ExpectedShown(v, s)
    ensures ProcessUpdate(v, s, now).flashed == v.flashed + FlashTrace(v, s)
    ensures ProcessUpdate(v, s, now).lastUpdated == Some(now)
  {
    ProcessUpdateShown(v, s, now);
    ProcessUpdateFlashed(v, s, now);
  }

  lemma ProcessUpdateShown(v: View, s: Snapshot, now: int)
    ensures Shown(ProcessUpdate(v, s, now)) == ExpectedShown(v, s)
  {
    var v2 := ApplyAlarm(ApplyDoor(v, s), s);
    var v3 := ApplyStatistics(v2, s);
    var v4 := ApplyTimer(v3, s);
    var v5 := ApplyUptime(v4, s);
    var e := ExpectedShown(v, s);
    FrontShown(v, s);
    BackKeepsFront(v2, s);
    FrontSteps(v, s);
    StatisticsShown(v2, s);
    StatisticsStep(v2, s);
    TailShown(v3, s);
    ShownByFields(ProcessUpdate(v, s, now), e);
  }

  /** The statistics step sets each counter the snapshot carries. */
  lemma StatisticsShown(w: View, s: Snapshot)
    ensures var x, st := ApplyStatistics(w, s), StatsOf(s);
      && x.totalEvents == Pick(st.totalEvents, w.totalEvents)
      && x.doorOpenEvents == Pick(st.doorOpenEvents, w.doorOpenEvents)
      && x.doorCloseEvents == Pick(st.doorCloseEvents, w.doorCloseEvents)
      && x.alarmEvents == Pick(st.alarmEvents, w.alarmEvents)
  {
  }

  /** The timer and uptime steps set their texts and keep the counters. */
  lemma TailShown(w: View, s: Snapshot)
    ensures var x := ApplyUptime(ApplyTimer(w, s), s);
      && x.timerText == (if s.timerSet.Some? then s.timerSet.value + "s" else w.timerText)
      && x.uptimeText == (if UptimeApplies(s) then s.uptime.value.uptimeString.value else w.uptimeText)
      && x.totalEvents == w.totalEvents && x.doorOpenEvents == w.doorOpenEvents
      && x.doorCloseEvents == w.doorCloseEvents && x.alarmEvents == w.alarmEvents
  {
  }

  /** Statistics, timer and uptime leave the door, hero and alarm fields. */
  lemma BackKeepsFront(w: View, s: Snapshot)
    ensures var x := ApplyUptime(ApplyTimer(ApplyStatistics(w, s), s), s);
      && x.doorText == w.doorText && x.doorBar == w.doorBar && x.heroClass == w.heroClass
      && x.heroIcon == w.heroIcon && x.heroText == w.heroText
      && x.alarmText == w.alarmText && x.alarmBar == w.alarmBar
  {
  }

  /** Two views show the same when their displayed fields agree. */
  lemma ShownByFields(a: View, e: View)
    requires e.flashed == [] && e.lastUpdated.None?
    requires a.doorText == e.doorText && a.doorBar == e.doorBar && a.heroClass == e.heroClass
      && a.heroIcon == e.heroIcon && a.heroText == e.heroText
      && a.alarmText == e.alarmText && a.alarmBar == e.alarmBar
      && a.totalEvents == e.totalEvents && a.doorOpenEvents == e.doorOpenEvents
      && a.doorCloseEvents == e.doorCloseEvents && a.alarmEvents == e.alarmEvents
      && a.timerText == e.timerText && a.uptimeText == e.uptimeText
    ensures Shown(a) == e
  {
  }

  /** The door and alarm steps set the door, hero and alarm fields. */
  lemma FrontShown(v: View, s: Snapshot)
    ensures var v2, e := ApplyAlarm(ApplyDoor(v, s), s), ExpectedShown(v, s);
      && v2.doorText == e.doorText && v2.doorBar == e.doorBar && v2.heroClass == e.heroClass
      && v2.heroIcon == e.heroIcon && v2.heroText == e.heroText
      && v2.alarmText == e.alarmText && v2.alarmBar == e.alarmBar
  {
  }

  lemma ProcessUpdateFlashed(v: View, s: Snapshot, now: int)
    ensures ProcessUpdate(v, s, now).flashed == v.flashed + FlashTrace(v, s)
  {
    var v1 := ApplyDoor(v, s);
    var v2 := ApplyAlarm(v1, s);
    var v3 := ApplyStatistics(v2, s);
    var v4 := ApplyTimer(v3, s);
    FrontSteps(v, s);
    StatisticsStep(v2, s);
    TimerStep(v3, s);
    UptimeStep(v4, s);
    var d, a, c, t, u := DoorFlash(s), AlarmFlash(s), StatsFlash(v, s), TimerFlash(s), UptimeFlash(v, s);
    assert StatsFlash(v2, s) == c && UptimeFlash(v4, s) == u;
    var v5 := ApplyUptime(v4, s);
    assert v5.flashed == v.flashed + d + a + c + t + u;
    assert ProcessUpdate(v, s, now).flashed == v5.flashed;
    ConcatAssoc(v.flashed, d, a, c, t, u);
    assert FlashTrace(v, s) == d + a + c + t + u;
  }

  lemma ConcatAssoc<T>(x: seq<T>, d: seq<T>, a: seq<T>, c: seq<T>, t: seq<T>, u: seq<T>)
    ensures x + d + a + c + t + u == x + (d + a + c + t + u)
  {
  }

  /** Door and alarm steps flash their elements and leave counters and uptime alone. */
  lemma FrontSteps(v: View, s: Snapshot)
    ensures var w := ApplyAlarm(ApplyDoor(v, s), s);
      && w.flashed == v.flashed + DoorFlash(s) + AlarmFlash(s)
      && w.totalEvents == v.totalEvents && w.doorOpenEvents == v.doorOpenEvents
      && w.doorCloseEvents == v.doorCloseEvents && w.alarmEvents == v.alarmEvents
      && w.uptimeText == v.uptimeText
  {
  }

  lemma StatisticsStep(v: View, s: Snapshot)
    ensures ApplyStatistics(v, s).flashed == v.flashed + StatsFlash(v, s)
    ensures ApplyStatistics(v, s).uptimeText == v.uptimeText
  {
    if s.statistics.Some? {
      StatisticsFlashed(v, s.statistics.value);
    }
  }

  lemma TimerStep(v: View, s: Snapshot)
    ensures ApplyTimer(v, s).flashed == v.flashed + TimerFlash(s)
    ensures ApplyTimer(v, s).uptimeText == v.uptimeText
  {
  }

  lemma UptimeStep(v: View, s: Snapshot)
    ensures ApplyUptime(v, s).flashed == v.flashed + UptimeFlash(v, s)
  {
  }

  lemma StatisticsFlashed(v: View, st: Statistics)
    ensures UpdateStatistics(v, st).flashed == v.flashed
      + CounterFlash(st.totalEvents, v.totalEvents, TotalEventsEl)
      + CounterFlash(st.doorOpenEvents, v.doorOpenEvents, DoorOpenEventsEl)
      + CounterFlash(st.doorCloseEvents, v.doorCloseEvents, DoorCloseEventsEl)
      + CounterFlash(st.alarmEvents, v.alarmEvents, AlarmEventsEl)
  {
  }

  /** What a snapshot shows does not depend on what was shown for the
      fields it carries, so a second application changes nothing shown. */
  lemma ExpectedShownIdempotent(v: View, s: Snapshot)
    ensures ExpectedShown(ExpectedShown(v, s), s) == ExpectedShown(v, s)
  {
  }

  lemma ExpectedShownOnlyShown(v: View, w: View, s: Snapshot)
    requires Shown(v) == Shown(w)
    ensures ExpectedShown(v, s) == ExpectedShown(w, s) && FlashTrace(v, s) == FlashTrace(w, s)
  {
    assert v.totalEvents == w.totalEvents && v.uptimeText == w.uptimeText;
  }

  /** Applying one snapshot twice shows the same page as applying it once,
      and the second application animates no counter and no uptime text;
      door, alarm and timer elements are flashed again on every update. */
  lemma ProcessUpdateTwice(v: View, s: Snapshot, now: int, later: int)
    ensures var once := ProcessUpdate(v, s, now);
      var twice := ProcessUpdate(once, s, later);
      && Shown(twice) == Shown(once)
      && twice.flashed == once.flashed + DoorFlash(s) + AlarmFlash(s) + TimerFlash(s)
  {
    var once := ProcessUpdate(v, s, now);
    ProcessUpdateMeaning(v, s, now);
    ProcessUpdateMeaning(once, s, later);
    ExpectedShownOnlyShown(once, ExpectedShown(v, s), s);
    ExpectedShownIdempotent(v, s);
    var e := ExpectedShown(v, s);
    var st := StatsOf(s);
    assert CounterFlash(st.totalEvents, e.totalEvents, TotalEventsEl) == [];
    assert CounterFlash(st.doorOpenEvents, e.doorOpenEvents, DoorOpenEventsEl) == [];
    assert CounterFlash(st.doorCloseEvents, e.doorCloseEvents, DoorCloseEventsEl) == [];
    assert CounterFlash(st.alarmEvents, e.alarmEvents, AlarmEventsEl) == [];
    assert StatsFlash(e, s) == [] && UptimeFlash(e, s) == [];
  }

  /** pollForUpdates: the flat counters become one statistics object;
      uptime is never carried. */
  function Repackage(d: DashboardData): (s: Snapshot)
    ensures s.statistics.Some? && s.uptime.None?
    ensures s.doorStatus == d.doorStatus && s.alarmStatus == d.alarmStatus && s.timerSet == d.timerSet
    ensures s.statistics.value == Statistics(d.totalEvents, d.doorOpenEvents, d.doorCloseEvents, d.alarmEvents)
  {
    Snapshot(d.doorStatus, d.alarmStatus,
             Some(Statistics(d.totalEvents, d.doorOpenEvents, d.doorCloseEvents, d.alarmEvents)),
             d.timerSet, None)
  }

  /** The continuation of pollForUpdates once fetch settles: only an ok
      response changes the page. */
  function OnPollResponse(v: View, outcome: PollOutcome, now: int): (r: View)
    ensures !outcome.Fetched? ==> r == v
    ensures outcome.Fetched? ==> r == ProcessUpdate(v, Repackage(outcome.data), now)
  {
    if outcome.Fetched? then ProcessUpdate(v, Repackage(outcome.data), now) else v
  }

  /** A poll never changes the uptime text. */
  lemma PollKeepsUptime(v: View, outcome: PollOutcome, now: int)
    ensures OnPollResponse(v, outcome, now).uptimeText == v.uptimeText
  {
  }

  /** The scenario of a push event carrying only an open door and ten
      events: the door panel turns to warning, the counter reads 10, and
      alarm, timer and uptime are untouched. */
  lemma OpenDoorEventScenario(v: View, now: int)
    requires v.totalEvents != 10
    ensures var r := ProcessUpdate(v, Snapshot(Some("Open"), None,
                         Some(Statistics(Some(10), None, None, None)), None, None), now);
      && r.doorText == "Open" && r.doorBar == Warning && r.heroClass == Alert && r.heroIcon == Unlock
      && r.heroText == "DOOR OPEN"
      && r.totalEvents == 10
      && r.alarmText == v.alarmText && r.alarmBar == v.alarmBar
      && r.timerText == v.timerText && r.uptimeText == v.uptimeText
      && r.flashed == v.flashed + [DoorStatusEl, HeroEl, TotalEventsEl]
  {
    assert HeroText("Open") == "DOOR OPEN";
  }

  // =====================================================================
  // Counter animation

  /** The easing, in exact arithmetic over whole milliseconds: progress
      is min(elapsed / 500, 1) and the eased progress p * (2 - p) equals
      EaseNumerator(elapsed) / Scale. The elapsed time is negative when a
      frame's timestamp precedes the start time taken before the first
      request; progress and eased progress are then negative too. */
  const Scale: nat := AnimationDuration * AnimationDuration

  /** Elapsed time capped at the duration (progress capped at 1). */
  function Clamp(elapsed: int): int { if elapsed >= AnimationDuration then AnimationDuration else elapsed }

  function EaseNumerator(elapsed: int): int {
    var e := Clamp(elapsed);
    e * (2 * AnimationDuration - e)
  }

  lemma EaseNumeratorBounds(elapsed: int)
    ensures elapsed >= 0 ==> 0 <= EaseNumerator(elapsed) <= Scale
    ensures elapsed < 0 ==> EaseNumerator(elapsed) < 0
    ensures EaseNumerator(elapsed) == Scale <==> elapsed >= AnimationDuration
  {
    var e := Clamp(elapsed);
    var g := AnimationDuration - e;
    assert EaseNumerator(elapsed) == Scale - g * g;
    if g > 0 { assert g * g > 0; }
    if elapsed < 0 {
      assert e < 0 && 2 * AnimationDuration - e > 0;
      NegativeTimesPositive(e, 2 * AnimationDuration - e);
    }
  }

  lemma NegativeTimesPositive(a: int, b: int)
    requires a < 0 < b
    ensures a * b < 0
  {
  }

  lemma EaseNumeratorMonotone(e1: int, e2: int)
    requires e1 <= e2
    ensures EaseNumerator(e1) <= EaseNumerator(e2)
  {
    var a, b := Clamp(e1), Clamp(e2);
    assert EaseNumerator(e2) - EaseNumerator(e1) == (b - a) * (2 * AnimationDuration - a - b);
    assert (b - a) * (2 * AnimationDuration - a - b) >= 0;
  }

  /** Math.round(start + (target - start) * eased), halves rounding up:
      the value written on a frame `elapsed` ms after the animation began. */
  function FrameValue(start: int, target: int, elapsed: int): int {
    (Scale * start + (target - start) * EaseNumerator(elapsed) + Scale / 2) / Scale
  }

  lemma RoundedScaled(k: int)
    ensures (Scale * k + Scale / 2) / Scale == k
  {
  }

  lemma DivMonotone(a: int, b: int)
    requires a <= b
    ensures a / Scale <= b / Scale
  {
  }

  lemma ScaledBetween(d: int, n: int)
    requires 0 <= n <= Scale
    ensures d >= 0 ==> 0 <= d * n <= d * Scale
    ensures d <= 0 ==> d * Scale <= d * n <= 0
  {
  }

  predicate Between(x: int, a: int, b: int) {
      (a <= b && a <= x <= b) || (b <= a && b <= x <= a)
  }

  /** Every frame at a non-negative elapsed time shows a value between the
      start and the target, and a frame at or after the duration shows the
      target. A frame stamped before the start time moves away from the
      target instead (FrameBeforeStart). */
  lemma FrameValueBetween(start: int, target: int, elapsed: int)
      ensures elapsed >= 0 ==> Between(FrameValue(start, target, elapsed), start, target)
      ensures elapsed >= AnimationDuration ==> FrameValue(start, target, elapsed) == target
      ensures elapsed < 0 ==> Between(start, FrameValue(start, target, elapsed), target)
  {
      var n := EaseNumerator(elapsed);
      EaseNumeratorBounds(elapsed);
      var d := target - start;
      if elapsed < 0 {
        RoundedMonotone(start, d, n, 0);
        RoundedMonotone(start, d, 0, Scale);
        RoundedScaled(start);
        assert Scale * target == Scale * start + d * Scale;
        RoundedScaled(target);
        return;
      }
      ScaledBetween(d, n);
      var x := Scale * start + d * n + Scale / 2;
      var lo := Scale * start + Scale / 2;
      var hi := Scale * target + Scale / 2;
      assert Scale * target == Scale * start + d * Scale;
      RoundedScaled(start);
      RoundedScaled(target);
      if d >= 0 {
        DivMonotone(lo, x);
        DivMonotone(x, hi);
      } else {
        DivMonotone(hi, x);
        DivMonotone(x, lo);
      }
  }

  /** Later frames never move back toward the start. */
  lemma FrameValueMonotone(start: int, target: int, e1: int, e2: int)
      requires e1 <= e2
      ensures start <= target ==> FrameValue(start, target, e1) <= FrameValue(start, target, e2)
      ensures target <= start ==> FrameValue(start, target, e2) <= FrameValue(start, target, e1)
  {
      EaseNumeratorMonotone(e1, e2);
      RoundedMonotone(start, target - start, EaseNumerator(e1), EaseNumerator(e2));
  }

  /** A frame stamped 5 ms before the start of a count from 0 to 1000
      writes -20: Math.round(1000 * (-0.01 * 2.01)) = Math.round(-20.1). */
  lemma FrameBeforeStart()
    ensures FrameValue(0, 1000, -5) == -20
  {
    assert EaseNumerator(-5) == -5025;
  }

  /** A larger eased numerator moves the rounded value further toward the
      target, whichever side the target is on. */
  lemma RoundedMonotone(start: int, d: int, n1: int, n2: int)
      requires n1 <= n2
      ensures d >= 0 ==> (Scale * start + d * n1 + Scale / 2) / Scale <= (Scale * start + d * n2 + Scale / 2) / Scale
      ensures d <= 0 ==> (Scale * start + d * n2 + Scale / 2) / Scale <= (Scale * start + d * n1 + Scale / 2) / Scale
  {
      var x1 := Scale * start + d * n1 + Scale / 2;
      var x2 := Scale * start + d * n2 + Scale / 2;
      assert d * n2 - d * n1 == d * (n2 - n1);
      if d >= 0 {
        assert d * (n2 - n1) >= 0;
        DivMonotone(x1, x2);
      } else {
        assert d * (n2 - n1) <= 0;
        DivMonotone(x2, x1);
      }
  }

  /** animateCounter driven by the frame callbacks that arrive at the given
      elapsed times: returns the values written to the element in order and
      whether the animation reached its last frame. */
  method AnimateCounter(start: int, target: int, frameTimes: seq<int>)
    returns (writes: seq<int>, finished: bool)
    ensures start == target ==> writes == [] && !finished
    ensures finished <==> start != target && exists i :: 0 <= i < |frameTimes| && frameTimes[i] >= AnimationDuration
    ensures finished ==> 2 <= |writes| <= |frameTimes| + 1 && writes[|writes| - 1] == target
    ensures finished ==> frameTimes[|writes| - 2] >= AnimationDuration
    ensures start != target && !finished ==> |writes| == |frameTimes|
    ensures forall i :: 0 <= i < |writes| && (i < |writes| - 1 || !finished) ==>
      i < |frameTimes| && writes[i] == FrameValue(start, target, frameTimes[i])
    ensures forall i :: 0 <= i < |writes| - 2 ==> frameTimes[i] < AnimationDuration
    ensures forall i :: 0 <= i < |writes| && i < |frameTimes| && frameTimes[i] >= 0 && (i < |writes| - 1 || !finished) ==>
      Between(writes[i], start, target)
    ensures forall i :: 0 <= i < |writes| && i < |frameTimes| && frameTimes[i] < 0 && (i < |writes| - 1 || !finished) ==>
      Between(start, writes[i], target)
  {
    writes, finished := [], false;
    if start == target { return; }
    var i := 0;
    while i < |frameTimes|
      invariant 0 <= i <= |frameTimes| && |writes| == i
      invariant forall k :: 0 <= k < i ==> frameTimes[k] < AnimationDuration
      invariant forall k :: 0 <= k < i ==> writes[k] == FrameValue(start, target, frameTimes[k])
      invariant forall k :: 0 <= k < i && frameTimes[k] >= 0 ==> Between(writes[k], start, target)
      invariant forall k :: 0 <= k < i && frameTimes[k] < 0 ==> Between(start, writes[k], target)
    {
      var current := FrameValue(start, target, frameTimes[i]);
      FrameValueBetween(start, target, frameTimes[i]);
      writes := writes + [current];
      if Clamp(frameTimes[i]) == AnimationDuration {
        writes := writes + [target];
        finished := true;
        return;
      }
      i := i + 1;
    }
  }

  // =====================================================================
  // The object

  /** One DashboardRealTime instance together with the page it draws. */
  class DashboardRealTime {
    var hasSocket: bool
    var isConnected: bool
    var updateInterval: Option<Timer>
    var connectionRetries: nat
    var badge: Badge
    var sent: seq<Outbound>
    var fetches: nat
    var nextTimer: nat
    var view: View

    function State(): Transport
      reads this
    {
      Transport(hasSocket, isConnected, updateInterval, connectionRetries, badge, sent, fetches, nextTimer)
    }

    method SetState(t: Transport)
      modifies this
      ensures State() == t && view == old(view)
    {
      hasSocket, isConnected, updateInterval, connectionRetries := t.hasSocket, t.isConnected, t.interval, t.retries;
      badge, sent, fetches, nextTimer := t.badge, t.sent, t.fetches, t.nextTimer;
    }

    constructor (ioLoaded: bool, page: View)
      ensures State() == Initialize(ioLoaded) && view == page
    {
      var t := Initialize(ioLoaded);
      hasSocket, isConnected, updateInterval, connectionRetries := t.hasSocket, t.isConnected, t.interval, t.retries;
      badge, sent, fetches, nextTimer := t.badge, t.sent, t.fetches, t.nextTimer;
      view := page;
    }

    method StartPollingTimer()
      modifies this
      ensures State() == StartPolling(old(State())) && view == old(view)
    {
      if updateInterval.Some? { return; }
      updateInterval := Some(Timer(nextTimer, PollingRate));
      nextTimer := nextTimer + 1;
      fetches := fetches + 1;
    }

    method StopPollingTimer()
      modifies this
      ensures State() == StopPolling(old(State())) && view == old(view)
    {
      if updateInterval.Some? {
        updateInterval := None;
      }
    }

    method UpdateConnectionIndicator()
      modifies this
      ensures State() == RefreshBadge(old(State())) && view == old(view)
    {
      badge := BadgeFor(isConnected, updateInterval);
    }

    method HandleConnect(now: int)
      modifies this
      ensures State() == OnConnect(old(State()), now) && view == old(view)
    {
      isConnected := true;
      connectionRetries := 0;
      StopPollingTimer();
      UpdateConnectionIndicator();
      if hasSocket {
        sent := sent + [ClientReady(DashboardPage, now)];
      }
    }

    method HandleDisconnect()
      modifies this
      ensures State() == OnDisconnect(old(State())) && view == old(view)
    {
      isConnected := false;
      UpdateConnectionIndicator();
      StartPollingTimer();
    }

    method Fallback()
      modifies this
      ensures State() == FallbackToPolling(old(State())) && view == old(view)
    {
      isConnected := false;
      hasSocket := false;
      StartPollingTimer();
      UpdateConnectionIndicator();
    }

    method HandleConnectError()
      modifies this
      ensures State() == OnConnectError(old(State())) && view == old(view)
    {
      connectionRetries := connectionRetries + 1;
      if connectionRetries >= MaxRetries {
        Fallback();
      }
    }

    method HandleTick()
      modifies this
      ensures State() == OnTick(old(State())) && view == old(view)
    {
      if updateInterval.Some? {
        fetches := fetches + 1;
      }
    }

    method HandleNewEvent(s: Snapshot, now: int)
      modifies this
      ensures view == ProcessUpdate(old(view), s, now) && State() == old(State())
    {
      view := ProcessUpdate(view, s, now);
    }

    method HandlePollResponse(outcome: PollOutcome, now: int)
      modifies this
      ensures view == OnPollResponse(old(view), outcome, now) && State() == old(State())
    {
      match outcome {
        case Fetched(data) => view := ProcessUpdate(view, Repackage(data), now);
        case NotOk(_) =>
        case Failed =>
      }
    }

    method Status() returns (s: TransportStatus)
      ensures s.websocket == isConnected && s.polling == updateInterval.Some?
      ensures s.retries == connectionRetries
    {
      s := TransportStatus(isConnected, updateInterval.Some?, connectionRetries);
    }
  }
}
