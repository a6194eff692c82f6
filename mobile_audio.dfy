/** The alarm sound manager of mobile-audio.js: playing a ringtone,
    stopping every alarm, the vibration interval, the alarm notifications,
    and whether a triggered alarm is sounding.

    Audio elements are the entries of the ringtone table, and the current
    audio names the entry it is, so that changing one changes the other as
    in the browser. What the browser decides (whether play() succeeds,
    whether notifications are granted, whether vibration exists) is a
    parameter. */
module MobileAudio {
  import opened Common

  /** The state of one audio element: playing or paused, its position in
      milliseconds, whether it loops, its volume in percent. */
  datatype Clip = Clip(url: string, playing: bool, position: nat, loop: bool, volume: nat)

  /** pause(), currentTime = 0, loop = false. */
  function Silenced(c: Clip): (r: Clip)
    ensures !r.playing && r.position == 0 && !r.loop && r.url == c.url && r.volume == c.volume
  {
    c.(playing := false, position := 0, loop := false)
  }

  function SilenceAll(ringtones: map<string, Clip>): (r: map<string, Clip>)
    ensures r.Keys == ringtones.Keys
    ensures forall k :: k in r ==> r[k] == Silenced(ringtones[k])
  {
    map k | k in ringtones :: Silenced(ringtones[k])
  }

  /** Silencing one clip before silencing them all changes nothing. */
  lemma SilenceFirst(ringtones: map<string, Clip>, key: string)
    requires key in ringtones
    ensures SilenceAll(ringtones[key := Silenced(ringtones[key])]) == SilenceAll(ringtones)
  {
    assert SilenceAll(ringtones[key := Silenced(ringtones[key])]).Keys == SilenceAll(ringtones).Keys;
  }

  /** The five ringtones as loaded: preloaded and looping. */
  function LoadedRingtones(): (r: map<string, Clip>)
    ensures "default" in r
  {
    map[
      "default" := Clip("/static/audio/alarm_default.wav", false, 0, true, 100),
      "urgent" := Clip("/static/audio/alarm_urgent.wav", false, 0, true, 100),
      "gentle" := Clip("/static/audio/alarm_gentle.wav", false, 0, true, 100),
      "classic" := Clip("/static/audio/alarm_classic.wav", false, 0, true, 100),
      "siren" := Clip("/static/audio/alarm_siren.wav", false, 0, true, 100)]
  }

  /** A notification shown for an alarm. */
  datatype Notice = Notice(id: nat, body: string)

  /** What the browser allows or does. */
  datatype Browser = Browser(notificationsGranted: bool, canVibrate: bool, playSucceeds: bool)

  datatype AudioState = AudioState(
    ringtones: map<string, Clip>,
    isPlaying: bool,
    currentAudio: Option<string>,
    isAlarmTriggered: bool,
    vibrationEnabled: bool,
    vibrationInterval: bool,
    autoStopTimeout: Option<int>,
    wakeLock: bool,
    activeNotifications: seq<Notice>,
    closedNotifications: seq<Notice>,
    nextNotice: nat)

  function Initial(): AudioState {
    AudioState(LoadedRingtones(), false, None, false, true, false, None, false, [], [], 0)
  }

  /** hasActiveTriggeredAlarm. */
  predicate HasActiveTriggeredAlarm(s: AudioState) {
    s.isPlaying && s.isAlarmTriggered
  }

  /** stopAlarm: every audio element paused and rewound with its loop off,
      no current audio, no vibration interval, no auto-stop timer, no
      wake lock, and every tracked notification closed and forgotten. */
  function StopSpec(s: AudioState): (r: AudioState)
    ensures r.ringtones.Keys == s.ringtones.Keys
    ensures forall k :: k in r.ringtones ==> !r.ringtones[k].playing
  {
    ClosedNotices(ClearedFlags(s.(ringtones := SilenceAll(s.ringtones), currentAudio := None)))
  }

  /** Nothing plays, is triggered, vibrates, waits to stop or holds the
      screen awake. */
  function ClearedFlags(s: AudioState): AudioState {
    s.(isPlaying := false, isAlarmTriggered := false, vibrationInterval := false, autoStopTimeout := None,
       wakeLock := false)
  }

  /** closeAllNotifications: every tracked notification closed and forgotten. */
  function ClosedNotices(s: AudioState): AudioState {
    s.(activeNotifications := [], closedNotifications := s.closedNotifications + s.activeNotifications)
  }

  /** showAlarmNotification: only with permission. */
  function ShowNotice(s: AudioState, ringtoneType: string, b: Browser): (r: AudioState)
    ensures b.notificationsGranted ==> r.activeNotifications == s.activeNotifications + [Notice(s.nextNotice, AlarmBody(ringtoneType))]
    ensures !b.notificationsGranted ==> r == s
    ensures r.(activeNotifications := s.activeNotifications, nextNotice := s.nextNotice) == s
  {
    if b.notificationsGranted then
      s.(activeNotifications := s.activeNotifications + [Notice(s.nextNotice, AlarmBody(ringtoneType))],
         nextNotice := s.nextNotice + 1)
    else s
  }

  function AlarmBody(ringtoneType: string): string {
    "Door security breach detected! Alarm type: " + ringtoneType
  }

  /** startVibration: a repeating vibration only for a looping clip. */
  function StartVibration(s: AudioState, b: Browser): (r: AudioState)
    ensures r.(vibrationInterval := s.vibrationInterval) == s
    ensures r.vibrationInterval <==> (s.vibrationInterval || (b.canVibrate && s.vibrationEnabled && s.currentAudio.Some?
      && s.currentAudio.value in s.ringtones && s.ringtones[s.currentAudio.value].loop))
  {
    if s.vibrationEnabled && b.canVibrate && s.currentAudio.Some? && s.currentAudio.value in s.ringtones
       && s.ringtones[s.currentAudio.value].loop
    then s.(vibrationInterval := true)
    else s
  }

  /** What playAlarmRingtone resolves to: undefined when there is no
      clip, true when playing, false when play() was refused. */
  datatype PlayOutcome = NoRingtone | Played | Refused

  const LoopThreshold: int := 5000

  /** The clip a ringtone name plays: its own, or the default one. */
  function ClipKey(ringtones: map<string, Clip>, ringtoneType: string): string {
    if ringtoneType in ringtones then ringtoneType else "default"
  }

  /** The stop playAlarmRingtone makes first when an alarm is sounding. */
  function Quieted(s: AudioState): AudioState {
    if s.isPlaying then StopSpec(s) else s
  }

  /** The chosen clip at full volume, looping for long alarms, and the
      triggered flag set, before play() is asked for. */
  function Prepared(s: AudioState, key: string, duration: int, triggered: bool): AudioState
    requires key in s.ringtones
  {
    var clip := s.ringtones[key].(volume := 100, loop := duration >= LoopThreshold);
    s.(ringtones := s.ringtones[key := clip], isAlarmTriggered := triggered)
  }

  /** A clip that started: it is the current audio, vibration starts,
      the notification shows, and the auto-stop timer is set. */
  function Started(s: AudioState, key: string, ringtoneType: string, duration: int, b: Browser): AudioState
    requires key in s.ringtones
  {
    AutoStop(ShowNotice(StartVibration(Launched(s, key), b), ringtoneType, b), duration)
  }

  /** The clip under `key` plays and becomes the current audio. */
  function Launched(s: AudioState, key: string): AudioState
    requires key in s.ringtones
  {
    s.(ringtones := s.ringtones[key := s.ringtones[key].(playing := true)], currentAudio := Some(key), isPlaying := true)
  }

  /** The auto-stop timer is armed for `duration` milliseconds. */
  function AutoStop(s: AudioState, duration: int): AudioState {
    s.(autoStopTimeout := Some(duration))
  }

  /** playAlarmRingtone(ringtoneType, duration, isTriggeredAlarm). */
  function PlaySpec(s: AudioState, ringtoneType: string, duration: int, triggered: bool, b: Browser)
    : (r: (AudioState, PlayOutcome))
    ensures r.0.ringtones.Keys == s.ringtones.Keys
    ensures r.1 != Played ==> !r.0.isPlaying
  {
    var s1 := Quieted(s);
    var key := ClipKey(s1.ringtones, ringtoneType);
    if key !in s1.ringtones then (s1, NoRingtone)
    else
      var s2 := Prepared(s1, key, duration, triggered);
      if !b.playSucceeds then (ShowNotice(s2, ringtoneType, b), Refused)
      else (Started(s2, key, ringtoneType, duration, b), Played)
  }

  // =====================================================================
  // Properties

  /** After a stop nothing sounds, vibrates or waits to stop, no triggered
      alarm is active, and every notification that was open is closed. */
  lemma StopLeavesQuiet(s: AudioState)
    ensures var r := StopSpec(s);
      && !HasActiveTriggeredAlarm(r) && !r.isPlaying && r.currentAudio.None?
      && !r.vibrationInterval && r.autoStopTimeout.None? && r.activeNotifications == []
      && (forall k :: k in r.ringtones ==> !r.ringtones[k].playing && !r.ringtones[k].loop)
      && r.ringtones.Keys == s.ringtones.Keys
      && r.closedNotifications == s.closedNotifications + s.activeNotifications
  {
  }

  /** Stopping twice is stopping once. */
  lemma StopIdempotent(s: AudioState)
    ensures StopSpec(StopSpec(s)) == StopSpec(s)
  {
    var once := StopSpec(s);
    assert SilenceAll(once.ringtones) == once.ringtones;
    assert once.closedNotifications + [] == once.closedNotifications;
  }

  /** At most one clip sounds, and it is the current audio exactly while
      an alarm is playing. */
  predicate Valid(s: AudioState) {
    && (s.isPlaying <==> s.currentAudio.Some?)
    && (s.currentAudio.Some? ==> s.currentAudio.value in s.ringtones)
    && (forall k :: k in s.ringtones && s.ringtones[k].playing ==> s.currentAudio == Some(k))
  }

  lemma StopKeepsValid(s: AudioState)
    ensures Valid(StopSpec(s))
  {
  }

  /** Playing starts from a stopped state when one was playing, falls
      back to the default clip for an unknown name, and on success plays
      exactly that clip, looping iff the duration is at least 5000 ms,
      with the triggered flag as given and the auto-stop set. With no clip
      at all only the preliminary stop happens. */
  lemma PlayOutcomes(s: AudioState, ringtoneType: string, duration: int, triggered: bool, b: Browser)
    requires Valid(s)
    ensures var (r, outcome) := PlaySpec(s, ringtoneType, duration, triggered, b);
      var key := ClipKey(s.ringtones, ringtoneType);
      && Valid(r)
      && r.ringtones.Keys == s.ringtones.Keys
      && (outcome == NoRingtone <==> key !in s.ringtones)
      && (outcome == NoRingtone ==> r == Quieted(s))
      && (outcome == Played ==>
            && r.isPlaying && r.currentAudio == Some(key) && r.ringtones[key].playing
            && r.ringtones[key].loop == (duration >= LoopThreshold)
            && r.isAlarmTriggered == triggered && HasActiveTriggeredAlarm(r) == triggered
            && r.autoStopTimeout == Some(duration))
      && (outcome == Refused ==> !r.isPlaying && r.isAlarmTriggered == triggered && !HasActiveTriggeredAlarm(r))
  {
    var s1 := Quieted(s);
    QuietedIsStill(s);
    var key := ClipKey(s1.ringtones, ringtoneType);
    assert key == ClipKey(s.ringtones, ringtoneType);
    if key in s1.ringtones {
      var s2 := Prepared(s1, key, duration, triggered);
      PreparedIsStill(s1, key, duration, triggered);
      if b.playSucceeds {
        StartedPlaysOnlyKey(s2, key, ringtoneType, duration, b);
      } else {
        var r := ShowNotice(s2, ringtoneType, b);
        assert r.ringtones == s2.ringtones && r.isPlaying == s2.isPlaying && r.currentAudio == s2.currentAudio;
      }
    }
  }

  /** The preliminary stop leaves a valid state with nothing sounding. */
  lemma QuietedIsStill(s: AudioState)
    requires Valid(s)
    ensures var s1 := Quieted(s);
      Valid(s1) && !s1.isPlaying && s1.currentAudio.None? && s1.ringtones.Keys == s.ringtones.Keys
  {
  }

  /** Preparing a clip starts nothing. */
  lemma PreparedIsStill(s: AudioState, key: string, duration: int, triggered: bool)
    requires Valid(s) && !s.isPlaying && key in s.ringtones
    ensures var s2 := Prepared(s, key, duration, triggered);
      && Valid(s2) && !s2.isPlaying && s2.currentAudio.None? && s2.ringtones.Keys == s.ringtones.Keys
      && s2.ringtones[key].loop == (duration >= LoopThreshold) && s2.isAlarmTriggered == triggered
  {
    var s2 := Prepared(s, key, duration, triggered);
    forall k | k in s2.ringtones
      ensures !s2.ringtones[k].playing
    {
      if k != key {
        assert s2.ringtones[k] == s.ringtones[k];
      }
    }
  }

  /** Starting from silence, exactly the chosen clip sounds. */
  lemma StartedPlaysOnlyKey(s: AudioState, key: string, ringtoneType: string, duration: int, b: Browser)
    requires Valid(s) && !s.isPlaying && key in s.ringtones
    ensures var r := Started(s, key, ringtoneType, duration, b);
      && Valid(r) && r.isPlaying && r.currentAudio == Some(key) && r.ringtones.Keys == s.ringtones.Keys
      && r.ringtones[key] == s.ringtones[key].(playing := true)
      && r.isAlarmTriggered == s.isAlarmTriggered && r.autoStopTimeout == Some(duration)
  {
    var s3 := Launched(s, key);
    var s4 := StartVibration(s3, b);
    var s5 := ShowNotice(s4, ringtoneType, b);
    assert s4.ringtones == s3.ringtones && s4.currentAudio == s3.currentAudio && s4.isPlaying;
    assert s5.ringtones == s3.ringtones && s5.currentAudio == s3.currentAudio && s5.isPlaying;
  }

  /** playAlarmSound(ringtoneType, duration = 3000): an alias that never
      marks a triggered alarm, and at the default duration plays once,
      without a repeating vibration. */
  function PlayAlarmSoundSpec(s: AudioState, ringtoneType: Option<string>, duration: Option<int>, b: Browser)
    : (AudioState, PlayOutcome)
  {
    PlaySpec(s, if ringtoneType.Some? then ringtoneType.value else "default",
             if duration.Some? then duration.value else 3000, false, b)
  }

  lemma AlarmSoundDefaultsToSinglePlay(s: AudioState, ringtoneType: Option<string>, b: Browser)
    requires Valid(s) && !s.vibrationInterval
    ensures var (r, outcome) := PlayAlarmSoundSpec(s, ringtoneType, None, b);
      && !HasActiveTriggeredAlarm(r) && !r.vibrationInterval
      && (outcome == Played ==> !r.ringtones[r.currentAudio.value].loop)
  {
    var t := if ringtoneType.Some? then ringtoneType.value else "default";
    PlayOutcomes(s, t, 3000, false, b);
  }

  // =====================================================================
  // The manager

  class MobileAudioManager {
    var ringtones: map<string, Clip>
    var isPlaying: bool
    var currentAudio: Option<string>
    var isAlarmTriggered: bool
    var vibrationEnabled: bool
    var vibrationInterval: bool
    var autoStopTimeout: Option<int>
    var wakeLock: bool
    var activeNotifications: seq<Notice>
    var closedNotifications: seq<Notice>
    var nextNotice: nat

    function Current(): AudioState
      reads this
    {
      AudioState(ringtones, isPlaying, currentAudio, isAlarmTriggered, vibrationEnabled, vibrationInterval,
                 autoStopTimeout, wakeLock, activeNotifications, closedNotifications, nextNotice)
    }

    /** The constructor with the ringtones loaded. */
    constructor ()
      ensures Current() == Initial() && Valid(Current())
    {
      ringtones := LoadedRingtones();
      isPlaying, currentAudio, isAlarmTriggered := false, None, false;
      vibrationEnabled, vibrationInterval, autoStopTimeout, wakeLock := true, false, None, false;
      activeNotifications, closedNotifications, nextNotice := [], [], 0;
    }

    predicate HasActiveTriggered()
      reads this
    {
      isPlaying && isAlarmTriggered
    }

    /** closeAllNotifications: close each tracked notification in turn,
        then forget them. */
    method CloseAllNotifications()
      modifies this
      ensures Current() == ClosedNotices(old(Current()))
    {
      var i := 0;
      while i < |activeNotifications|
        invariant 0 <= i <= |activeNotifications|
        invariant activeNotifications == old(activeNotifications)
        invariant closedNotifications == old(closedNotifications) + activeNotifications[..i]
        invariant Current() == old(Current()).(closedNotifications := closedNotifications)
      {
        closedNotifications := closedNotifications + [activeNotifications[i]];
        i := i + 1;
      }
      assert activeNotifications[..i] == activeNotifications;
      activeNotifications := [];
    }

    /** stopVibration. */
    method StopVibration()
      modifies this
      ensures Current() == old(Current()).(vibrationInterval := false)
    {
      vibrationInterval := false;
    }

    /** The loop of stopAlarm over every loaded ringtone. */
    method SilenceRingtones()
      modifies this
      ensures Current() == old(Current()).(ringtones := SilenceAll(old(ringtones)))
    {
      var start := ringtones;
      var silenced := start;
      var pending := start.Keys;
      while pending != {}
        invariant silenced.Keys == start.Keys && pending <= start.Keys
        invariant forall k :: k in start && k !in pending ==> silenced[k] == Silenced(start[k])
        invariant forall k :: k in pending ==> silenced[k] == start[k]
        decreases pending
      {
        var k :| k in pending;
        silenced := silenced[k := Silenced(silenced[k])];
        pending := pending - {k};
      }
      assert silenced == SilenceAll(start);
      ringtones := silenced;
    }

    /** stopAlarm: the current audio first, then every ringtone. */
    method StopAlarm()
      modifies this
      ensures Current() == StopSpec(old(Current()))
    {
      ghost var before := ringtones;
      if currentAudio.Some? && currentAudio.value in ringtones {
        var key := currentAudio.value;
        ringtones := ringtones[key := Silenced(ringtones[key])];
        SilenceFirst(before, key);
      }
      currentAudio := None;
      SilenceRingtones();
      ClearFlags();
      CloseAllNotifications();
    }

    /** The flags stopAlarm resets, the vibration among them. */
    method ClearFlags()
      modifies this
      ensures Current() == ClearedFlags(old(Current()))
    {
      isPlaying := false;
      isAlarmTriggered := false;
      StopVibration();
      autoStopTimeout := None;
      wakeLock := false;
    }

    /** showAlarmNotification. */
    method ShowAlarmNotification(ringtoneType: string, b: Browser)
      modifies this
      ensures Current() == ShowNotice(old(Current()), ringtoneType, b)
    {
      if b.notificationsGranted {
        activeNotifications := activeNotifications + [Notice(nextNotice, AlarmBody(ringtoneType))];
        nextNotice := nextNotice + 1;
      }
    }

    /** The clip readied before play(): full volume, looping for a long
        alarm, and the triggered flag. */
    method PrepareClip(key: string, duration: int, triggered: bool)
      requires key in ringtones
      modifies this
      ensures Current() == Prepared(old(Current()), key, duration, triggered)
    {
      ringtones := ringtones[key := ringtones[key].(volume := 100, loop := duration >= LoopThreshold)];
      isAlarmTriggered := triggered;
    }

    /** What follows a play() that succeeded. */
    method StartClip(key: string, ringtoneType: string, duration: int, b: Browser)
      requires key in ringtones
      modifies this
      ensures Current() == Started(old(Current()), key, ringtoneType, duration, b)
    {
      Launch(key);
      Vibrate(b);
      ShowAlarmNotification(ringtoneType, b);
      ArmAutoStop(duration);
    }

    method Launch(key: string)
      requires key in ringtones
      modifies this
      ensures Current() == Launched(old(Current()), key)
    {
      ringtones := ringtones[key := ringtones[key].(playing := true)];
      currentAudio := Some(key);
      isPlaying := true;
    }

    method ArmAutoStop(duration: int)
      modifies this
      ensures Current() == AutoStop(old(Current()), duration)
    {
      autoStopTimeout := Some(duration);
    }

    /** startVibration: a looping current clip starts the vibration pattern. */
    method Vibrate(b: Browser)
      modifies this
      ensures Current() == StartVibration(old(Current()), b)
    {
      if vibrationEnabled && b.canVibrate && currentAudio.Some? && currentAudio.value in ringtones
         && ringtones[currentAudio.value].loop {
        vibrationInterval := true;
      }
    }

    /** playAlarmRingtone. */
    method PlayAlarmRingtone(ringtoneType: string, duration: int, triggered: bool, b: Browser)
      returns (outcome: PlayOutcome)
      modifies this
      ensures (Current(), outcome) == PlaySpec(old(Current()), ringtoneType, duration, triggered, b)
    {
      if isPlaying {
        StopAlarm();
      }
      assert Current() == Quieted(old(Current()));
      var key := if ringtoneType in ringtones then ringtoneType else "default";
      if key !in ringtones {
        return NoRingtone;
      }
      PrepareClip(key, duration, triggered);
      if !b.playSucceeds {
        ShowAlarmNotification(ringtoneType, b);
        return Refused;
      }
      StartClip(key, ringtoneType, duration, b);
      outcome := Played;
    }

    /** playAlarmSound, with its defaults. */
    method PlayAlarmSound(ringtoneType: Option<string>, duration: Option<int>, b: Browser) returns (outcome: PlayOutcome)
      modifies this
      ensures (Current(), outcome) == PlayAlarmSoundSpec(old(Current()), ringtoneType, duration, b)
    {
      outcome := PlayAlarmRingtone(if ringtoneType.Some? then ringtoneType.value else "default",
                                   if duration.Some? then duration.value else 3000, false, b);
    }
  }
}
