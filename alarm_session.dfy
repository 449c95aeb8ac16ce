/**
 * The alarm-sound session of AlarmSoundService.kt as a state machine on
 * values: the service's three session fields (`player`, `origAlarmVol`,
 * `autoStopRunnable`) together with the platform state they act on (the
 * main-looper handler's queue of posted runnables, the system alarm-stream
 * volume and the foreground notification). Every entry point of the service
 * is a transition function; `Step` and `Run` serialise the callbacks the
 * main looper delivers. The class in SoundService is proved against these
 * functions.
 */
module AlarmSession {
  import opened Wrappers
  import opened Platform

  // The service's companion-object constants.
  const ACTION_STOP: string := "STOP"
  const CHANNEL_ID: string := "alarm_channel_v4"
  const DEFAULT_AUTO_STOP_MS: int := 60000
  const EXTRA_TITLE: string := "title"
  const EXTRA_BODY: string := "body"
  const EXTRA_AUTO_STOP_MS: string := "auto_stop_ms"
  const EXTRA_GAIN: string := "gain"
  const EXTRA_SET_STREAM_VOL: string := "set_stream_volume"
  const EXTRA_SOUND_RES_NAME: string := "sound_res"
  const EXTRA_SILENT: string := "silent"
  /** Read by onStartCommand under this literal key. */
  const EXTRA_LOOP: string := "loop"
  const K_CRITICAL_ON: string := "flutter.critical_alarm_enabled"
  /** Title and body of the foreground notification when the intent has none. */
  const DEFAULT_TITLE: string := "긴급 알림 재생 중"
  const DEFAULT_BODY: string := "잠시 후 자동으로 종료됩니다."

  /** Service.START_STICKY and Service.START_NOT_STICKY. */
  datatype StartResult = StartSticky | StartNotSticky

  /**
   * A started MediaPlayer: the raw resource it plays, `isLooping`, the gain
   * given to `setVolume`, and whether a completion listener that ends the
   * session is registered on it.
   */
  datatype Player = Player(resId: int, looping: bool, gain: real, stopsOnCompletion: bool)

  /** A `Runnable { stopSelfSafely() }`; each creation is a new object, told apart by `id`. */
  datatype Runnable = AutoStop(id: nat)

  /** An entry of the handler's queue: `handler.postDelayed(runnable, delayMs)`. */
  datatype Posted = Posted(runnable: Runnable, delayMs: int)

  /**
   * The platform conditions the service runs under, fixed for a session:
   * the shared preferences, the alarm stream's maximum level, whether the
   * `setStreamVolume` that overrides the level succeeds and whether the one
   * that restores it succeeds (two separate calls, each of which can throw,
   * for one, under Do Not Disturb restrictions), whether `MediaPlayer.create(...).apply { ... start() }`
   * succeeds, the raw resources `getIdentifier` knows, and the id of
   * `R.raw.critical_alert`.
   */
  datatype Device = Device(
    prefs: Prefs,
    maxAlarmVolume: nat,
    overrideVolumeSucceeds: bool,
    restoreVolumeSucceeds: bool,
    playerCreateSucceeds: bool,
    rawIds: map<string, int>,
    criticalAlertResId: int)

  /** The session fields of the service and the platform state they act on. */
  datatype State = State(
    player: Option<Player>,
    origAlarmVol: Option<int>,
    autoStopRunnable: Option<Runnable>,
    handlerQueue: seq<Posted>,
    nextRunnableId: nat,
    alarmVolume: int,
    foreground: Option<Notification>)

  /** The callbacks the main looper delivers to the service, one at a time. */
  datatype Event =
    | StartCommand(intent: Option<Intent>)
    | AutoStopFires
    | PlaybackCompletes
    | Destroy

  /** The intent behind every "stop" action: `Intent(AlarmSoundService).apply { action = ACTION_STOP }`. */
  function StopIntent(): (i: Intent)
    ensures i.target == SoundServiceComponent && i.action == Some(ACTION_STOP) && i.extras == map[]
    ensures IsStopIntent(Some(i))
  {
    Intent(SoundServiceComponent, Some(ACTION_STOP), map[])
  }

  predicate IsStopIntent(intent: Option<Intent>) {
    intent.Some? && intent.value.action == Some(ACTION_STOP)
  }

  /** No player, no saved volume, no timer, no foreground notification. */
  predicate Idle(s: State) {
    s.player.None? && s.origAlarmVol.None? && s.autoStopRunnable.None? && s.foreground.None?
  }

  /**
   * The timer field and the handler's queue agree: at most one runnable is
   * pending, and it is the one the service holds.
   */
  predicate TimersConsistent(s: State) {
    match s.autoStopRunnable
    case None => s.handlerQueue == []
    case Some(t) => |s.handlerQueue| == 1 && s.handlerQueue[0].runnable == t && t.id < s.nextRunnableId
  }

  /** The session invariant every delivered callback keeps. */
  predicate Valid(s: State, dev: Device) {
    TimersConsistent(s)
    && (s.origAlarmVol.Some? ==> s.player.Some? && 0 <= s.origAlarmVol.value <= dev.maxAlarmVolume)
    && (s.player.Some? ==>
          0.0 <= s.player.value.gain <= 1.0
          && s.player.value.stopsOnCompletion == !s.player.value.looping
          && s.foreground.Some?)
    && 0 <= s.alarmVolume <= dev.maxAlarmVolume
  }

  /** `prefs.getBoolean(K_CRITICAL_ON, true)`. */
  function CriticalEnabled(dev: Device): (on: bool)
    ensures on <==> K_CRITICAL_ON !in dev.prefs || dev.prefs[K_CRITICAL_ON]
  {
    GetBoolean(dev.prefs, K_CRITICAL_ON, true)
  }

  // ---------------------------------------------------------------------
  // Pure helpers
  // ---------------------------------------------------------------------

  /** `gain.coerceIn(0f, 1f)`. */
  function CoerceGain(g: real): (r: real)
    ensures 0.0 <= r <= 1.0
    ensures 0.0 <= g <= 1.0 ==> r == g
    ensures g < 0.0 ==> r == 0.0
    ensures g > 1.0 ==> r == 1.0
  {
    if g < 0.0 then 0.0 else if g > 1.0 then 1.0 else g
  }

  /** `absAlarmVol.coerceIn(0, max)`. */
  function CoerceLevel(v: int, max: nat): (r: int)
    ensures 0 <= r <= max
    ensures 0 <= v <= max ==> r == v
    ensures v < 0 ==> r == 0
    ensures v > max ==> r == max
  {
    if v < 0 then 0 else if v > max then max else v
  }

  /**
   * `resolveRawResId`: a null or blank name, and a name `getIdentifier`
   * answers with 0, resolve to null.
   */
  function ResolveRawResId(name: Option<string>, rawIds: map<string, int>): (r: Option<int>)
    ensures r.None? <==> IsNullOrBlank(name) || name.value !in rawIds || rawIds[name.value] == 0
    ensures r.Some? ==> r.value != 0 && name.value in rawIds && r.value == rawIds[name.value]
  {
    if IsNullOrBlank(name) then None
    else
      var id := if name.value in rawIds then rawIds[name.value] else 0;
      if id != 0 then Some(id) else None
  }

  /** `handler.removeCallbacks(t)`: drops every posting of `t`, keeps the rest in order. */
  function Without(q: seq<Posted>, t: Runnable): (r: seq<Posted>)
    ensures forall p :: p in r ==> p in q && p.runnable != t
    ensures forall p :: p in q && p.runnable != t ==> p in r
    ensures |r| <= |q|
  {
    if q == [] then []
    else (if q[0].runnable == t then [] else [q[0]]) + Without(q[1..], t)
  }

  /** The foreground notification `startAsForeground` builds. */
  function ForegroundNotification(title: string, body: string, silent: bool): (n: Notification)
    ensures n.channelId == CHANNEL_ID && n.title == title && n.body == body
    ensures n.ongoing && n.stopAction == Some(StopIntent())
    ensures silent ==> n.priority == PriorityLow && n.category == CategoryService && n.silent
    ensures !silent ==> n.priority == PriorityMax && n.category == CategoryAlarm && !n.silent
  {
    Notification(
      CHANNEL_ID, title, body,
      if silent then PriorityLow else PriorityMax,
      if silent then CategoryService else CategoryAlarm,
      false, false, true, silent,
      Some(StopIntent()), None, None)
  }

  // What onStartCommand reads from a start intent.

  /** The `loop` extra, false without one. */
  function RequestedLoop(intent: Option<Intent>): (loop: bool)
    ensures loop <==> intent.Some? && EXTRA_LOOP in intent.value.extras && intent.value.extras[EXTRA_LOOP] == BoolExtra(true)
  {
    GetBooleanExtra(intent, EXTRA_LOOP, false)
  }

  /** The player's gain: the `gain` extra clamped to [0, 1], and full gain without one. */
  function RequestedGain(intent: Option<Intent>): (g: real)
    ensures 0.0 <= g <= 1.0
    ensures intent.None? || EXTRA_GAIN !in intent.value.extras || !intent.value.extras[EXTRA_GAIN].FloatExtra? ==> g == 1.0
    ensures (intent.Some? && EXTRA_GAIN in intent.value.extras && intent.value.extras[EXTRA_GAIN].FloatExtra?
             && 0.0 <= intent.value.extras[EXTRA_GAIN].f <= 1.0) ==> g == intent.value.extras[EXTRA_GAIN].f
    ensures (intent.Some? && EXTRA_GAIN in intent.value.extras && intent.value.extras[EXTRA_GAIN].FloatExtra?
             && intent.value.extras[EXTRA_GAIN].f > 1.0) ==> g == 1.0
    ensures (intent.Some? && EXTRA_GAIN in intent.value.extras && intent.value.extras[EXTRA_GAIN].FloatExtra?
             && intent.value.extras[EXTRA_GAIN].f < 0.0) ==> g == 0.0
  {
    CoerceGain(GetFloatExtra(intent, EXTRA_GAIN, 1.0))
  }

  function RequestedStreamVolume(intent: Option<Intent>): int {
    GetIntExtra(intent, EXTRA_SET_STREAM_VOL, -1)
  }

  function RequestedSound(intent: Option<Intent>): Option<string> {
    GetStringExtra(intent, EXTRA_SOUND_RES_NAME)
  }

  /**
   * The argument onStartCommand gives resetAutoStop: 0 when looping,
   * otherwise the `auto_stop_ms` extra, and 60 seconds without one.
   */
  function AutoStopDelay(intent: Option<Intent>): (ms: int)
    ensures RequestedLoop(intent) ==> ms == 0
    ensures (!RequestedLoop(intent)
             && !(intent.Some? && EXTRA_AUTO_STOP_MS in intent.value.extras && intent.value.extras[EXTRA_AUTO_STOP_MS].LongExtra?))
            ==> ms == DEFAULT_AUTO_STOP_MS
    ensures (!RequestedLoop(intent) && intent.Some? && EXTRA_AUTO_STOP_MS in intent.value.extras
             && intent.value.extras[EXTRA_AUTO_STOP_MS].LongExtra?) ==> ms == intent.value.extras[EXTRA_AUTO_STOP_MS].l
  {
    if RequestedLoop(intent) then 0 else GetLongExtra(intent, EXTRA_AUTO_STOP_MS, DEFAULT_AUTO_STOP_MS)
  }

  /** The raw resource a start intent ends up playing. */
  function ResolvedSound(intent: Option<Intent>, dev: Device): (resId: int)
    ensures var name := RequestedSound(intent);
            if !IsNullOrBlank(name) && name.value in dev.rawIds && dev.rawIds[name.value] != 0
            then resId == dev.rawIds[name.value] else resId == dev.criticalAlertResId
  {
    ResolveRawResId(RequestedSound(intent), dev.rawIds).GetOr(dev.criticalAlertResId)
  }

  /** The alarm volume after teardown: the saved one if there is one and restoring succeeds. */
  function RestoredVolume(s: State, dev: Device): (v: int)
    ensures s.origAlarmVol.Some? && dev.restoreVolumeSucceeds ==> v == s.origAlarmVol.value
    ensures s.origAlarmVol.None? || !dev.restoreVolumeSucceeds ==> v == s.alarmVolume
  {
    if s.origAlarmVol.Some? && dev.restoreVolumeSucceeds then s.origAlarmVol.value else s.alarmVolume
  }

  // ---------------------------------------------------------------------
  // Transitions
  // ---------------------------------------------------------------------

  /**
   * `stopSelfSafely`: the player is released and the field cleared even if
   * releasing throws; the saved volume is restored (a throwing restore is
   * swallowed) and cleared; the timer is cancelled and cleared; the
   * foreground notification is removed.
   */
  function StopSelfSafely(s: State, dev: Device): (r: State)
    ensures Idle(r)
    ensures r.alarmVolume == RestoredVolume(s, dev)
    ensures TimersConsistent(s) ==> r.handlerQueue == [] && TimersConsistent(r)
    ensures r.nextRunnableId == s.nextRunnableId
  {
    var q := if s.autoStopRunnable.Some? then Without(s.handlerQueue, s.autoStopRunnable.value) else s.handlerQueue;
    s.(player := None,
       alarmVolume := RestoredVolume(s, dev),
       origAlarmVol := None,
       autoStopRunnable := None,
       handlerQueue := q,
       foreground := None)
  }

  /**
   * `resetAutoStop(ms)`: cancels the pending timer, then arms a new one
   * exactly when `ms > 0`.
   */
  function ResetAutoStop(s: State, ms: int): (r: State)
    ensures r.player == s.player && r.origAlarmVol == s.origAlarmVol
    ensures r.alarmVolume == s.alarmVolume && r.foreground == s.foreground
    ensures r.autoStopRunnable.Some? <==> ms > 0
    ensures ms > 0 ==> r.autoStopRunnable.value.id == s.nextRunnableId
    ensures TimersConsistent(s) ==>
              TimersConsistent(r)
              && r.handlerQueue == (if ms > 0 then [Posted(r.autoStopRunnable.value, ms)] else [])
  {
    var q := if s.autoStopRunnable.Some? then Without(s.handlerQueue, s.autoStopRunnable.value) else s.handlerQueue;
    if ms > 0 then
      var t := AutoStop(s.nextRunnableId);
      s.(autoStopRunnable := Some(t), handlerQueue := q + [Posted(t, ms)], nextRunnableId := s.nextRunnableId + 1)
    else
      s.(autoStopRunnable := None, handlerQueue := q)
  }

  /** `startAsForeground`: posts (or replaces) the foreground notification. */
  function StartAsForeground(s: State, title: string, body: string, silent: bool): (r: State)
    ensures r.foreground == Some(ForegroundNotification(title, body, silent))
    ensures r.(foreground := s.foreground) == s
  {
    s.(foreground := Some(ForegroundNotification(title, body, silent)))
  }

  /**
   * The stream-volume override inside `startPlayer`: the level applied is
   * clamped to [0, max]; the current level is saved unless one is saved
   * already; a throwing `setStreamVolume` leaves the level as it was.
   */
  function OverrideVolume(s: State, dev: Device, absAlarmVol: int): (r: State)
    ensures r.origAlarmVol == Some(s.origAlarmVol.GetOr(s.alarmVolume))
    ensures r.alarmVolume == if dev.overrideVolumeSucceeds then CoerceLevel(absAlarmVol, dev.maxAlarmVolume) else s.alarmVolume
    ensures r.(origAlarmVol := s.origAlarmVol, alarmVolume := s.alarmVolume) == s
  {
    var newLevel := CoerceLevel(absAlarmVol, dev.maxAlarmVolume);
    var saved := if s.origAlarmVol.None? then s.(origAlarmVol := Some(s.alarmVolume)) else s;
    if dev.overrideVolumeSucceeds then saved.(alarmVolume := newLevel) else saved
  }

  /**
   * The alarm level after a start whose player failed: the level from
   * before the session when a saved level exists and restoring it succeeds,
   * otherwise the level the override left, which is the clamped request
   * when the override succeeded and the previous level when it threw.
   */
  function FailedStartVolume(s: State, dev: Device, absAlarmVol: int): int {
    if dev.restoreVolumeSucceeds && (absAlarmVol >= 0 || s.origAlarmVol.Some?) then s.origAlarmVol.GetOr(s.alarmVolume)
    else if absAlarmVol >= 0 && dev.overrideVolumeSucceeds then CoerceLevel(absAlarmVol, dev.maxAlarmVolume)
    else s.alarmVolume
  }

  /**
   * `startPlayer`: nothing happens while a player exists. Otherwise the
   * volume is overridden when `absAlarmVol >= 0`, the sound is resolved with
   * `R.raw.critical_alert` as the fallback, and a player is started with a
   * completion listener exactly when it does not loop. A failing player
   * start tears the session down.
   */
  function StartPlayer(s: State, dev: Device, gain: real, absAlarmVol: int, soundResName: Option<string>, loop: bool): (r: State)
    ensures s.player.Some? ==> r == s
    ensures s.player.None? && dev.playerCreateSucceeds ==>
              r.player == Some(Player(ResolveRawResId(soundResName, dev.rawIds).GetOr(dev.criticalAlertResId), loop, gain, !loop))
              && r.foreground == s.foreground
              && r.autoStopRunnable == s.autoStopRunnable && r.handlerQueue == s.handlerQueue
              && r.nextRunnableId == s.nextRunnableId
              && (absAlarmVol < 0 ==> r.origAlarmVol == s.origAlarmVol && r.alarmVolume == s.alarmVolume)
              && (absAlarmVol >= 0 ==> r.origAlarmVol == Some(s.origAlarmVol.GetOr(s.alarmVolume)))
              && (absAlarmVol >= 0 && dev.overrideVolumeSucceeds ==> r.alarmVolume == CoerceLevel(absAlarmVol, dev.maxAlarmVolume))
              && (!dev.overrideVolumeSucceeds ==> r.alarmVolume == s.alarmVolume)
    ensures s.player.None? && !dev.playerCreateSucceeds ==>
              Idle(r) && r.nextRunnableId == s.nextRunnableId
              && r.alarmVolume == FailedStartVolume(s, dev, absAlarmVol)
    ensures TimersConsistent(s) ==> TimersConsistent(r)
    ensures TimersConsistent(s) && s.player.None? && !dev.playerCreateSucceeds ==> r.handlerQueue == []
  {
    if s.player.Some? then s
    else
      var v := if absAlarmVol >= 0 then OverrideVolume(s, dev, absAlarmVol) else s;
      var resId := ResolveRawResId(soundResName, dev.rawIds).GetOr(dev.criticalAlertResId);
      if dev.playerCreateSucceeds then v.(player := Some(Player(resId, loop, gain, !loop)))
      else StopSelfSafely(v, dev)
  }

  /**
   * `onStartCommand`: a STOP intent, and a start while the persisted
   * critical setting is off, end the session with START_NOT_STICKY.
   * Otherwise the foreground notification is (re)posted, the player is
   * started unless one exists, and the timer is reset; the timer is reset
   * even when a player already existed and even when starting the player
   * failed.
   */
  function OnStartCommand(s: State, dev: Device, intent: Option<Intent>): (r: (State, StartResult))
    ensures IsStopIntent(intent) || !CriticalEnabled(dev) ==>
              r.1 == StartNotSticky && Idle(r.0) && r.0.alarmVolume == RestoredVolume(s, dev)
    ensures !IsStopIntent(intent) && CriticalEnabled(dev) ==>
              r.1 == StartSticky
              && (r.0.autoStopRunnable.Some? <==> AutoStopDelay(intent) > 0)
              && (TimersConsistent(s) ==>
                    TimersConsistent(r.0)
                    && r.0.handlerQueue == (if AutoStopDelay(intent) > 0 then [Posted(r.0.autoStopRunnable.value, AutoStopDelay(intent))] else []))
              && (s.player.Some? ==>
                    r.0.player == s.player && r.0.origAlarmVol == s.origAlarmVol && r.0.alarmVolume == s.alarmVolume)
              && (s.player.None? && dev.playerCreateSucceeds ==>
                    r.0.player == Some(Player(ResolvedSound(intent, dev), RequestedLoop(intent), RequestedGain(intent), !RequestedLoop(intent)))
                    && (RequestedStreamVolume(intent) < 0 ==> r.0.origAlarmVol == s.origAlarmVol)
                    && (RequestedStreamVolume(intent) >= 0 ==> r.0.origAlarmVol == Some(s.origAlarmVol.GetOr(s.alarmVolume)))
                    && r.0.alarmVolume == (if RequestedStreamVolume(intent) >= 0 && dev.overrideVolumeSucceeds
                                           then CoerceLevel(RequestedStreamVolume(intent), dev.maxAlarmVolume)
                                           else s.alarmVolume))
              && (s.player.None? && !dev.playerCreateSucceeds ==>
                    r.0.player.None? && r.0.origAlarmVol.None? && r.0.foreground.None?
                    && r.0.alarmVolume == FailedStartVolume(s, dev, RequestedStreamVolume(intent)))
              && (s.player.Some? || dev.playerCreateSucceeds ==>
                    r.0.foreground == Some(ForegroundNotification(
                      GetStringExtra(intent, EXTRA_TITLE).GetOr(DEFAULT_TITLE),
                      GetStringExtra(intent, EXTRA_BODY).GetOr(DEFAULT_BODY),
                      GetBooleanExtra(intent, EXTRA_SILENT, true))))
  {
    if IsStopIntent(intent) then (StopSelfSafely(s, dev), StartNotSticky)
    else if !CriticalEnabled(dev) then (StopSelfSafely(s, dev), StartNotSticky)
    else
      var loop := RequestedLoop(intent);
      var s1 := StartAsForeground(s,
        GetStringExtra(intent, EXTRA_TITLE).GetOr(DEFAULT_TITLE),
        GetStringExtra(intent, EXTRA_BODY).GetOr(DEFAULT_BODY),
        GetBooleanExtra(intent, EXTRA_SILENT, true));
      var s2 := StartPlayer(s1, dev, RequestedGain(intent), RequestedStreamVolume(intent), RequestedSound(intent), loop);
      var autoStopMs := GetLongExtra(intent, EXTRA_AUTO_STOP_MS, DEFAULT_AUTO_STOP_MS);
      (ResetAutoStop(s2, if loop then 0 else autoStopMs), StartSticky)
  }

  /**
   * The pending runnable runs: the handler drops it from its queue and it
   * calls `stopSelfSafely`. With nothing pending nothing happens.
   */
  function AutoStopFired(s: State, dev: Device): (r: State)
    ensures s.handlerQueue == [] ==> r == s
    ensures s.handlerQueue != [] ==> Idle(r) && r.alarmVolume == RestoredVolume(s, dev)
  {
    if s.handlerQueue == [] then s
    else StopSelfSafely(s.(handlerQueue := s.handlerQueue[1..]), dev)
  }

  /** Playback ended: only a registered completion listener reacts, by ending the session. */
  function PlaybackCompleted(s: State, dev: Device): (r: State)
    ensures s.player.Some? && s.player.value.stopsOnCompletion ==> Idle(r) && r.alarmVolume == RestoredVolume(s, dev)
    ensures !(s.player.Some? && s.player.value.stopsOnCompletion) ==> r == s
  {
    if s.player.Some? && s.player.value.stopsOnCompletion then StopSelfSafely(s, dev) else s
  }

  /** A start or STOP command keeps the session invariant. */
  lemma StartCommandKeepsValid(s: State, dev: Device, intent: Option<Intent>)
    ensures Valid(s, dev) ==> Valid(OnStartCommand(s, dev, intent).0, dev)
  {
    if Valid(s, dev) && !IsStopIntent(intent) && CriticalEnabled(dev) {
      var s1 := StartAsForeground(s,
        GetStringExtra(intent, EXTRA_TITLE).GetOr(DEFAULT_TITLE),
        GetStringExtra(intent, EXTRA_BODY).GetOr(DEFAULT_BODY),
        GetBooleanExtra(intent, EXTRA_SILENT, true));
      var s2 := StartPlayer(s1, dev, RequestedGain(intent), RequestedStreamVolume(intent), RequestedSound(intent), RequestedLoop(intent));
      assert Valid(s2, dev);
    }
  }

  /** One callback of the main looper; every one of them keeps the session invariant. */
  function Step(s: State, dev: Device, e: Event): (r: State)
    ensures Valid(s, dev) ==> Valid(r, dev)
  {
    match e
    case StartCommand(intent) => StartCommandKeepsValid(s, dev, intent); OnStartCommand(s, dev, intent).0
    case AutoStopFires => AutoStopFired(s, dev)
    case PlaybackCompletes => PlaybackCompleted(s, dev)
    case Destroy => StopSelfSafely(s, dev)
  }

  /** A serialised run of callbacks; every state reached keeps the session invariant. */
  function Run(s: State, dev: Device, evs: seq<Event>): (r: State)
    ensures Valid(s, dev) ==> Valid(r, dev)
    decreases |evs|
  {
    if evs == [] then s else Run(Step(s, dev, evs[0]), dev, evs[1..])
  }

  // ---------------------------------------------------------------------
  // Lemmas
  // ---------------------------------------------------------------------

  /** A second teardown changes nothing more, volume included. */
  lemma StopIsIdempotent(s: State, dev: Device)
    ensures StopSelfSafely(StopSelfSafely(s, dev), dev) == StopSelfSafely(s, dev)
  {
  }

  /** A STOP command to an idle service has no effect at all. */
  lemma StopWhenIdleHasNoEffect(s: State, dev: Device)
    requires Idle(s) && TimersConsistent(s)
    ensures OnStartCommand(s, dev, Some(StopIntent())) == (s, StartNotSticky)
  {
  }

  /**
   * `v` is the alarm volume from before the session's first override: it is
   * the saved level while one is saved, and the current level when none is
   * saved or when overriding the level throws.
   */
  predicate RemembersVolume(s: State, dev: Device, v: int) {
    (s.origAlarmVol.Some? ==> s.origAlarmVol.value == v)
    && (s.origAlarmVol.None? || !dev.overrideVolumeSucceeds ==> s.alarmVolume == v)
  }

  /** While restoring the level succeeds, no callback forgets the level from before the session. */
  lemma StepRemembersVolume(s: State, dev: Device, e: Event, v: int)
    requires Valid(s, dev) && RemembersVolume(s, dev, v) && dev.restoreVolumeSucceeds
    ensures RemembersVolume(Step(s, dev, e), dev, v)
  {
  }

  /** Across any run, the saved volume is never overwritten and teardown puts the first level back. */
  lemma {:induction false} RunRemembersVolume(s: State, dev: Device, evs: seq<Event>, v: int)
    requires Valid(s, dev) && RemembersVolume(s, dev, v) && dev.restoreVolumeSucceeds
    ensures RemembersVolume(Run(s, dev, evs), dev, v)
    decreases |evs|
  {
    if evs != [] {
      StepRemembersVolume(s, dev, evs[0], v);
      RunRemembersVolume(Step(s, dev, evs[0]), dev, evs[1..], v);
    }
  }

  /**
   * Starting from a state with no saved volume, and while restoring the
   * level succeeds, whenever a run ends with no saved volume (in particular
   * after any teardown) the system alarm volume is what it was at the start.
   */
  lemma SessionRestoresVolume(s: State, dev: Device, evs: seq<Event>)
    requires Valid(s, dev) && s.origAlarmVol.None? && dev.restoreVolumeSucceeds
    ensures Run(s, dev, evs).origAlarmVol.None? ==> Run(s, dev, evs).alarmVolume == s.alarmVolume
  {
    RunRemembersVolume(s, dev, evs, s.alarmVolume);
  }

  /** Running `evs` and then `e` is one more step after the run of `evs`. */
  lemma {:induction false} RunThenStep(s: State, dev: Device, evs: seq<Event>, e: Event)
    ensures Run(s, dev, evs + [e]) == Step(Run(s, dev, evs), dev, e)
    decreases |evs|
  {
    if evs == [] {
      assert evs + [e] == [e];
    } else {
      assert (evs + [e])[0] == evs[0];
      assert (evs + [e])[1..] == evs[1..] + [e];
      RunThenStep(Step(s, dev, evs[0]), dev, evs[1..], e);
    }
  }

  /** Every run that ends with a STOP command ends idle with no timer pending. */
  lemma StopEndsEveryRun(s: State, dev: Device, evs: seq<Event>)
    requires Valid(s, dev)
    ensures var r := Run(s, dev, evs + [StartCommand(Some(StopIntent()))]);
            Idle(r) && r.handlerQueue == []
  {
    RunThenStep(s, dev, evs, StartCommand(Some(StopIntent())));
    assert Valid(Run(s, dev, evs), dev);
  }

  /**
   * A start while a player exists keeps that player and its saved volume,
   * and re-arms the timer with a new runnable in place of the old one.
   */
  lemma SecondStartRearmsTimer(s: State, dev: Device, intent: Option<Intent>)
    requires Valid(s, dev) && s.player.Some? && s.autoStopRunnable.Some?
    requires !IsStopIntent(intent) && CriticalEnabled(dev) && AutoStopDelay(intent) > 0
    ensures var r := OnStartCommand(s, dev, intent).0;
            r.player == s.player && r.origAlarmVol == s.origAlarmVol
            && r.autoStopRunnable.Some? && r.autoStopRunnable != s.autoStopRunnable
            && r.handlerQueue == [Posted(r.autoStopRunnable.value, AutoStopDelay(intent))]
  {
  }

  /**
   * A start whose player fails to start tears the session down and still
   * answers START_STICKY with a timer armed, and without a player.
   */
  lemma FailedStartArmsTimer(s: State, dev: Device, intent: Option<Intent>)
    requires Valid(s, dev) && s.player.None? && !dev.playerCreateSucceeds
    requires !IsStopIntent(intent) && CriticalEnabled(dev) && AutoStopDelay(intent) > 0
    ensures var (r, mode) := OnStartCommand(s, dev, intent);
            mode == StartSticky && r.player.None? && r.foreground.None? && r.autoStopRunnable.Some?
            && |r.handlerQueue| == 1
  {
  }

  /**
   * A non-looping player ends the session when playback completes; a
   * looping one has no listener and completion changes nothing.
   */
  lemma CompletionStopsOnlyOneShotPlayers(s: State, dev: Device)
    requires Valid(s, dev) && s.player.Some?
    ensures var r := Step(s, dev, PlaybackCompletes);
            (!s.player.value.looping ==> Idle(r) && r.handlerQueue == [])
            && (s.player.value.looping ==> r == s)
  {
  }

  /** A firing timer ends the session, puts the saved volume back and leaves nothing pending. */
  lemma TimerEndsSession(s: State, dev: Device)
    requires Valid(s, dev) && s.autoStopRunnable.Some?
    ensures var r := Step(s, dev, AutoStopFires);
            Idle(r) && r.handlerQueue == [] && r.alarmVolume == RestoredVolume(s, dev)
  {
  }

  /**
   * A start intent for a one-shot alarm at `gain` with a 60-second timer
   * and `set_stream_volume` at `level` (negative: no override).
   */
  function OneShotIntent(gain: real, level: int): Option<Intent> {
    Some(Intent(SoundServiceComponent, None, map[
      EXTRA_GAIN := FloatExtra(gain), EXTRA_AUTO_STOP_MS := LongExtra(60000),
      EXTRA_LOOP := BoolExtra(false), EXTRA_SET_STREAM_VOL := IntExtra(level)]))
  }

  /**
   * A one-shot critical alarm at gain 0.5: the session plays at gain 0.5
   * with a 60-second timer pending; the timer firing brings the session
   * back to idle with the alarm volume as it was: a negative `level` asks
   * for no override, and an override is undone when restoring succeeds.
   */
  lemma HalfGainScenario(s: State, dev: Device, level: int)
    requires Valid(s, dev) && Idle(s) && CriticalEnabled(dev) && dev.playerCreateSucceeds
    requires level < 0 || dev.restoreVolumeSucceeds
    ensures var intent := OneShotIntent(0.5, level);
            var playing := Step(s, dev, StartCommand(intent));
            var done := Step(playing, dev, AutoStopFires);
            playing.player.Some? && playing.player.value.gain == 0.5 && !playing.player.value.looping
            && playing.handlerQueue == [Posted(playing.autoStopRunnable.value, 60000)]
            && Idle(done) && done.handlerQueue == [] && done.alarmVolume == s.alarmVolume
  {
  }

  /**
   * When the override succeeds but restoring the level throws, teardown
   * still drops the saved level: the alarm stream stays at the overridden
   * level and the level from before the session is forgotten.
   */
  lemma FailedRestoreKeepsOverride(s: State, dev: Device, level: int)
    requires Valid(s, dev) && Idle(s) && CriticalEnabled(dev) && dev.playerCreateSucceeds
    requires 0 <= level && dev.overrideVolumeSucceeds && !dev.restoreVolumeSucceeds
    ensures var playing := Step(s, dev, StartCommand(OneShotIntent(1.0, level)));
            var done := Step(playing, dev, AutoStopFires);
            playing.origAlarmVol == Some(s.alarmVolume)
            && Idle(done) && done.origAlarmVol.None?
            && done.alarmVolume == CoerceLevel(level, dev.maxAlarmVolume)
  {
  }
}
