/**
 * BackgroundReceiver.kt: the push-message policy. `Decide` is the decision
 * cascade of `onMessageReceived` as a function from the payload and the
 * persisted settings to the actions the receiver takes; the class
 * BackgroundReceiver performs them on the platform state (channels, posted
 * notifications, requested service starts) and is proved to do what
 * `Decide` says. The lemmas state the decision table, the defaults and the
 * irrelevance of the payload's own "critical" hints.
 */
module Receiver {
  import opened Wrappers
  import opened Platform
  import AlarmSession

  const CH_CRITICAL: string := "alarm_channel_v4"
  const CH_NORMAL: string := "normal_channel_v1"
  const K_CRITICAL_ON: string := "flutter.critical_alarm_enabled"
  const K_NORMAL_ON: string := "flutter.normal_alarm_enabled"
  const K_UNTIL_STOP: string := "flutter.critical_until_stopped"
  const DEFAULT_TITLE: string := "알림"
  const DEFAULT_SOUND: string := "critical_alert"
  /** The auto-stop interval requested for a one-shot critical alarm. */
  const ONE_SHOT_AUTO_STOP_MS: int := 60000

  /**
   * What the receiver reads from a parsed `ios_config` object:
   * `optBoolean("critical", false)` and `optString("interruptionLevel")`.
   */
  datatype IosConfig = IosConfig(critical: bool, interruptionLevel: string)

  /**
   * The foreign code the receiver calls, as opaque total functions:
   * Kotlin's `toFloatOrNull` and `toIntOrNull`, the `JSONObject` constructor
   * (None where it throws), `JSONObject(map).toString(2)` (None where it
   * throws), `String.hashCode`, and the text of `System.currentTimeMillis()`.
   */
  datatype Env = Env(
    toFloatOrNull: string -> Option<real>,
    toIntOrNull: string -> Option<int>,
    parseIosConfig: string -> Option<IosConfig>,
    toJson: StringMap -> Option<string>,
    hashCode: string -> int,
    currentTimeMillisText: string)

  /** The three persisted settings. */
  datatype Settings = Settings(criticalOn: bool, normalOn: bool, untilStopped: bool)

  /** What the receiver does with one message. */
  datatype Action =
    | StartService(intent: Intent)
    | Post(id: int, notification: Notification)
    | Suppress

  // ---------------------------------------------------------------------
  // Settings and payload fields
  // ---------------------------------------------------------------------

  /** The settings as read from the preferences; a missing setting reads as true. */
  function ReadSettings(prefs: Prefs): (s: Settings)
    ensures s.criticalOn == (K_CRITICAL_ON !in prefs || prefs[K_CRITICAL_ON])
    ensures s.normalOn == (K_NORMAL_ON !in prefs || prefs[K_NORMAL_ON])
    ensures s.untilStopped == (K_UNTIL_STOP !in prefs || prefs[K_UNTIL_STOP])
  {
    Settings(GetBoolean(prefs, K_CRITICAL_ON, true), GetBoolean(prefs, K_NORMAL_ON, true), GetBoolean(prefs, K_UNTIL_STOP, true))
  }

  /** `d["title"] ?: "알림"`. */
  function Title(d: StringMap): (t: string)
    ensures "title" in d ==> t == d["title"]
    ensures "title" !in d ==> t == DEFAULT_TITLE
  {
    Lookup(d, "title").GetOr(DEFAULT_TITLE)
  }

  /** `d["body"] ?: ""`. */
  function Body(d: StringMap): (b: string)
    ensures "body" in d ==> b == d["body"]
    ensures "body" !in d ==> b == ""
  {
    Lookup(d, "body").GetOr("")
  }

  /** The notification id: the hash of the payload's `notifId`, or of the current time's text without one. */
  function NotifId(d: StringMap, env: Env): (id: int)
    ensures "notifId" in d ==> id == env.hashCode(d["notifId"])
    ensures "notifId" !in d ==> id == env.hashCode(env.currentTimeMillisText)
  {
    env.hashCode(Lookup(d, "notifId").GetOr(env.currentTimeMillisText))
  }

  /** `d["gain"]?.toFloatOrNull() ?: 1.0f`. */
  function Gain(d: StringMap, env: Env): (g: real)
    ensures "gain" in d && env.toFloatOrNull(d["gain"]).Some? ==> g == env.toFloatOrNull(d["gain"]).value
    ensures "gain" !in d || env.toFloatOrNull(d["gain"]).None? ==> g == 1.0
  {
    match Lookup(d, "gain")
    case None => 1.0
    case Some(g) => env.toFloatOrNull(g).GetOr(1.0)
  }

  /** `d["alarm_stream_volume"]?.toIntOrNull()`. */
  function StreamVolume(d: StringMap, env: Env): (v: Option<int>)
    ensures v.Some? <==> "alarm_stream_volume" in d && env.toIntOrNull(d["alarm_stream_volume"]).Some?
    ensures v.Some? ==> v == env.toIntOrNull(d["alarm_stream_volume"])
  {
    match Lookup(d, "alarm_stream_volume")
    case None => None
    case Some(v) => env.toIntOrNull(v)
  }

  // ---------------------------------------------------------------------
  // The payload's critical hint (logged only)
  // ---------------------------------------------------------------------

  /** A top-level `critical` of "true" or "1", or `interruptionLevel` "critical". */
  predicate TopLevelHint(d: StringMap)
    ensures TopLevelHint(d) <==>
              ("critical" in d && (d["critical"] == "true" || d["critical"] == "1"))
              || ("interruptionLevel" in d && d["interruptionLevel"] == "critical")
  {
    Lookup(d, "critical") == Some("true") || Lookup(d, "critical") == Some("1")
    || Lookup(d, "interruptionLevel") == Some("critical")
  }

  /** A non-blank `ios_config` that the JSON parser rejects. */
  predicate IosConfigMalformed(d: StringMap, env: Env) {
    !IsNullOrBlank(Lookup(d, "ios_config")) && env.parseIosConfig(d["ios_config"]).None?
  }

  /** A non-blank, well-formed `ios_config` that asks for a critical alert. */
  predicate IosConfigHint(d: StringMap, env: Env) {
    !IsNullOrBlank(Lookup(d, "ios_config"))
    && var cfg := env.parseIosConfig(d["ios_config"]);
       cfg.Some? && (cfg.value.critical || cfg.value.interruptionLevel == "critical")
  }

  /**
   * `payloadCritical`. A malformed `ios_config` is absorbed by the `try` and
   * leaves the hint false; because the top-level check sits in the same
   * `try`, it is skipped then too.
   */
  function PayloadCritical(d: StringMap, env: Env): (hint: bool)
    ensures IosConfigMalformed(d, env) ==> !hint
    ensures !IosConfigMalformed(d, env) ==> (hint <==> IosConfigHint(d, env) || TopLevelHint(d))
  {
    var raw := Lookup(d, "ios_config");
    if IsNullOrBlank(raw) then TopLevelHint(d)
    else
      match env.parseIosConfig(raw.value)
      case None => false
      case Some(cfg) => cfg.critical || cfg.interruptionLevel == "critical" || TopLevelHint(d)
  }

  /** The step-by-step computation of `payloadCritical` inside its `try`. */
  method ComputePayloadCritical(d: StringMap, env: Env) returns (payloadCritical: bool)
    ensures payloadCritical == PayloadCritical(d, env)
  {
    var iosCfgRaw := Lookup(d, "ios_config");
    payloadCritical := false;
    if !IsNullOrBlank(iosCfgRaw) {
      var iosObj := env.parseIosConfig(iosCfgRaw.value);
      if iosObj.None? {
        // JSONObject threw: the catch swallows it and the rest of the try is skipped
        return;
      }
      var iosCrit := iosObj.value.critical;
      var iosIL := iosObj.value.interruptionLevel == "critical";
      payloadCritical := iosCrit || iosIL;
    }
    var topCrit := Lookup(d, "critical") == Some("true") || Lookup(d, "critical") == Some("1")
                   || Lookup(d, "interruptionLevel") == Some("critical");
    payloadCritical := payloadCritical || topCrit;
  }

  // ---------------------------------------------------------------------
  // Notifications, the service intent and channels
  // ---------------------------------------------------------------------

  /** The tap action: the detail screen, with the whole payload as JSON ("{}" if that fails). */
  function DetailIntent(title: string, body: string, d: StringMap, env: Env): Intent
  {
    var extras := map[
      "title" := StringExtra(title),
      "body" := StringExtra(body),
      "data_json" := StringExtra(env.toJson(d).GetOr("{}"))];
    Intent(DetailActivityComponent, None,
      if "actionUrl" in d then extras["actionUrl" := StringExtra(d["actionUrl"])] else extras)
  }

  /**
   * `postNotification`'s builder. On the critical channel: alarm category,
   * PRIORITY_MAX when heads-up is asked for, and always a stop action that
   * sends ACTION_STOP to the sound service. On any other channel: message
   * category, PRIORITY_DEFAULT, no stop action.
   */
  function BuildNotification(title: string, body: string, d: StringMap, channelId: string, headsUp: bool, env: Env): (n: Notification)
    ensures n.channelId == channelId && n.title == title && n.body == body
    ensures n.stopAction.Some? <==> channelId == CH_CRITICAL
    ensures n.stopAction.Some? ==>
              n.stopAction.value.target == SoundServiceComponent
              && n.stopAction.value.action == Some(AlarmSession.ACTION_STOP)
    ensures n.priority == PriorityMax <==> channelId == CH_CRITICAL && headsUp
    ensures n.priority != PriorityMax ==> n.priority == PriorityDefault
    ensures n.category == if channelId == CH_CRITICAL then CategoryAlarm else CategoryMessage
    ensures n.contentIntent == Some(DetailIntent(title, body, d, env))
    ensures n.ticker == Lookup(d, "ticker") && n.autoCancel && n.publicVisibility && !n.ongoing
  {
    var critical := channelId == CH_CRITICAL;
    Notification(
      channelId, title, body,
      if critical && headsUp then PriorityMax else PriorityDefault,
      if critical then CategoryAlarm else CategoryMessage,
      true, true, false, false,
      if critical then Some(AlarmSession.StopIntent()) else None,
      Some(DetailIntent(title, body, d, env)),
      Lookup(d, "ticker"))
  }

  /** The intent that asks the sound service to ring. */
  function ServiceIntent(d: StringMap, title: string, body: string, untilStopped: bool, env: Env): Intent
  {
    var extras := map[
      AlarmSession.EXTRA_TITLE := StringExtra(Lookup(d, "svc_title").GetOr(title)),
      AlarmSession.EXTRA_BODY := StringExtra(Lookup(d, "svc_body").GetOr(body)),
      AlarmSession.EXTRA_AUTO_STOP_MS := LongExtra(if untilStopped then 0 else ONE_SHOT_AUTO_STOP_MS),
      AlarmSession.EXTRA_GAIN := FloatExtra(Gain(d, env)),
      AlarmSession.EXTRA_SOUND_RES_NAME := StringExtra(Lookup(d, "sound_res").GetOr(DEFAULT_SOUND)),
      AlarmSession.EXTRA_SILENT := BoolExtra(true),
      AlarmSession.EXTRA_LOOP := BoolExtra(untilStopped)];
    var vol := StreamVolume(d, env);
    Intent(SoundServiceComponent, None,
      if vol.Some? then extras[AlarmSession.EXTRA_SET_STREAM_VOL := IntExtra(vol.value)] else extras)
  }

  /** The critical channel: high importance, bypasses Do Not Disturb, public on the lock screen. */
  function CriticalChannel(): (c: Channel)
    ensures c.name == "Critical Alerts" && c.importance == ImportanceHigh && c.bypassDnd && c.lockscreenPublic
  {
    Channel("Critical Alerts", ImportanceHigh, "무음/방해금지에도 울릴 수 있는 긴급 알림", true, true)
  }

  /** The normal channel: default importance, does not bypass Do Not Disturb. */
  function NormalChannel(): (c: Channel)
    ensures c.name == "General Alerts" && c.importance == ImportanceDefault && !c.bypassDnd
  {
    Channel("General Alerts", ImportanceDefault, "일반 알림(무음/방해금지를 우회하지 않음)", false, false)
  }

  /**
   * `ensureChannels`: from API level 26 on, each of the two channels is
   * created only when absent; an existing channel is kept as it is.
   */
  function EnsuredChannels(channels: map<string, Channel>, sdkInt: int): (r: map<string, Channel>)
    ensures forall k :: k in channels ==> k in r && r[k] == channels[k]
    ensures r.Keys == channels.Keys + (if sdkInt >= SDK_O then {CH_CRITICAL, CH_NORMAL} else {})
    ensures sdkInt >= SDK_O && CH_CRITICAL !in channels ==> r[CH_CRITICAL] == CriticalChannel()
    ensures sdkInt >= SDK_O && CH_NORMAL !in channels ==> r[CH_NORMAL] == NormalChannel()
  {
    if sdkInt < SDK_O then channels
    else
      var c := if CH_CRITICAL in channels then channels else channels[CH_CRITICAL := CriticalChannel()];
      if CH_NORMAL in c then c else c[CH_NORMAL := NormalChannel()]
  }

  // ---------------------------------------------------------------------
  // The policy
  // ---------------------------------------------------------------------

  /**
   * The cascade of `onMessageReceived`: critical on starts the sound
   * service and posts a heads-up on the critical channel; otherwise normal
   * on posts on the normal channel; otherwise nothing is shown.
   */
  function Decide(d: StringMap, prefs: Prefs, env: Env): (acts: seq<Action>)
    ensures ReadSettings(prefs).criticalOn ==>
              |acts| == 2 && acts[0].StartService? && acts[1].Post? && acts[1].notification.channelId == CH_CRITICAL
              && acts[0].intent == ServiceIntent(d, Title(d), Body(d), ReadSettings(prefs).untilStopped, env)
    ensures !ReadSettings(prefs).criticalOn && ReadSettings(prefs).normalOn ==>
              |acts| == 1 && acts[0].Post? && acts[0].notification.channelId == CH_NORMAL
    ensures !ReadSettings(prefs).criticalOn && !ReadSettings(prefs).normalOn ==> acts == [Suppress]
    ensures forall a :: a in acts && a.Post? ==>
              a.id == NotifId(d, env)
              && a.notification.title == (if "title" in d then d["title"] else DEFAULT_TITLE)
              && a.notification.body == (if "body" in d then d["body"] else "")
  {
    var st := ReadSettings(prefs);
    var title := Title(d);
    var body := Body(d);
    var id := NotifId(d, env);
    if st.criticalOn then
      [StartService(ServiceIntent(d, title, body, st.untilStopped, env)),
       Post(id, BuildNotification(title, body, d, CH_CRITICAL, true, env))]
    else if st.normalOn then
      [Post(id, BuildNotification(title, body, d, CH_NORMAL, false, env))]
    else
      [Suppress]
  }

  /** The notifications shown after performing `acts`: `notify` replaces one with the same id. */
  function Shown(shown: map<int, Notification>, acts: seq<Action>): (r: map<int, Notification>)
    ensures r.Keys == shown.Keys + set a | a in acts && a.Post? :: a.id
    ensures forall id :: id in shown && (forall a :: a in acts && a.Post? ==> a.id != id) ==> r[id] == shown[id]
    ensures |acts| > 0 && acts[|acts| - 1].Post? ==> r[acts[|acts| - 1].id] == acts[|acts| - 1].notification
    decreases |acts|
  {
    if acts == [] then shown
    else Shown(if acts[0].Post? then shown[acts[0].id := acts[0].notification] else shown, acts[1..])
  }

  /** The service starts `acts` requests, in order. */
  function Started(acts: seq<Action>): (r: seq<Intent>)
    ensures forall i :: i in r <==> StartService(i) in acts
    ensures |r| <= |acts|
    decreases |acts|
  {
    if acts == [] then []
    else (if acts[0].StartService? then [acts[0].intent] else []) + Started(acts[1..])
  }

  /** What an action looks like with the payload's content left out. */
  datatype Effect = StartsService | Posts(channelId: string, priority: Priority, hasStopAction: bool) | Suppresses

  function EffectOf(a: Action): Effect {
    match a
    case StartService(_) => StartsService
    case Post(_, n) => Posts(n.channelId, n.priority, n.stopAction.Some?)
    case Suppress => Suppresses
  }

  function Shape(acts: seq<Action>): seq<Effect> {
    seq(|acts|, i requires 0 <= i < |acts| => EffectOf(acts[i]))
  }

  /** What performing `Decide`'s actions amounts to: at most one `notify` and at most one start. */
  lemma DecidedEffects(d: StringMap, prefs: Prefs, env: Env, shown: map<int, Notification>)
    ensures var st := ReadSettings(prefs);
            Shown(shown, Decide(d, prefs, env))
            == if st.criticalOn then shown[NotifId(d, env) := BuildNotification(Title(d), Body(d), d, CH_CRITICAL, true, env)]
               else if st.normalOn then shown[NotifId(d, env) := BuildNotification(Title(d), Body(d), d, CH_NORMAL, false, env)]
               else shown
    ensures Started(Decide(d, prefs, env))
            == if ReadSettings(prefs).criticalOn then [ServiceIntent(d, Title(d), Body(d), ReadSettings(prefs).untilStopped, env)] else []
  {
    var acts := Decide(d, prefs, env);
    if ReadSettings(prefs).criticalOn {
      assert Shown(shown, acts) == Shown(shown, acts[1..]);
      assert Shown(shown, acts[1..]) == Shown(shown[acts[1].id := acts[1].notification], acts[2..]);
      assert Started(acts) == [acts[0].intent] + Started(acts[1..]);
      assert Started(acts[1..]) == [] + Started(acts[2..]);
    }
  }

  // ---------------------------------------------------------------------
  // The receiver, acting on the platform
  // ---------------------------------------------------------------------

  class BackgroundReceiver {
    /** Build.VERSION.SDK_INT. */
    const sdkInt: int
    /** Whether `startForegroundService` throws on this device. */
    const startServiceThrows: bool
    /** The notification channels the notification manager holds. */
    var channels: map<string, Channel>
    /** The notifications on display, by id. */
    var shown: map<int, Notification>
    /** The service starts that were accepted, in order. */
    var serviceStarts: seq<Intent>

    constructor (sdkInt: int, startServiceThrows: bool, channels: map<string, Channel>)
      ensures this.sdkInt == sdkInt && this.startServiceThrows == startServiceThrows
      ensures this.channels == channels && shown == map[] && serviceStarts == []
    {
      this.sdkInt := sdkInt;
      this.startServiceThrows := startServiceThrows;
      this.channels := channels;
      shown := map[];
      serviceStarts := [];
    }

    /**
     * `onMessageReceived`. The notifications shown do not depend on whether
     * the service start throws: the critical heads-up is posted either way.
     */
    method OnMessageReceived(d: StringMap, prefs: Prefs, env: Env)
      modifies this`channels, this`shown, this`serviceStarts
      ensures channels == EnsuredChannels(old(channels), sdkInt)
      ensures shown == Shown(old(shown), Decide(d, prefs, env))
      ensures serviceStarts == old(serviceStarts) + (if startServiceThrows then [] else Started(Decide(d, prefs, env)))
    {
      var title := Title(d);
      var body := Body(d);
      var notifId := NotifId(d, env);
      var criticalOn := GetBoolean(prefs, K_CRITICAL_ON, true);
      var normalOn := GetBoolean(prefs, K_NORMAL_ON, true);
      var untilStopped := GetBoolean(prefs, K_UNTIL_STOP, true);
      // only logged
      var payloadCritical := ComputePayloadCritical(d, env);
      EnsureChannels();
      if criticalOn {
        if !startServiceThrows {
          serviceStarts := serviceStarts + [ServiceIntent(d, title, body, untilStopped, env)];
        }
        // a throwing start is caught and logged
        PostNotification(notifId, title, body, d, CH_CRITICAL, true, env);
        DecidedEffects(d, prefs, env, old(shown));
        return;
      }
      if normalOn {
        PostNotification(notifId, title, body, d, CH_NORMAL, false, env);
      }
      DecidedEffects(d, prefs, env, old(shown));
    }

    method PostNotification(notifId: int, title: string, body: string, d: StringMap, channelId: string, headsUp: bool, env: Env)
      modifies this`shown
      ensures shown == old(shown)[notifId := BuildNotification(title, body, d, channelId, headsUp, env)]
    {
      var n := BuildNotification(title, body, d, channelId, headsUp, env);
      shown := shown[notifId := n];
    }

    method EnsureChannels()
      modifies this`channels
      ensures channels == EnsuredChannels(old(channels), sdkInt)
    {
      if sdkInt < SDK_O {
        return;
      }
      if CH_CRITICAL !in channels {
        channels := channels[CH_CRITICAL := CriticalChannel()];
      }
      if CH_NORMAL !in channels {
        channels := channels[CH_NORMAL := NormalChannel()];
      }
    }
  }

  // ---------------------------------------------------------------------
  // Lemmas
  // ---------------------------------------------------------------------

  /** The tap action carries the title, the body, the payload as JSON ("{}" if that fails) and `actionUrl` when present. */
  lemma DetailIntentContents(title: string, body: string, d: StringMap, env: Env)
    ensures var i := DetailIntent(title, body, d, env);
            i.target == DetailActivityComponent && i.action.None?
            && i.extras.Keys == {"title", "body", "data_json"} + (if "actionUrl" in d then {"actionUrl"} else {})
            && i.extras["title"] == StringExtra(title) && i.extras["body"] == StringExtra(body)
            && i.extras["data_json"] == StringExtra(if env.toJson(d).Some? then env.toJson(d).value else "{}")
            && ("actionUrl" in d ==> i.extras["actionUrl"] == StringExtra(d["actionUrl"]))
  {
  }

  /**
   * The intent that asks the sound service to ring: `loop` and the
   * auto-stop interval follow `untilStopped`, the foreground notification
   * is silent, and the stream-volume extra is present exactly when the
   * payload's level parses. The service reads it back as a session that
   * loops exactly when `untilStopped` and otherwise stops after a minute.
   */
  lemma ServiceIntentContents(d: StringMap, title: string, body: string, untilStopped: bool, env: Env)
    ensures var i := ServiceIntent(d, title, body, untilStopped, env);
            i.target == SoundServiceComponent && i.action.None?
            && i.extras.Keys == {AlarmSession.EXTRA_TITLE, AlarmSession.EXTRA_BODY, AlarmSession.EXTRA_AUTO_STOP_MS,
                                 AlarmSession.EXTRA_GAIN, AlarmSession.EXTRA_SOUND_RES_NAME, AlarmSession.EXTRA_SILENT,
                                 AlarmSession.EXTRA_LOOP}
                                + (if StreamVolume(d, env).Some? then {AlarmSession.EXTRA_SET_STREAM_VOL} else {})
            && i.extras[AlarmSession.EXTRA_TITLE] == StringExtra(if "svc_title" in d then d["svc_title"] else title)
            && i.extras[AlarmSession.EXTRA_BODY] == StringExtra(if "svc_body" in d then d["svc_body"] else body)
            && i.extras[AlarmSession.EXTRA_GAIN] == FloatExtra(Gain(d, env))
            && i.extras[AlarmSession.EXTRA_SOUND_RES_NAME] == StringExtra(if "sound_res" in d then d["sound_res"] else DEFAULT_SOUND)
            && (StreamVolume(d, env).Some? ==> i.extras[AlarmSession.EXTRA_SET_STREAM_VOL] == IntExtra(StreamVolume(d, env).value))
            && AlarmSession.RequestedLoop(Some(i)) == untilStopped
            && AlarmSession.AutoStopDelay(Some(i)) == (if untilStopped then 0 else ONE_SHOT_AUTO_STOP_MS)
            && GetBooleanExtra(Some(i), AlarmSession.EXTRA_SILENT, false)
  {
  }

  /**
   * Critical on: one service start with `loop = untilStopped`,
   * `auto_stop_ms` 0 or 60000 and `silent = true`, and one heads-up on the
   * critical channel at PRIORITY_MAX with the stop action; nothing on the
   * normal channel.
   */
  lemma CriticalPolicy(d: StringMap, prefs: Prefs, env: Env)
    requires ReadSettings(prefs).criticalOn
    ensures var acts := Decide(d, prefs, env);
            var until := ReadSettings(prefs).untilStopped;
            |acts| == 2 && acts[0].StartService? && acts[1].Post?
            && Started(acts) == [acts[0].intent]
            && acts[0].intent.target == SoundServiceComponent && acts[0].intent.action.None?
            && acts[0].intent.extras[AlarmSession.EXTRA_LOOP] == BoolExtra(until)
            && acts[0].intent.extras[AlarmSession.EXTRA_AUTO_STOP_MS] == LongExtra(if until then 0 else 60000)
            && acts[0].intent.extras[AlarmSession.EXTRA_SILENT] == BoolExtra(true)
            && acts[1].notification.channelId == CH_CRITICAL
            && acts[1].notification.priority == PriorityMax
            && acts[1].notification.stopAction == Some(AlarmSession.StopIntent())
            && (forall a :: a in acts && a.Post? ==> a.notification.channelId != CH_NORMAL)
  {
    var acts := Decide(d, prefs, env);
    assert Started(acts) == [acts[0].intent] + Started(acts[1..]);
    assert Started(acts[1..]) == [] + Started(acts[2..]);
  }

  /**
   * Critical off, normal on: exactly one notification, on the normal
   * channel at PRIORITY_DEFAULT without a stop action, and no service start.
   */
  lemma NormalPolicy(d: StringMap, prefs: Prefs, env: Env)
    requires !ReadSettings(prefs).criticalOn && ReadSettings(prefs).normalOn
    ensures var acts := Decide(d, prefs, env);
            |acts| == 1 && acts[0].Post?
            && acts[0].notification.channelId == CH_NORMAL
            && acts[0].notification.priority == PriorityDefault
            && acts[0].notification.stopAction.None?
            && acts[0].notification.title == (if "title" in d then d["title"] else "알림")
            && acts[0].notification.body == (if "body" in d then d["body"] else "")
            && Started(acts) == []
  {
  }

  /** Both off: nothing is posted and no service start is requested. */
  lemma SuppressPolicy(d: StringMap, prefs: Prefs, env: Env, shown: map<int, Notification>)
    requires !ReadSettings(prefs).criticalOn && !ReadSettings(prefs).normalOn
    ensures Decide(d, prefs, env) == [Suppress]
    ensures Shown(shown, Decide(d, prefs, env)) == shown && Started(Decide(d, prefs, env)) == []
  {
  }

  /**
   * The branch taken, the channels, priorities and stop actions depend on
   * the settings alone: no payload, and so no value of `payloadCritical`,
   * changes them, and neither do the foreign parsers.
   */
  lemma BranchIgnoresPayload(d1: StringMap, d2: StringMap, prefs: Prefs, env1: Env, env2: Env)
    ensures Shape(Decide(d1, prefs, env1)) == Shape(Decide(d2, prefs, env2))
  {
  }

  /** A payload that asks for a critical alert cannot turn one on when the user's setting is off. */
  lemma HintDoesNotPromote(d: StringMap, prefs: Prefs, env: Env)
    requires !ReadSettings(prefs).criticalOn && PayloadCritical(d, env)
    ensures forall a :: a in Decide(d, prefs, env) ==>
              !a.StartService? && (a.Post? ==> a.notification.channelId == CH_NORMAL && a.notification.stopAction.None?)
  {
  }

  /**
   * The defaulted fields: title "알림" and body "", the service's gain 1.0
   * unless it parses as a float, its sound "critical_alert", and the
   * stream-volume extra present exactly when it parses as an integer.
   */
  lemma PayloadDefaults(d: StringMap, prefs: Prefs, env: Env)
    requires ReadSettings(prefs).criticalOn
    ensures var acts := Decide(d, prefs, env);
            var x := acts[0].intent.extras;
            var n := acts[1].notification;
            n.title == (if "title" in d then d["title"] else "알림")
            && n.body == (if "body" in d then d["body"] else "")
            && x[AlarmSession.EXTRA_TITLE] == StringExtra(if "svc_title" in d then d["svc_title"] else n.title)
            && x[AlarmSession.EXTRA_BODY] == StringExtra(if "svc_body" in d then d["svc_body"] else n.body)
            && x[AlarmSession.EXTRA_GAIN] == FloatExtra(
                 if "gain" in d && env.toFloatOrNull(d["gain"]).Some? then env.toFloatOrNull(d["gain"]).value else 1.0)
            && x[AlarmSession.EXTRA_SOUND_RES_NAME] == StringExtra(if "sound_res" in d then d["sound_res"] else "critical_alert")
            && (AlarmSession.EXTRA_SET_STREAM_VOL in x <==>
                  "alarm_stream_volume" in d && env.toIntOrNull(d["alarm_stream_volume"]).Some?)
            && (AlarmSession.EXTRA_SET_STREAM_VOL in x ==>
                  x[AlarmSession.EXTRA_SET_STREAM_VOL] == IntExtra(env.toIntOrNull(d["alarm_stream_volume"]).value))
  {
    ServiceIntentContents(d, Title(d), Body(d), ReadSettings(prefs).untilStopped, env);
  }

  /** A malformed `ios_config` leaves the hint false whatever the top-level fields say. */
  lemma MalformedIosConfigIgnored(d: StringMap, env: Env)
    requires IosConfigMalformed(d, env)
    ensures !PayloadCritical(d, env)
  {
  }

  /** Ensuring the channels a second time changes nothing. */
  lemma EnsureChannelsIdempotent(channels: map<string, Channel>, sdkInt: int)
    ensures EnsuredChannels(EnsuredChannels(channels, sdkInt), sdkInt) == EnsuredChannels(channels, sdkInt)
  {
  }

  /**
   * The receiver's start request, delivered to the sound service that reads
   * the same preferences, passes its guard; the session it starts loops
   * exactly when the user asked to ring until stopped, arms a 60-second
   * timer exactly when it does not, plays at a gain in [0, 1], and keeps its
   * own foreground notification silent.
   */
  lemma ReceiverDrivesService(d: StringMap, prefs: Prefs, env: Env, s: AlarmSession.State, dev: AlarmSession.Device)
    requires ReadSettings(prefs).criticalOn && dev.prefs == prefs
    requires AlarmSession.Valid(s, dev) && s.player.None? && dev.playerCreateSucceeds
    ensures var intent := Some(Decide(d, prefs, env)[0].intent);
            var until := ReadSettings(prefs).untilStopped;
            var (r, mode) := AlarmSession.OnStartCommand(s, dev, intent);
            mode == AlarmSession.StartSticky
            && AlarmSession.AutoStopDelay(intent) == (if until then 0 else 60000)
            && r.player.Some? && r.player.value.looping == until
            && 0.0 <= r.player.value.gain <= 1.0
            && (r.autoStopRunnable.Some? <==> !until)
            && (!until ==> r.handlerQueue == [AlarmSession.Posted(r.autoStopRunnable.value, 60000)])
            && r.foreground.Some? && r.foreground.value.silent
  {
    ServiceIntentContents(d, Title(d), Body(d), ReadSettings(prefs).untilStopped, env);
  }

  /**
   * A push whose payload is only `gain` "0.5", with critical alerts on and
   * one-shot ringing: the service it starts plays at gain 0.5 with no
   * stream-volume override and a 60-second timer pending; the timer firing
   * brings the session back to idle with the alarm volume untouched.
   */
  lemma PayloadHalfGainScenario(prefs: Prefs, env: Env, s: AlarmSession.State, dev: AlarmSession.Device)
    requires ReadSettings(prefs).criticalOn && !ReadSettings(prefs).untilStopped
    requires dev.prefs == prefs && dev.playerCreateSucceeds
    requires env.toFloatOrNull("0.5") == Some(0.5)
    requires AlarmSession.Valid(s, dev) && AlarmSession.Idle(s)
    ensures var d := map["gain" := "0.5"];
            var intent := Some(Decide(d, prefs, env)[0].intent);
            var playing := AlarmSession.Step(s, dev, AlarmSession.StartCommand(intent));
            var done := AlarmSession.Step(playing, dev, AlarmSession.AutoStopFires);
            AlarmSession.EXTRA_SET_STREAM_VOL !in intent.value.extras
            && playing.player.Some? && playing.player.value.gain == 0.5 && !playing.player.value.looping
            && playing.origAlarmVol.None?
            && playing.handlerQueue == [AlarmSession.Posted(playing.autoStopRunnable.value, 60000)]
            && AlarmSession.Idle(done) && done.handlerQueue == [] && done.alarmVolume == s.alarmVolume
  {
    var d := map["gain" := "0.5"];
    ServiceIntentContents(d, Title(d), Body(d), false, env);
  }
}
