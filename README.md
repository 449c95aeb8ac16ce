# Critical-alarm push handling, modelled in Dafny

This project models the two pieces of the Android side of the gf_alarm_api
app that make decisions:

- **The push-message policy** (`BackgroundReceiver.onMessageReceived`). A push
  message is a flat string map. The receiver reads three persisted booleans:
  critical alerts on, normal alerts on, and ring until stopped. Missing
  settings read as on. It then acts by a priority cascade:
  - critical on: ask the alarm-sound service to ring, and post a heads-up on
    the critical channel `alarm_channel_v4` with a stop action;
  - otherwise normal on: post a default-priority notification on
    `normal_channel_v1`;
  - otherwise: nothing is shown.

  The payload's own "critical" hints (`ios_config`, `critical`,
  `interruptionLevel`) are parsed for the log only.
- **The alarm-sound session** (`AlarmSoundService`). This is the foreground
  service that plays the alarm. It holds at most one player, the system
  alarm volume saved before an override, and at most one pending auto-stop
  timer. It is driven by start and STOP commands, the timer, the end of
  playback and destruction.

Modules:

- `Wrappers`: the optional value that stands for Kotlin's nullable types.
- `Platform`: the Android pieces reduced to values. This covers intents with
  typed extras and their `get…Extra` readers, notifications, channels,
  `SharedPreferences.getBoolean` and `isNullOrBlank`.
- `AlarmSession`: the service as a state machine on values. The session
  fields and the platform state they touch form a `State`. Each entry point
  of the service is a transition function; `Step` and `Run` deliver the main
  looper's callbacks one at a time. The lemmas about the session live here.
- `SoundService`: the class `AlarmSoundService`. It has the Kotlin fields,
  and its methods update them step by step as the Kotlin methods do. Each
  method is proved to end in the state that the matching `AlarmSession`
  function describes.
- `Receiver`: the receiver's functions (`PayloadCritical`,
  `BuildNotification`, `ServiceIntent`, `EnsuredChannels`) and the policy
  `Decide`, which returns a list of actions: `StartService(intent)`, `Post(id,
  notification)` or `Suppress`. The class `BackgroundReceiver` performs
  these actions on the channels, the notifications on display and the
  accepted service starts. The lemmas state the decision table and the
  defaults, show that the payload hint is irrelevant, and connect the
  receiver's start request to the session it starts.

Platform conditions that can make a call fail are explicit inputs:
- `Device.overrideVolumeSucceeds`: the `setStreamVolume` call that overrides
  the alarm level throws when it is false;
- `Device.restoreVolumeSucceeds`: the separate `setStreamVolume` call that
  restores the saved level at teardown throws when it is false. The saved
  level is then dropped anyway, and the stream stays at the overridden level
  (`AlarmSession.FailedRestoreKeepsOverride`);
- `Device.playerCreateSucceeds`: creating or starting the `MediaPlayer` throws
  when it is false;
- `BackgroundReceiver.startServiceThrows`: `startForegroundService` throws.

The foreign parsers are opaque total functions held in `Receiver.Env`. They
are `toFloatOrNull`, `toIntOrNull`, the `JSONObject` constructor and
serialiser, `String.hashCode`, and the text of the current time.

Where the design description and the code differ, the model follows the code:

- The design says a start request during playback is ignored. In the code,
  such a request still re-posts the foreground notification, and it cancels
  and re-arms the auto-stop timer (`resetAutoStop` runs on every start). See
  `AlarmSession.SecondStartRearmsTimer`.
- When the player fails to start, `startPlayer` tears the session down. Then
  `onStartCommand` still arms a timer and answers `START_STICKY`. See
  `AlarmSession.FailedStartArmsTimer`.
- A malformed `ios_config` skips the top-level `critical`/`interruptionLevel`
  check too, because both sit in the same `try`. See
  `Receiver.PayloadCritical`.
- `App.kt` (not part of this model) creates a channel `alarm_channel_v3`. The
  receiver and the service post on `alarm_channel_v4`, which only
  `ensureChannels` creates.

## Model

| member | source | states |
|---|---|---|
| `Receiver.ReadSettings` | android/app/src/main/kotlin/com/example/gf_alarm_api/BackgroundReceiver.kt:39-41 | each of the three settings is the stored value, and reads as true when it is missing |
| `Receiver.PayloadCritical` | android/app/src/main/kotlin/com/example/gf_alarm_api/BackgroundReceiver.kt:44-56 | a malformed non-blank `ios_config` gives false; otherwise the hint is true iff the parsed `ios_config` or a top-level field asks for a critical alert |
| `Receiver.ComputePayloadCritical` | android/app/src/main/kotlin/com/example/gf_alarm_api/BackgroundReceiver.kt:44-56 | the step-by-step `var` updates inside the `try` compute exactly `PayloadCritical` |
| `Receiver.Decide` | android/app/src/main/kotlin/com/example/gf_alarm_api/BackgroundReceiver.kt:31-111 | critical on: a service start with `ServiceIntent` of the payload, then one post on `alarm_channel_v4`; critical off and normal on: one post on `normal_channel_v1`; both off: only Suppress. Every post has the id `NotifId`, the title "알림" and body "" unless the payload gives them |
| `Receiver.DecidedEffects` | android/app/src/main/kotlin/com/example/gf_alarm_api/BackgroundReceiver.kt:69-110 | performing the decided actions amounts to one `notify` on the critical or normal channel, or none when both settings are off, and one service start exactly when critical is on |
| `Receiver.Title` | android/app/src/main/kotlin/com/example/gf_alarm_api/BackgroundReceiver.kt:33 | the payload's `title`, and "알림" without one |
| `Receiver.Body` | android/app/src/main/kotlin/com/example/gf_alarm_api/BackgroundReceiver.kt:34 | the payload's `body`, and "" without one |
| `Receiver.TopLevelHint` | android/app/src/main/kotlin/com/example/gf_alarm_api/BackgroundReceiver.kt:53-54 | true exactly when `critical` is "true" or "1", or `interruptionLevel` is "critical" |
| `Receiver.CriticalChannel` | android/app/src/main/kotlin/com/example/gf_alarm_api/BackgroundReceiver.kt:175-182 | "Critical Alerts", high importance, bypasses Do Not Disturb, public on the lock screen |
| `Receiver.NormalChannel` | android/app/src/main/kotlin/com/example/gf_alarm_api/BackgroundReceiver.kt:189-195 | "General Alerts", default importance, does not bypass Do Not Disturb |
| `Receiver.Shown` | android/app/src/main/kotlin/com/example/gf_alarm_api/BackgroundReceiver.kt:164 | the ids shown afterwards are the old ones plus every posted id; an id no action posts keeps its notification; the last post replaces whatever was under its id |
| `Receiver.Started` | android/app/src/main/kotlin/com/example/gf_alarm_api/BackgroundReceiver.kt:95 | an intent is started exactly when a StartService action carries it; there are no more starts than actions |
| `Receiver.PayloadHalfGainScenario` | android/app/src/main/kotlin/com/example/gf_alarm_api/BackgroundReceiver.kt:72-95 | a payload with only `gain` "0.5", critical on and one-shot ringing, starts a session with no stream-volume override that plays at 0.5 with one 60-second timer; the timer firing returns to idle with the volume untouched |
| `Receiver.NotifId` | android/app/src/main/kotlin/com/example/gf_alarm_api/BackgroundReceiver.kt:35 | the id is the hash of the payload's `notifId`, or of the current time's text when there is none |
| `Receiver.Gain` | android/app/src/main/kotlin/com/example/gf_alarm_api/BackgroundReceiver.kt:83 | the payload's `gain` when it parses as a float, 1.0 when it is missing or does not parse |
| `Receiver.StreamVolume` | android/app/src/main/kotlin/com/example/gf_alarm_api/BackgroundReceiver.kt:84-86 | present iff the payload's `alarm_stream_volume` is there and parses as an integer, and then that integer |
| `Receiver.ServiceIntentContents` | android/app/src/main/kotlin/com/example/gf_alarm_api/BackgroundReceiver.kt:72-94 | addressed to the sound service with no action and exactly the extras the receiver puts; `svc_title`/`svc_body` override the title and body; gain, sound (default "critical_alert"), the stream-volume extra iff the level parses; the service reads it back as `loop = untilStopped`, an auto-stop delay 0 when untilStopped and 60000 otherwise, and a silent foreground notification |
| `Receiver.DetailIntentContents` | android/app/src/main/kotlin/com/example/gf_alarm_api/BackgroundReceiver.kt:122-129 | the tap opens the detail screen with the title, the body, the payload as JSON or "{}" when serialising fails, and an `actionUrl` that reads back as the payload's, present exactly when the payload has one |
| `Receiver.BuildNotification` | android/app/src/main/kotlin/com/example/gf_alarm_api/BackgroundReceiver.kt:113-161 | a stop action exists iff the channel is critical, and it sends ACTION_STOP to the sound service; PRIORITY_MAX iff critical and heads-up, PRIORITY_DEFAULT otherwise; alarm vs message category; the tap opens the detail screen with the payload as JSON; ticker from the payload |
| `Receiver.EnsuredChannels` | android/app/src/main/kotlin/com/example/gf_alarm_api/BackgroundReceiver.kt:167-198 | existing channels are kept unchanged; from API 26 on both channels exist afterwards, and a missing one is created with its fixed settings; below API 26 nothing changes |
| `Receiver.EnsureChannelsIdempotent` | android/app/src/main/kotlin/com/example/gf_alarm_api/BackgroundReceiver.kt:167-198 | ensuring the channels twice is the same as once |
| `Receiver.CriticalPolicy` | android/app/src/main/kotlin/com/example/gf_alarm_api/BackgroundReceiver.kt:69-102 | critical on: exactly one service start and one post. The start has `loop = untilStopped`, `auto_stop_ms` 0 when untilStopped and 60000 otherwise, and `silent = true`. The post is on `alarm_channel_v4` at PRIORITY_MAX with the STOP action. Nothing goes to the normal channel |
| `Receiver.NormalPolicy` | android/app/src/main/kotlin/com/example/gf_alarm_api/BackgroundReceiver.kt:104-110 | critical off and normal on: exactly one post, on `normal_channel_v1` at PRIORITY_DEFAULT with no stop action, and no service start |
| `Receiver.SuppressPolicy` | android/app/src/main/kotlin/com/example/gf_alarm_api/BackgroundReceiver.kt:106-110 | both settings off: the only action is Suppress; nothing new is shown and no service start is requested |
| `Receiver.BranchIgnoresPayload` | android/app/src/main/kotlin/com/example/gf_alarm_api/BackgroundReceiver.kt:39-110 | the branch, channels, priorities and stop actions are the same for every payload and every parser behaviour: they depend on the settings alone |
| `Receiver.HintDoesNotPromote` | android/app/src/main/kotlin/com/example/gf_alarm_api/BackgroundReceiver.kt:43-69 | with critical off, a payload whose hint is true still starts no service and posts nothing critical |
| `Receiver.PayloadDefaults` | android/app/src/main/kotlin/com/example/gf_alarm_api/BackgroundReceiver.kt:33-93 | title defaults to "알림" and body to ""; `svc_title`/`svc_body` override them for the service; gain is 1.0 unless it parses as a float; `sound_res` defaults to "critical_alert"; the stream-volume extra is present iff the value parses as an integer, and then carries it |
| `Receiver.MalformedIosConfigIgnored` | android/app/src/main/kotlin/com/example/gf_alarm_api/BackgroundReceiver.kt:46-56 | a non-blank `ios_config` that fails to parse leaves `payloadCritical` false whatever the top-level fields say |
| `Receiver.ReceiverDrivesService` | android/app/src/main/kotlin/com/example/gf_alarm_api/BackgroundReceiver.kt:72-95 | the receiver's start intent, delivered to an idle service using the same preferences, is answered START_STICKY. The player loops iff untilStopped, the gain lies in [0, 1], a 60-second timer is pending iff not untilStopped, and the foreground notification is silent |
| `Receiver.BackgroundReceiver.OnMessageReceived` | android/app/src/main/kotlin/com/example/gf_alarm_api/BackgroundReceiver.kt:31-111 | channels are ensured, the notifications shown are those `Decide` posts whether or not the service start throws, and the accepted service starts are those `Decide` requests unless starting throws |
| `Receiver.BackgroundReceiver.PostNotification` | android/app/src/main/kotlin/com/example/gf_alarm_api/BackgroundReceiver.kt:113-165 | the built notification replaces whatever was shown under the same id |
| `Receiver.BackgroundReceiver.EnsureChannels` | android/app/src/main/kotlin/com/example/gf_alarm_api/BackgroundReceiver.kt:167-198 | the channels become `EnsuredChannels` of the old ones |
| `Platform.GetBoolean` | android/app/src/main/kotlin/com/example/gf_alarm_api/BackgroundReceiver.kt:39-41 | a stored setting reads as its value, a missing one as the default |
| `Platform.GetStringExtra` | android/app/src/main/kotlin/com/example/gf_alarm_api/AlarmSoundService.kt:69-70 | present iff the intent has a string extra under the key, and then that string |
| `Platform.GetBooleanExtra` | android/app/src/main/kotlin/com/example/gf_alarm_api/AlarmSoundService.kt:63 | the boolean extra under the key, or the default when there is no intent, no such extra or one of another type |
| `Platform.GetIntExtra` | android/app/src/main/kotlin/com/example/gf_alarm_api/AlarmSoundService.kt:79 | the int extra under the key, or the default otherwise |
| `Platform.GetLongExtra` | android/app/src/main/kotlin/com/example/gf_alarm_api/AlarmSoundService.kt:87-88 | the long extra under the key, or the default otherwise |
| `Platform.GetFloatExtra` | android/app/src/main/kotlin/com/example/gf_alarm_api/AlarmSoundService.kt:78 | the float extra under the key, or the default otherwise |
| `Platform.PutThenGetExtra` | android/app/src/main/kotlin/com/example/gf_alarm_api/BackgroundReceiver.kt:72-94 | an extra put under a key is read back unchanged by the reader of its type; a reader of any other type sees its default, null for the string reader |
| `Platform.IsNullOrBlank` | android/app/src/main/kotlin/com/example/gf_alarm_api/AlarmSoundService.kt:179 | null and the empty string are blank, and a string is non-blank exactly when it has a non-whitespace character, so a whitespace-only string is blank |
| `AlarmSession.StopIntent` | android/app/src/main/kotlin/com/example/gf_alarm_api/AlarmSoundService.kt:105 | the STOP intent is addressed to the sound service with action "STOP" and no extras, and the service recognises it as a stop command |
| `AlarmSession.CriticalEnabled` | android/app/src/main/kotlin/com/example/gf_alarm_api/AlarmSoundService.kt:54-55 | the persisted critical setting, on when missing |
| `AlarmSession.RequestedLoop` | android/app/src/main/kotlin/com/example/gf_alarm_api/AlarmSoundService.kt:63 | true exactly when the intent carries a boolean `loop` extra that is true |
| `AlarmSession.ResolvedSound` | android/app/src/main/kotlin/com/example/gf_alarm_api/AlarmSoundService.kt:156 | the raw id of a non-blank `sound_res` name that resolves to a nonzero id, otherwise `R.raw.critical_alert` |
| `AlarmSession.RestoredVolume` | android/app/src/main/kotlin/com/example/gf_alarm_api/AlarmSoundService.kt:193-199 | the saved level when one is saved and restoring succeeds, otherwise the current level |
| `AlarmSession.CoerceGain` | android/app/src/main/kotlin/com/example/gf_alarm_api/AlarmSoundService.kt:78 | the gain lies in [0, 1]; a gain inside the range is kept, one below becomes 0 and one above becomes 1 |
| `AlarmSession.CoerceLevel` | android/app/src/main/kotlin/com/example/gf_alarm_api/AlarmSoundService.kt:146 | the applied level lies in [0, max]; an in-range level is kept, values under 0 become 0 and values over max become max |
| `AlarmSession.ResolveRawResId` | android/app/src/main/kotlin/com/example/gf_alarm_api/AlarmSoundService.kt:178-182 | null iff the name is null or blank or `getIdentifier` answers 0; otherwise the nonzero id of the name |
| `AlarmSession.Without` | android/app/src/main/kotlin/com/example/gf_alarm_api/AlarmSoundService.kt:95 | `removeCallbacks` leaves no posting of the removed runnable, and keeps every other posting |
| `AlarmSession.ForegroundNotification` | android/app/src/main/kotlin/com/example/gf_alarm_api/AlarmSoundService.kt:104-131 | the foreground notification is ongoing with the STOP action on `alarm_channel_v4`. Silent gives PRIORITY_LOW, the service category and a silent notification. Otherwise it gets PRIORITY_MAX and the alarm category |
| `AlarmSession.RequestedGain` | android/app/src/main/kotlin/com/example/gf_alarm_api/AlarmSoundService.kt:78 | the gain extra clamped to [0, 1]: an in-range extra is kept, one above 1 gives 1 and one below 0 gives 0; no float extra gives 1.0 |
| `AlarmSession.AutoStopDelay` | android/app/src/main/kotlin/com/example/gf_alarm_api/AlarmSoundService.kt:63-89 | 0 when looping; otherwise the `auto_stop_ms` long extra, and 60000 without one |
| `AlarmSession.StopSelfSafely` | android/app/src/main/kotlin/com/example/gf_alarm_api/AlarmSoundService.kt:184-206 | afterwards player, saved volume, timer and foreground notification are all gone, even when releasing or restoring fails. The volume is the saved one if one was saved and restoring succeeds. When the timer field and the handler's queue agree beforehand, the queue is empty afterwards |
| `AlarmSession.ResetAutoStop` | android/app/src/main/kotlin/com/example/gf_alarm_api/AlarmSoundService.kt:94-102 | a timer is held iff `ms > 0`, each time a new runnable. The old one is cancelled first, so at most one is pending. Nothing else changes |
| `AlarmSession.StartAsForeground` | android/app/src/main/kotlin/com/example/gf_alarm_api/AlarmSoundService.kt:104-131 | the foreground notification is replaced; nothing else changes |
| `AlarmSession.OverrideVolume` | android/app/src/main/kotlin/com/example/gf_alarm_api/AlarmSoundService.kt:142-153 | the pre-override level is saved unless one is saved already; the clamped level is applied, or the level stays when `setStreamVolume` throws; nothing else changes |
| `AlarmSession.StartPlayer` | android/app/src/main/kotlin/com/example/gf_alarm_api/AlarmSoundService.kt:133-176 | an existing player leaves everything unchanged. Otherwise the resolved sound is played, or the fallback; the completion listener exists iff not looping; the volume is saved and overridden only when `absAlarmVol >= 0`; timer, queue and runnable counter are unchanged. A failed start ends idle, with the queue empty and the level from before the session when restoring succeeds, otherwise the level the override left |
| `AlarmSession.OnStartCommand` | android/app/src/main/kotlin/com/example/gf_alarm_api/AlarmSoundService.kt:47-92 | STOP, or the critical setting off, gives START_NOT_STICKY and an idle session with the volume restored. Otherwise START_STICKY: the queue holds exactly one posting with the auto-stop delay (0 when looping, default 60000) when it is positive, and nothing otherwise; an existing player is kept with its saved and current volume; a new one gets the resolved sound, the clamped gain, the loop flag and a listener iff not looping, and the `set_stream_volume` level is saved and applied as `startPlayer` does; a failed start ends without player or notification, with the volume as after a failed `startPlayer` |
| `AlarmSession.AutoStopFired` | android/app/src/main/kotlin/com/example/gf_alarm_api/AlarmSoundService.kt:96-98 | a pending timer ends the session with the volume restored; with none pending nothing changes |
| `AlarmSession.PlaybackCompleted` | android/app/src/main/kotlin/com/example/gf_alarm_api/AlarmSoundService.kt:167-169 | completion ends the session only when a completion listener is registered; otherwise nothing changes |
| `AlarmSession.Step` | android/app/src/main/kotlin/com/example/gf_alarm_api/AlarmSoundService.kt:47-211 | every callback keeps the session invariant: at most one pending timer and it is the held one; a saved volume only with a player and in range; a player only with a gain in [0, 1], a listener iff not looping and a foreground notification; the alarm volume in [0, max] |
| `AlarmSession.Run` | android/app/src/main/kotlin/com/example/gf_alarm_api/AlarmSoundService.kt:47-211 | every state reached by a serialised run of callbacks keeps the session invariant |
| `AlarmSession.StopIsIdempotent` | android/app/src/main/kotlin/com/example/gf_alarm_api/AlarmSoundService.kt:184-206 | a second teardown changes nothing, the volume included |
| `AlarmSession.StopWhenIdleHasNoEffect` | android/app/src/main/kotlin/com/example/gf_alarm_api/AlarmSoundService.kt:48-51 | a STOP command to an idle service leaves the state unchanged and answers START_NOT_STICKY |
| `AlarmSession.StepRemembersVolume` | android/app/src/main/kotlin/com/example/gf_alarm_api/AlarmSoundService.kt:142-199 | while restoring succeeds, every callback keeps the saved volume equal to the level from before the first override, and the current level equal to it while none is saved or when overriding throws |
| `AlarmSession.RunRemembersVolume` | android/app/src/main/kotlin/com/example/gf_alarm_api/AlarmSoundService.kt:142-199 | while restoring succeeds, across any run the saved volume is never overwritten, and teardown puts back the level from before the first override |
| `AlarmSession.SessionRestoresVolume` | android/app/src/main/kotlin/com/example/gf_alarm_api/AlarmSoundService.kt:192-199 | while restoring succeeds, from a state with no saved volume, a run that ends without one leaves the alarm volume as it was at the start |
| `AlarmSession.StopEndsEveryRun` | android/app/src/main/kotlin/com/example/gf_alarm_api/AlarmSoundService.kt:48-51 | any run followed by a STOP command ends idle with nothing pending |
| `AlarmSession.SecondStartRearmsTimer` | android/app/src/main/kotlin/com/example/gf_alarm_api/AlarmSoundService.kt:77-102 | a start while playing keeps the player and the saved volume, and replaces the pending timer with a new one |
| `AlarmSession.FailedStartArmsTimer` | android/app/src/main/kotlin/com/example/gf_alarm_api/AlarmSoundService.kt:77-92 | a start whose player fails answers START_STICKY with no player and no notification, yet with a timer pending |
| `AlarmSession.CompletionStopsOnlyOneShotPlayers` | android/app/src/main/kotlin/com/example/gf_alarm_api/AlarmSoundService.kt:159-169 | the end of playback ends the session for a non-looping player and changes nothing for a looping one |
| `AlarmSession.TimerEndsSession` | android/app/src/main/kotlin/com/example/gf_alarm_api/AlarmSoundService.kt:94-98 | a firing timer ends the session, leaves nothing pending and restores the saved volume |
| `AlarmSession.HalfGainScenario` | android/app/src/main/kotlin/com/example/gf_alarm_api/AlarmSoundService.kt:77-102 | a one-shot start at gain 0.5 plays at 0.5 with one 60-second timer pending; the timer firing returns to idle with the original volume, with no override asked for, or with one when restoring succeeds |
| `AlarmSession.FailedRestoreKeepsOverride` | android/app/src/main/kotlin/com/example/gf_alarm_api/AlarmSoundService.kt:142-199 | when the override succeeds and the restore throws, teardown still drops the saved level and the alarm stream stays at the clamped override |
| `SoundService.AlarmSoundService.constructor` | android/app/src/main/kotlin/com/example/gf_alarm_api/AlarmSoundService.kt:40-45 | a new service has all three fields null, nothing posted, and satisfies the invariant |
| `SoundService.AlarmSoundService.OnStartCommand` | android/app/src/main/kotlin/com/example/gf_alarm_api/AlarmSoundService.kt:47-92 | the fields end as `AlarmSession.OnStartCommand` says, with the same result, and the invariant is kept |
| `SoundService.AlarmSoundService.ResetAutoStop` | android/app/src/main/kotlin/com/example/gf_alarm_api/AlarmSoundService.kt:94-102 | the fields end as `AlarmSession.ResetAutoStop` says |
| `SoundService.AlarmSoundService.StartAsForeground` | android/app/src/main/kotlin/com/example/gf_alarm_api/AlarmSoundService.kt:104-131 | the fields end as `AlarmSession.StartAsForeground` says |
| `SoundService.AlarmSoundService.StartPlayer` | android/app/src/main/kotlin/com/example/gf_alarm_api/AlarmSoundService.kt:133-176 | the fields end as `AlarmSession.StartPlayer` says |
| `SoundService.AlarmSoundService.StopSelfSafely` | android/app/src/main/kotlin/com/example/gf_alarm_api/AlarmSoundService.kt:184-206 | the fields end as `AlarmSession.StopSelfSafely` says |
| `SoundService.AlarmSoundService.OnDestroy` | android/app/src/main/kotlin/com/example/gf_alarm_api/AlarmSoundService.kt:208-211 | destruction tears the session down and keeps the invariant |
| `SoundService.AlarmSoundService.AutoStopFired` | android/app/src/main/kotlin/com/example/gf_alarm_api/AlarmSoundService.kt:96-98 | the runnable's run is the `AutoStopFires` step and keeps the invariant |
| `SoundService.AlarmSoundService.PlaybackCompleted` | android/app/src/main/kotlin/com/example/gf_alarm_api/AlarmSoundService.kt:167-169 | the completion callback is the `PlaybackCompletes` step and keeps the invariant |

## Left out

- Notification building: icons, `BigTextStyle`, `PendingIntent` request codes and flags, and intent flags are not modelled. A notification is a record of its channel, texts, priority, category, flags and the intents behind its tap and its stop action.
- `NotificationManager`, `MediaPlayer` playback, `AudioManager`, `startForeground` and `SharedPreferences` are platform calls. They appear only through their effect on the modelled state: shown notifications, channels, the player record, the alarm level, the foreground notification, and the preference map as input.
- `stopSelf()` is not modelled. Its effect is the platform destroying the service later, which the model delivers as the `Destroy` callback.
- Timing: `postDelayed` records the delay, and the timer firing is a callback the environment may deliver at any point; the passage of time is not modelled.
- `AlarmSession.StartAsForeground`: the model assumes `startForeground` succeeds and that the channel `alarm_channel_v4` exists. In the code the call sits outside any `try`, and only the receiver's `ensureChannels` creates that channel, so a start that arrives before any push has been received could fail on a missing channel; a crashing service is not modelled.
- Each platform fault is one flag per device, fixed for the session: within one run every override, every restore and every player creation succeeds or fails alike.
- The system alarm volume is changed only by the service. The user's own volume changes with the hardware keys are not modelled, so `SessionRestoresVolume` is stated for a volume only the service touches.
- `AlarmSession.StepRemembersVolume`, `AlarmSession.RunRemembersVolume`, `AlarmSession.SessionRestoresVolume` and `AlarmSession.HalfGainScenario` assume that restoring the level succeeds, because a failed restore loses the level from before the session; `AlarmSession.FailedRestoreKeepsOverride` states what happens then.
- `toFloatOrNull`, `toIntOrNull`, `JSONObject` parsing (with `optBoolean`/`optString`) and serialisation, and `String.hashCode` are opaque functions; their results are inputs.
- Gains are real numbers: float rounding, NaN and infinities are not modelled (a NaN gain passes Kotlin's `coerceIn` unchanged), nor is audio scaling.
- Integer widths are not modelled: stream levels and delays are unbounded integers, as none of the code's operations on them can overflow.
- A player whose `start()` throws is not released by the teardown, because the field was never assigned; the model does not track leaked players.
- A throwing `release()` in teardown is not a separate case: the field is cleared either way, and nothing else in the model depends on it.
- `Receiver.DetailIntentContents`: `postNotification` always puts an `actionUrl` extra, with a null value when the payload has none; the model leaves the key out then. The detail screen reads it with `getStringExtra`, which gives null either way, but the model's extras map is not the code's bundle key for key.
- Logging (`Log.*`), including the `payloadCritical` value, which is only logged.
- `onNewToken` and `onBind`: logging and a null binder.
- MainActivity.kt, NotificationDetailActivity.kt, App.kt, AppDelegate.swift and build.gradle.kts are not part of this model: they are method-channel plumbing, UI, one-off channel creation, iOS bootstrap and build configuration.
- Concurrency: all callbacks run on the main looper, so the model delivers them one at a time and has no interleavings.
