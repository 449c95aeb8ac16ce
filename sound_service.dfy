/**
 * AlarmSoundService.kt as a class: the three session fields the Kotlin
 * class updates in place, next to the platform state its calls change (the
 * handler's queue, the alarm-stream volume, the foreground notification).
 * Each method does what the Kotlin member does, step by step, and is proved
 * to end in the state the matching transition of AlarmSession describes.
 */
module SoundService {
  import opened Wrappers
  import opened Platform
  import opened AlarmSession

  class AlarmSoundService {
    /** The platform conditions this service instance runs under. */
    const dev: Device

    // The Kotlin fields.
    var player: Option<Player>
    var origAlarmVol: Option<int>
    var autoStopRunnable: Option<Runnable>

    // Platform state the service's calls act on.
    var handlerQueue: seq<Posted>
    var nextRunnableId: nat
    var alarmVolume: int
    var foreground: Option<Notification>

    /** The fields as an AlarmSession state. */
    function Snapshot(): AlarmSession.State
      reads this
    {
      AlarmSession.State(player, origAlarmVol, autoStopRunnable, handlerQueue, nextRunnableId, alarmVolume, foreground)
    }

    ghost predicate Valid()
      reads this
    {
      AlarmSession.Valid(Snapshot(), dev)
    }

    /** A fresh service instance: all three fields null, nothing posted. */
    constructor (dev: Device, alarmVolume: int)
      requires 0 <= alarmVolume <= dev.maxAlarmVolume
      ensures this.dev == dev && this.alarmVolume == alarmVolume
      ensures Idle(Snapshot()) && handlerQueue == []
      ensures Valid()
    {
      this.dev := dev;
      player := None;
      origAlarmVol := None;
      autoStopRunnable := None;
      handlerQueue := [];
      nextRunnableId := 0;
      this.alarmVolume := alarmVolume;
      foreground := None;
    }

    method OnStartCommand(intent: Option<Intent>) returns (r: StartResult)
      modifies this
      ensures (Snapshot(), r) == AlarmSession.OnStartCommand(old(Snapshot()), dev, intent)
      ensures old(Valid()) ==> Valid()
    {
      if IsStopIntent(intent) {
        StopSelfSafely();
        r := StartNotSticky;
      } else if !CriticalEnabled(dev) {
        // the safety guard: the persisted critical setting is off
        StopSelfSafely();
        r := StartNotSticky;
      } else {
        var loop := RequestedLoop(intent);
        StartAsForeground(
          GetStringExtra(intent, EXTRA_TITLE).GetOr(DEFAULT_TITLE),
          GetStringExtra(intent, EXTRA_BODY).GetOr(DEFAULT_BODY),
          GetBooleanExtra(intent, EXTRA_SILENT, true));
        StartPlayer(RequestedGain(intent), RequestedStreamVolume(intent), RequestedSound(intent), loop);
        var autoStopMs := GetLongExtra(intent, EXTRA_AUTO_STOP_MS, DEFAULT_AUTO_STOP_MS);
        ResetAutoStop(if loop then 0 else autoStopMs);
        r := StartSticky;
      }
      assert Snapshot() == Step(old(Snapshot()), dev, StartCommand(intent));
    }

    method ResetAutoStop(ms: int)
      modifies this
      ensures Snapshot() == AlarmSession.ResetAutoStop(old(Snapshot()), ms)
    {
      if autoStopRunnable.Some? {
        handlerQueue := Without(handlerQueue, autoStopRunnable.value);
      }
      if ms > 0 {
        var t := AutoStop(nextRunnableId);
        nextRunnableId := nextRunnableId + 1;
        autoStopRunnable := Some(t);
        handlerQueue := handlerQueue + [Posted(t, ms)];
      } else {
        autoStopRunnable := None;
      }
    }

    method StartAsForeground(title: string, body: string, silent: bool)
      modifies this
      ensures Snapshot() == AlarmSession.StartAsForeground(old(Snapshot()), title, body, silent)
    {
      foreground := Some(ForegroundNotification(title, body, silent));
    }

    method StartPlayer(gain: real, absAlarmVol: int, soundResName: Option<string>, loop: bool)
      modifies this
      ensures Snapshot() == AlarmSession.StartPlayer(old(Snapshot()), dev, gain, absAlarmVol, soundResName, loop)
    {
      if player.Some? {
        return;
      }
      if absAlarmVol >= 0 {
        var newLevel := CoerceLevel(absAlarmVol, dev.maxAlarmVolume);
        var oldLevel := alarmVolume;
        if origAlarmVol.None? {
          origAlarmVol := Some(oldLevel);
        }
        if dev.overrideVolumeSucceeds {
          alarmVolume := newLevel;
        }
        // otherwise setStreamVolume threw; the failure is logged and playback proceeds
      }
      var resId := ResolveRawResId(soundResName, dev.rawIds).GetOr(dev.criticalAlertResId);
      if dev.playerCreateSucceeds {
        player := Some(Player(resId, loop, gain, !loop));
      } else {
        StopSelfSafely();
      }
    }

    method StopSelfSafely()
      modifies this
      ensures Snapshot() == AlarmSession.StopSelfSafely(old(Snapshot()), dev)
    {
      // release the player; the field is cleared even when releasing throws
      player := None;
      if origAlarmVol.Some? && dev.restoreVolumeSucceeds {
        alarmVolume := origAlarmVol.value;
      }
      origAlarmVol := None;
      if autoStopRunnable.Some? {
        handlerQueue := Without(handlerQueue, autoStopRunnable.value);
      }
      autoStopRunnable := None;
      // stopForeground(STOP_FOREGROUND_REMOVE)
      foreground := None;
    }

    method OnDestroy()
      modifies this
      ensures Snapshot() == Step(old(Snapshot()), dev, Destroy)
      ensures old(Valid()) ==> Valid()
    {
      StopSelfSafely();
    }

    /** The handler runs the pending auto-stop runnable. */
    method AutoStopFired()
      modifies this
      ensures Snapshot() == Step(old(Snapshot()), dev, AutoStopFires)
      ensures old(Valid()) ==> Valid()
    {
      if handlerQueue != [] {
        handlerQueue := handlerQueue[1..];
        StopSelfSafely();
      }
    }

    /** The player reports the end of playback; only a registered listener reacts. */
    method PlaybackCompleted()
      modifies this
      ensures Snapshot() == Step(old(Snapshot()), dev, PlaybackCompletes)
      ensures old(Valid()) ==> Valid()
    {
      if player.Some? && player.value.stopsOnCompletion {
        StopSelfSafely();
      }
    }
  }
}
