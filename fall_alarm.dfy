/**
 * The alarm service: a foreground service that, once started for a fall, shows an
 * ongoing notification, vibrates and loops a ringtone until it is stopped.
 */
module FallAlarm {
  import opened Wrappers
  import opened Dto

  /** `START_STICKY`: the value `onStartCommand` returns. */
  const StartSticky: int := 1

  /** The fall time shown when the start intent carries none. */
  const UnknownFallTime: string := "Desconocido"

  /**
   * The intent that reaches `onStartCommand`, by its action: `START_ALARM` with its
   * optional fall-time extra, `STOP_ALARM`, or anything else (a null intent included).
   */
  datatype Intent = StartAlarm(fallTime: Option<string>) | StopAlarm | OtherAction

  /** The intent `startAlarm` sends for a fall: its time as the extra. */
  function StartAlarmIntent(fall: FallInfo): (i: Intent)
    ensures i.StartAlarm? && i.fallTime == Some(fall.occurredAt)
  {
    StartAlarm(Some(fall.occurredAt))
  }

  /** The fall time the alarm shows for a start intent's extra. */
  function ShownFallTime(extra: Option<string>): (t: string)
    ensures extra.Some? ==> t == extra.value
    ensures extra.None? ==> t == UnknownFallTime
  {
    extra.GetOr(UnknownFallTime)
  }

  /** The default ringtone, or the notification tone used as a fallback. */
  datatype Tone = Ringtone | NotificationTone

  /** A looping media player for one tone; `playing` once it was prepared and started. */
  datatype Player = Player(tone: Tone, playing: bool)

  /**
   * The player left after `startRingtoneSound`: the ringtone player, or, when setting
   * it up throws, the fallback player, or none when that throws too. Neither plays yet:
   * both are prepared asynchronously.
   */
  function NewPlayer(ringtoneFails: bool, fallbackFails: bool): (p: Option<Player>)
    ensures p.Some? ==> !p.value.playing
    ensures p.None? <==> ringtoneFails && fallbackFails
    ensures p.Some? ==> (p.value.tone == Ringtone <==> !ringtoneFails)
  {
    if !ringtoneFails then Some(Player(Ringtone, false))
    else if !fallbackFails then Some(Player(NotificationTone, false))
    else None
  }

  class FallAlarmService {
    var mediaPlayer: Option<Player>
    var isAlarming: bool
    /** The vibrator runs its repeating pattern. */
    ghost var vibrating: bool
    /** The ongoing alarm notification, by the fall time it shows. */
    ghost var notification: Option<string>
    /** The service runs in the foreground. */
    ghost var inForeground: bool
    /** `stopSelf` was called. */
    ghost var stopRequested: bool

    /**
     * The alarm is wholly on (notification, foreground, vibration) or wholly off, and
     * sound plays only while it is on.
     */
    ghost predicate Valid()
      reads this
    {
      && (isAlarming <==> notification.Some?)
      && (isAlarming <==> inForeground)
      && (isAlarming <==> vibrating)
      && (mediaPlayer.Some? && mediaPlayer.value.playing ==> isAlarming)
    }

    /** `onCreate`. */
    constructor ()
      ensures !isAlarming && mediaPlayer == None && !stopRequested
      ensures Valid()
    {
      mediaPlayer := None;
      isAlarming := false;
      vibrating, notification, inForeground, stopRequested := false, None, false, false;
    }

    /**
     * `onStartCommand`: a start intent starts the alarm for its fall time (or the
     * unknown-time text), a stop intent stops it; always asks to be restarted.
     */
    method OnStartCommand(intent: Intent, ringtoneFails: bool, fallbackFails: bool) returns (r: int)
      requires Valid()
      modifies this`mediaPlayer, this`isAlarming, this`vibrating, this`notification, this`inForeground, this`stopRequested
      ensures r == StartSticky
      ensures intent.StartAlarm? && old(isAlarming) ==>
        mediaPlayer == old(mediaPlayer) && isAlarming && notification == old(notification)
      ensures intent.StartAlarm? && !old(isAlarming) ==>
        isAlarming && notification == Some(ShownFallTime(intent.fallTime)) && mediaPlayer == NewPlayer(ringtoneFails, fallbackFails)
      ensures intent.StartAlarm? ==> stopRequested == old(stopRequested)
      ensures intent.StopAlarm? ==> !isAlarming && mediaPlayer == None && notification == None && stopRequested
      ensures intent.OtherAction? ==>
        mediaPlayer == old(mediaPlayer) && isAlarming == old(isAlarming) && notification == old(notification)
        && stopRequested == old(stopRequested)
      ensures Valid()
    {
      r := StartSticky;
      match intent
      case StartAlarm(extra) =>
        StartAlarmSystem(ShownFallTime(extra), ringtoneFails, fallbackFails);
      case StopAlarm =>
        StopAlarmSystem();
      case OtherAction =>
    }

    /**
     * `startAlarmSystem`: nothing while an alarm is on, so repeated starts raise one
     * alarm; otherwise the notification, the ringtone and the vibration.
     */
    method StartAlarmSystem(fallTime: string, ringtoneFails: bool, fallbackFails: bool)
      requires Valid()
      modifies this`mediaPlayer, this`isAlarming, this`vibrating, this`notification, this`inForeground
      ensures old(isAlarming) ==>
        mediaPlayer == old(mediaPlayer) && isAlarming && notification == old(notification)
        && vibrating == old(vibrating) && inForeground == old(inForeground)
      ensures !old(isAlarming) ==>
        isAlarming && notification == Some(fallTime) && inForeground && vibrating
        && mediaPlayer == NewPlayer(ringtoneFails, fallbackFails)
      ensures Valid()
    {
      if isAlarming {
        return;
      }
      isAlarming := true;
      notification := Some(fallTime);
      inForeground := true;
      StartRingtoneSound(ringtoneFails, fallbackFails);
      StartContinuousVibration();
    }

    /** `startRingtoneSound`: releases any player, then sets up the ringtone or its fallback. */
    method StartRingtoneSound(ringtoneFails: bool, fallbackFails: bool)
      modifies this`mediaPlayer
      ensures mediaPlayer == NewPlayer(ringtoneFails, fallbackFails)
    {
      StopSound();
      if ringtoneFails {
        TryFallbackRingtone(fallbackFails);
      } else {
        mediaPlayer := Some(Player(Ringtone, false));
      }
    }

    /** `tryFallbackRingtone`: releases any player, then sets up the notification tone. */
    method TryFallbackRingtone(fails: bool)
      modifies this`mediaPlayer
      ensures fails ==> mediaPlayer == None
      ensures !fails ==> mediaPlayer == Some(Player(NotificationTone, false))
    {
      StopSound();
      if !fails {
        mediaPlayer := Some(Player(NotificationTone, false));
      }
    }

    /** `stopSound`: stops and releases the player, if any, and drops it. */
    method StopSound()
      modifies this`mediaPlayer
      ensures mediaPlayer == None
    {
      mediaPlayer := None;
    }

    /** `startContinuousVibration`: the repeating waveform. */
    method StartContinuousVibration()
      modifies this`vibrating
      ensures vibrating
    {
      vibrating := true;
    }

    /**
     * The prepared listener: the player starts only if the alarm is still on, so a stop
     * that comes before preparation finishes leaves no sound.
     */
    method OnPrepared()
      requires Valid()
      modifies this`mediaPlayer
      ensures old(isAlarming) && old(mediaPlayer).Some? ==> mediaPlayer == Some(old(mediaPlayer).value.(playing := true))
      ensures !(old(isAlarming) && old(mediaPlayer).Some?) ==> mediaPlayer == old(mediaPlayer)
      ensures Valid()
    {
      if isAlarming && mediaPlayer.Some? {
        mediaPlayer := Some(mediaPlayer.value.(playing := true));
      }
    }

    /**
     * The error listener, which only the ringtone player has: it falls back to the
     * notification tone.
     */
    method OnPlayerError(fallbackFails: bool)
      requires Valid()
      modifies this`mediaPlayer
      ensures old(mediaPlayer).Some? && old(mediaPlayer).value.tone == Ringtone ==>
        mediaPlayer == (if fallbackFails then None else Some(Player(NotificationTone, false)))
      ensures !(old(mediaPlayer).Some? && old(mediaPlayer).value.tone == Ringtone) ==> mediaPlayer == old(mediaPlayer)
      ensures Valid()
    {
      if mediaPlayer.Some? && mediaPlayer.value.tone == Ringtone {
        TryFallbackRingtone(fallbackFails);
      }
    }

    /**
     * `stopAlarmSystem`: whatever the state, no alarm, no player, no vibration, no
     * notification and no foreground afterwards, so a second stop changes nothing.
     */
    method StopAlarmSystem()
      modifies this`mediaPlayer, this`isAlarming, this`vibrating, this`notification, this`inForeground, this`stopRequested
      ensures !isAlarming && mediaPlayer == None && !vibrating && notification == None && !inForeground
      ensures stopRequested
      ensures Valid()
    {
      isAlarming := false;
      StopSound();
      vibrating := false;
      notification := None;
      inForeground := false;
      stopRequested := true;
    }

    /** `onDestroy`: the full stop. */
    method OnDestroy()
      modifies this`mediaPlayer, this`isAlarming, this`vibrating, this`notification, this`inForeground, this`stopRequested
      ensures !isAlarming && mediaPlayer == None && !vibrating && notification == None && !inForeground
      ensures Valid()
    {
      StopAlarmSystem();
    }
  }
}
