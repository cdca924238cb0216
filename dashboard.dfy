/**
 * The dashboard's view model: shows the paired device's status and fall list, mirrors
 * the shared alarm flag, and starts or stops the background monitor and the alarm.
 */
module Dashboard {
  import opened Wrappers
  import opened Dto
  import opened Prefs
  import FallDetection
  import FallAlarm

  /**
   * The store after the user stops the alarm: the flag written false and the time of
   * the last fall removed; every other key kept.
   */
  function AlarmCleared(store: map<string, PrefValue>): (r: map<string, PrefValue>)
    ensures !AlarmFlagged(r) && AlarmActiveKey in r && r[AlarmActiveKey] == PBool(false)
    ensures LastFallTimeKey !in r
    ensures forall k :: k in store && k != AlarmActiveKey && k != LastFallTimeKey ==> k in r && r[k] == store[k]
    ensures forall k :: k in r ==> k in store || k == AlarmActiveKey
  {
    assert AlarmActiveKey[0] != LastFallTimeKey[0];
    store[AlarmActiveKey := PBool(false)] - {LastFallTimeKey}
  }

  /** Stopping an alarm that is already stopped changes nothing in the store. */
  lemma AlarmClearedIdempotent(store: map<string, PrefValue>)
    ensures AlarmCleared(AlarmCleared(store)) == AlarmCleared(store)
  {
    var once := AlarmCleared(store);
    var twice := AlarmCleared(once);
    assert forall k :: k in twice <==> k in once;
    assert forall k :: k in twice ==> twice[k] == once[k];
  }

  /**
   * The flag round trip between the monitor and the dashboard: a raised alarm reads as
   * set until the user stops it, and then as clear with no fall time left.
   */
  lemma RaiseThenClear(store: map<string, PrefValue>, now: int)
    ensures GetBoolean(FallDetection.AlarmRaisedAt(store, now), AlarmActiveKey, false)
    ensures !GetBoolean(AlarmCleared(FallDetection.AlarmRaisedAt(store, now)), AlarmActiveKey, false)
    ensures LastFallTimeKey !in AlarmCleared(FallDetection.AlarmRaisedAt(store, now))
    ensures GetBoolean(FallDetection.AlarmRaisedAt(AlarmCleared(store), now), AlarmActiveKey, false)
  {
  }

  /** Both writers of the flag keep every key at the type its readers expect. */
  lemma FlagWritersKeepTypes(store: map<string, PrefValue>, now: int)
    requires WellTyped(store)
    ensures WellTyped(FallDetection.AlarmRaisedAt(store, now))
    ensures WellTyped(AlarmCleared(store))
  {
    assert DeviceIdKey[0] != AlarmActiveKey[0] && DeviceIdKey[0] != LastFallTimeKey[0];
  }

  class DashboardDeviceViewModel {
    var deviceId: Option<string>
    var deviceInfo: Option<DeviceInfo>
    var fallInfo: Option<seq<FallInfo>>
    var isLoading: bool
    var lastUpdateTime: int
    var isAlarmActive: bool
    var isDetectionServiceActive: bool
    /** A UI polling job exists and is active. */
    var uiPolling: bool
    /** The preference listener is registered. */
    var listening: bool
    const prefs: SharedPreferences
    /** The intents sent to the fall monitor, in order. */
    ghost var detectionIntents: seq<FallDetection.Intent>
    /** The intents sent to the alarm service, in order. */
    ghost var alarmIntents: seq<FallAlarm.Intent>

    /** `init`: registers the listener and reads whether the monitor runs. */
    constructor (prefs: SharedPreferences, serviceRunning: bool)
      ensures this.prefs == prefs && listening && isDetectionServiceActive == serviceRunning
      ensures deviceId == None && deviceInfo == None && fallInfo == None && !isLoading && lastUpdateTime == 0
      ensures !isAlarmActive && !uiPolling && detectionIntents == [] && alarmIntents == []
    {
      this.prefs := prefs;
      deviceId, deviceInfo, fallInfo := None, None, None;
      isLoading, lastUpdateTime, isAlarmActive := false, 0, false;
      uiPolling := false;
      listening := true;
      isDetectionServiceActive := serviceRunning;
      detectionIntents, alarmIntents := [], [];
    }

    /**
     * The preference listener, for a change of `key`. Only the alarm flag matters: it
     * is mirrored, and when set the fall list is fetched again (`fetched` is that
     * fetch's answer, None when it throws).
     */
    method OnPreferenceChanged(key: string, fetched: Option<seq<FallInfo>>)
      modifies this`isAlarmActive, this`fallInfo
      ensures listening && key == AlarmActiveKey ==> (isAlarmActive <==> AlarmFlagged(prefs.store))
      ensures listening && key == AlarmActiveKey && AlarmFlagged(prefs.store) && deviceId.Some? ==>
        fallInfo == Some(fetched.GetOr([]))
      ensures !(listening && key == AlarmActiveKey && AlarmFlagged(prefs.store) && deviceId.Some?) ==>
        fallInfo == old(fallInfo)
      ensures !(listening && key == AlarmActiveKey) ==> isAlarmActive == old(isAlarmActive)
    {
      if listening && key == AlarmActiveKey {
        var isActive := GetBoolean(prefs.store, AlarmActiveKey, false);
        isAlarmActive := isActive;
        if isActive {
          FetchFallDetected(fetched);
        }
      }
    }

    /** `getDeviceIdPreferences`: the stored device id, or none. */
    method GetDeviceIdPreferences()
      modifies this`deviceId
      ensures deviceId.Some? <==> DeviceIdKey in prefs.store && prefs.store[DeviceIdKey].PString?
      ensures deviceId.Some? ==> deviceId.value == prefs.store[DeviceIdKey].s
    {
      deviceId := GetString(prefs.store, DeviceIdKey);
    }

    /**
     * `fetchDeviceInfo` with the answer of the status call (None when it throws) at
     * time `now`; nothing without a device id.
     */
    method FetchDeviceInfo(answer: Option<DeviceInfo>, now: int)
      modifies this`deviceInfo, this`lastUpdateTime, this`isLoading
      ensures deviceId.None? ==>
        deviceInfo == old(deviceInfo) && lastUpdateTime == old(lastUpdateTime) && isLoading == old(isLoading)
      ensures deviceId.Some? ==> deviceInfo == answer && !isLoading
      ensures deviceId.Some? ==> lastUpdateTime == if answer.Some? then now else old(lastUpdateTime)
    {
      if deviceId.None? {
        return;
      }
      isLoading := true;
      if answer.Some? {
        deviceInfo := answer;
        lastUpdateTime := now;
      } else {
        deviceInfo := None;
      }
      isLoading := false;
    }

    /** `fetchFallDetected`: a failed fetch shows an empty list; nothing without a device id. */
    method FetchFallDetected(answer: Option<seq<FallInfo>>)
      modifies this`fallInfo
      ensures deviceId.None? ==> fallInfo == old(fallInfo)
      ensures deviceId.Some? && answer.Some? ==> fallInfo == answer
      ensures deviceId.Some? && answer.None? ==> fallInfo == Some([])
    {
      if deviceId.None? {
        return;
      }
      fallInfo := Some(answer.GetOr([]));
    }

    /** `startBackgroundDetection`: starts the monitor for the device, if there is one. */
    method StartBackgroundDetection()
      modifies this`isDetectionServiceActive, this`detectionIntents
      ensures deviceId.Some? ==>
        isDetectionServiceActive && detectionIntents == old(detectionIntents) + [FallDetection.StartIntent(deviceId)]
      ensures deviceId.None? ==>
        isDetectionServiceActive == old(isDetectionServiceActive) && detectionIntents == old(detectionIntents)
    {
      if deviceId.Some? {
        detectionIntents := detectionIntents + [FallDetection.StartIntent(deviceId)];
        isDetectionServiceActive := true;
      }
    }

    /** `stopBackgroundDetection`. */
    method StopBackgroundDetection()
      modifies this`isDetectionServiceActive, this`detectionIntents
      ensures !isDetectionServiceActive && detectionIntents == old(detectionIntents) + [FallDetection.StopIntent]
    {
      detectionIntents := detectionIntents + [FallDetection.StopIntent];
      isDetectionServiceActive := false;
    }

    /**
     * `stopAlarm`: the alarm shown as off, the flag cleared in the store and a stop sent
     * to the alarm service, whatever the state before.
     */
    method StopAlarm()
      modifies this`isAlarmActive, this`alarmIntents, prefs`store
      ensures !isAlarmActive && prefs.store == AlarmCleared(old(prefs.store))
      ensures alarmIntents == old(alarmIntents) + [FallAlarm.StopAlarm]
    {
      isAlarmActive := false;
      prefs.store := prefs.store[AlarmActiveKey := PBool(false)] - {LastFallTimeKey};
      alarmIntents := alarmIntents + [FallAlarm.StopAlarm];
    }

    /** `checkAlarmStatus`: the alarm shown exactly when the stored flag is set. */
    method CheckAlarmStatus()
      modifies this`isAlarmActive
      ensures isAlarmActive <==> AlarmFlagged(prefs.store)
    {
      isAlarmActive := GetBoolean(prefs.store, AlarmActiveKey, false);
    }

    /** `startUIPolling`: nothing while a polling job is active. */
    method StartUIPolling()
      modifies this`uiPolling
      ensures uiPolling
    {
      if uiPolling {
        return;
      }
      uiPolling := true;
    }

    /**
     * One turn of the UI polling job: with the network up, the device status and the
     * fall list are fetched (their answers given here) at time `now`.
     */
    method UIPollTurn(networkUp: bool, info: Option<DeviceInfo>, falls: Option<seq<FallInfo>>, now: int)
      requires uiPolling
      modifies this`deviceInfo, this`lastUpdateTime, this`isLoading, this`fallInfo
      ensures networkUp && deviceId.Some? ==>
        deviceInfo == info && fallInfo == Some(falls.GetOr([])) && !isLoading
        && lastUpdateTime == if info.Some? then now else old(lastUpdateTime)
      ensures !(networkUp && deviceId.Some?) ==>
        deviceInfo == old(deviceInfo) && fallInfo == old(fallInfo) && isLoading == old(isLoading)
        && lastUpdateTime == old(lastUpdateTime)
    {
      if networkUp {
        FetchDeviceInfo(info, now);
        FetchFallDetected(falls);
      }
    }

    /** `stopUIPolling`: cancels and drops the job. */
    method StopUIPolling()
      modifies this`uiPolling
      ensures !uiPolling
    {
      uiPolling := false;
    }

    /** `syncAlarmState`: the stored flag, and whether the monitor runs. */
    method SyncAlarmState(serviceRunning: bool)
      modifies this`isAlarmActive, this`isDetectionServiceActive
      ensures isAlarmActive <==> AlarmFlagged(prefs.store)
      ensures isDetectionServiceActive == serviceRunning
    {
      isAlarmActive := GetBoolean(prefs.store, AlarmActiveKey, false);
      isDetectionServiceActive := serviceRunning;
    }

    /** `onCleared`: stops UI polling and the listener; the monitor keeps running. */
    method OnCleared()
      modifies this`uiPolling, this`listening
      ensures !uiPolling && !listening
    {
      StopUIPolling();
      listening := false;
    }
  }
}
