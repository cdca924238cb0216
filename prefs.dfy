/**
 * The "CuidadoAbuelito" SharedPreferences file shared by the Bluetooth view model, the
 * fall monitor and the dashboard: a key/value map edited in place.
 */
module Prefs {
  import opened Wrappers

  datatype PrefValue = PBool(b: bool) | PString(s: string) | PLong(n: int)

  const DeviceIdKey: string := "device_id"
  const AlarmActiveKey: string := "alarm_active"
  const LastFallTimeKey: string := "last_fall_time"

  /** Every key is stored with the one type its writers use. */
  ghost predicate WellTyped(store: map<string, PrefValue>) {
    && (DeviceIdKey in store ==> store[DeviceIdKey].PString?)
    && (AlarmActiveKey in store ==> store[AlarmActiveKey].PBool?)
    && (LastFallTimeKey in store ==> store[LastFallTimeKey].PLong?)
  }

  /** The alarm flag shared by the fall monitor and the dashboard is set. */
  predicate AlarmFlagged(store: map<string, PrefValue>) {
    AlarmActiveKey in store && store[AlarmActiveKey] == PBool(true)
  }

  /** `getBoolean(key, default)`. */
  function GetBoolean(store: map<string, PrefValue>, key: string, default: bool): bool {
    if key in store && store[key].PBool? then store[key].b else default
  }

  /** `getString(key, null)`. */
  function GetString(store: map<string, PrefValue>, key: string): Option<string> {
    if key in store && store[key].PString? then Some(store[key].s) else None
  }

  class SharedPreferences {
    var store: map<string, PrefValue>

    constructor ()
      ensures store == map[]
    {
      store := map[];
    }
  }
}
