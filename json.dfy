/**
 * Decoded JSON values and the three org.json accessors the response handlers use:
 * `JSONObject(text)`, `getString`, `getJSONArray` and `has`. A failing accessor (a missing
 * key, or a value of the wrong kind) is `None` here where org.json throws.
 */
module Json {
  import opened Wrappers

  datatype Json =
    | JNull
    | JBool(b: bool)
    | JNumber(n: int)
    | JString(s: string)
    | JArray(items: seq<Json>)
    | JObject(fields: map<string, Json>)

  /** `JSONObject(text)`: the decoded text must be an object. */
  function AsObject(decoded: Option<Json>): (r: Option<map<string, Json>>)
    ensures r.Some? <==> decoded.Some? && decoded.value.JObject?
    ensures r.Some? ==> decoded.value == JObject(r.value)
  {
    if decoded.Some? && decoded.value.JObject? then Some(decoded.value.fields) else None
  }

  /** `getString(key)`: present and a string. */
  function GetString(obj: map<string, Json>, key: string): (r: Option<string>)
    ensures r.Some? <==> key in obj && obj[key].JString?
    ensures r.Some? ==> obj[key] == JString(r.value)
  {
    if key in obj && obj[key].JString? then Some(obj[key].s) else None
  }

  /** The strings of an array, or None as soon as one item is not a string. */
  function Strings(items: seq<Json>): (r: Option<seq<string>>)
    ensures r.Some? <==> forall i :: 0 <= i < |items| ==> items[i].JString?
    ensures r.Some? ==> |r.value| == |items| && forall i :: 0 <= i < |items| ==> items[i] == JString(r.value[i])
  {
    if items == [] then Some([])
    else if !items[0].JString? then None
    else
      match Strings(items[1..])
      case None => None
      case Some(rest) => Some([items[0].s] + rest)
  }

  /** `getJSONArray(key)` followed by `getString(i)` on every item. */
  function GetStringArray(obj: map<string, Json>, key: string): (r: Option<seq<string>>)
    ensures r.Some? <==> key in obj && obj[key].JArray? && forall i :: 0 <= i < |obj[key].items| ==> obj[key].items[i].JString?
    ensures r.Some? ==> |r.value| == |obj[key].items| && forall i :: 0 <= i < |r.value| ==> obj[key].items[i] == JString(r.value[i])
  {
    if key in obj && obj[key].JArray? then Strings(obj[key].items) else None
  }
}
