/**
 * The gateway protocol spoken over the Nordic UART service: the two commands the app
 * writes, how it picks the UART characteristics, and how it reads the gateway's replies
 * to a Wi-Fi scan (with the retry rule) and to a Wi-Fi join.
 */
module WifiProtocol {
  import opened Wrappers
  import opened Dto
  import opened Json
  import opened Framing

  // ---------------------------------------------------------------------------
  // Commands
  // ---------------------------------------------------------------------------

  const ScanCommandJson: string := "{\"service\":\"gw\",\"action\":\"scan\"}"

  const JoinHead: string := "{\"service\":\"gw\",\"action\":\"connect\",\"ssid\":\""
  const JoinMiddle: string := "\",\"password\":\""
  const JoinTail: string := "\"}"

  /** The join command. SSID and password are pasted in as they are, without escaping. */
  function JoinCommandJson(ssid: string, password: string): string {
    JoinHead + ssid + JoinMiddle + password + JoinTail
  }

  /**
   * The join command is braced, and holds a '<' (so possibly an end marker) exactly when
   * the SSID or the password does.
   */
  lemma JoinCommandShape(ssid: string, password: string)
    ensures var json := JoinCommandJson(ssid, password);
      && json != [] && json[0] == '{' && json[|json| - 1] == '}'
      && ('<' in json <==> '<' in ssid || '<' in password)
  {
    assert '<' !in JoinHead && '<' !in JoinMiddle && '<' !in JoinTail;
    var json := JoinCommandJson(ssid, password);
    assert json[0] == JoinHead[0] == '{';
    assert json[|json| - 1] == JoinTail[1] == '}';
  }

  lemma TrimUnchanged(s: string)
    requires s != [] && !IsWhitespace(s[0]) && !IsWhitespace(s[|s| - 1])
    ensures Trim(s) == s
  {
  }

  /** Text without a '<' cannot contain the end marker. */
  lemma NoEndMarkerWithoutAngle(json: string)
    requires '<' !in json
    ensures HasNoEndMarker(json)
  {
    forall i ensures !OccursAt(json, EndMarker, i) {
      if 0 <= i && i + |EndMarker| <= |json| {
        assert json[i] == json[i..i + |EndMarker|][0];
      }
    }
  }

  /**
   * A command whose text has no '<' and starts and ends with a brace reaches a reader
   * running the same buffer logic intact: nothing comes out until the last 20-byte
   * slice, which yields exactly the command and leaves the buffer empty.
   */
  lemma {:induction false} CommandDelivered(json: string)
    requires '<' !in json
    requires json != [] && json[0] == '{' && json[|json| - 1] == '}'
    ensures var cs := Chunks(Envelope(json));
      && cs != []
      && FeedAll("", cs).buffer == ""
      && FeedAll("", cs).outputs[|cs| - 1] == Some(json)
      && forall i :: 0 <= i < |cs| - 1 ==> FeedAll("", cs).outputs[i] == None
  {
    NoEndMarkerWithoutAngle(json);
    TrimUnchanged(json);
    ChunkedRoundTrip(json);
  }

  /** The scan command always arrives intact. */
  lemma ScanCommandDelivered()
    ensures var cs := Chunks(Envelope(ScanCommandJson));
      && FeedAll("", cs).outputs[|cs| - 1] == Some(ScanCommandJson)
      && FeedAll("", cs).buffer == ""
  {
    CommandDelivered(ScanCommandJson);
  }

  /** The join command arrives intact when neither SSID nor password contains a '<'. */
  lemma JoinCommandDelivered(ssid: string, password: string)
    requires '<' !in ssid && '<' !in password
    ensures var json := JoinCommandJson(ssid, password);
      var cs := Chunks(Envelope(json));
      && FeedAll("", cs).outputs[|cs| - 1] == Some(json)
      && FeedAll("", cs).buffer == ""
  {
    JoinCommandShape(ssid, password);
    CommandDelivered(JoinCommandJson(ssid, password));
  }

  // ---------------------------------------------------------------------------
  // Characteristic lookup
  // ---------------------------------------------------------------------------

  /** Short UUIDs of the UART write (RX) and notify (TX) characteristics. */
  const WriteCharacteristicId: string := "6E400002"
  const NotifyCharacteristicId: string := "6E400003"

  /** `uuid.split("-").first()`: the text before the first '-', or all of it. */
  function FirstSegment(uuid: string): (r: string)
    ensures |r| <= |uuid| && r == uuid[..|r|]
    ensures '-' !in r
    ensures |r| < |uuid| ==> uuid[|r|] == '-'
  {
    if uuid == [] || uuid[0] == '-' then [] else [uuid[0]] + FirstSegment(uuid[1..])
  }

  function UpperAscii(c: char): char {
    if 'a' <= c <= 'z' then (c as int - 32) as char else c
  }

  /** `equals(other, ignoreCase = true)`, for ASCII letters. */
  predicate EqualsIgnoreCase(a: string, b: string) {
    |a| == |b| && forall i :: 0 <= i < |a| ==> UpperAscii(a[i]) == UpperAscii(b[i])
  }

  predicate Matches(uuid: string, shortId: string) {
    EqualsIgnoreCase(FirstSegment(uuid), shortId)
  }

  /** `characteristics.find { ... }`: the first characteristic whose short id matches. */
  function FindCharacteristic(uuids: seq<string>, shortId: string): (r: Option<nat>)
    ensures r.None? <==> forall k :: 0 <= k < |uuids| ==> !Matches(uuids[k], shortId)
    ensures r.Some? ==> r.value < |uuids| && Matches(uuids[r.value], shortId)
    ensures r.Some? ==> forall k :: 0 <= k < r.value ==> !Matches(uuids[k], shortId)
  {
    if uuids == [] then None
    else if Matches(uuids[0], shortId) then Some(0)
    else
      match FindCharacteristic(uuids[1..], shortId)
      case None => None
      case Some(k) => Some(k + 1)
  }

  lemma {:induction false} FirstSegmentOf(head: string, rest: string)
    requires '-' !in head
    ensures FirstSegment(head + "-" + rest) == head
  {
    if head != [] {
      assert (head + "-" + rest)[1..] == head[1..] + "-" + rest;
      FirstSegmentOf(head[1..], rest);
    }
  }

  /** The lower-case UUID text Android prints still matches the upper-case short id. */
  lemma WriteCharacteristicFound()
    ensures Matches("6e400002" + "-" + "b5a3-f393-e0a9-e50e24dcca9e", WriteCharacteristicId)
    ensures !Matches("6e400003" + "-" + "b5a3-f393-e0a9-e50e24dcca9e", WriteCharacteristicId)
  {
    FirstSegmentOf("6e400002", "b5a3-f393-e0a9-e50e24dcca9e");
    FirstSegmentOf("6e400003", "b5a3-f393-e0a9-e50e24dcca9e");
    assert UpperAscii("6e400003"[7]) != UpperAscii(WriteCharacteristicId[7]);
  }

  // ---------------------------------------------------------------------------
  // Scan replies and the retry rule
  // ---------------------------------------------------------------------------

  const MaxWifiRetries: nat := 3
  const NoNetworksMessage: string := "No se encontraron redes WiFi después de 3 intentos"
  const MalformedReplyMessage: string := "Respuesta WiFi malformada"

  /** A network known only by its SSID, as the scan reply builds it. */
  function NetworkNamed(ssid: string): WiFiNetwork {
    WiFiNetwork(ssid, None, None, false)
  }

  /**
   * The `networks` array of a scan reply, one network per SSID in order; None where the
   * handler throws (not an object, no such array, or an item that is not a string).
   */
  function DecodeNetworks(decoded: Option<Json>): (r: Option<seq<WiFiNetwork>>)
    ensures r.Some? <==>
      && decoded.Some? && decoded.value.JObject?
      && "networks" in decoded.value.fields
      && decoded.value.fields["networks"].JArray?
      && forall i :: 0 <= i < |decoded.value.fields["networks"].items| ==> decoded.value.fields["networks"].items[i].JString?
    ensures r.Some? ==>
      var items := decoded.value.fields["networks"].items;
      && |r.value| == |items|
      && forall i :: 0 <= i < |items| ==> r.value[i] == NetworkNamed(items[i].s)
  {
    match AsObject(decoded)
    case None => None
    case Some(obj) =>
      match GetStringArray(obj, "networks")
      case None => None
      case Some(ssids) => Some(seq(|ssids|, i requires 0 <= i < |ssids| => NetworkNamed(ssids[i])))
  }

  /** What a decoded scan reply leads to, given the retry count it arrived at. */
  datatype ScanStep = RetryScan(count: nat) | FinishScan(count: nat, error: Option<string>)

  /**
   * An empty list is retried while fewer than three retries have been made; anything
   * else ends the scan and resets the count, with an error exactly when still empty.
   */
  function AfterScanReply(count: nat, networks: seq<WiFiNetwork>): (s: ScanStep)
    ensures s.RetryScan? <==> networks == [] && count < MaxWifiRetries
    ensures s.RetryScan? ==> s.count == count + 1
    ensures s.FinishScan? ==> s.count == 0
    ensures s.FinishScan? ==> (s.error.Some? <==> networks == []) && (s.error.Some? ==> s.error.value == NoNetworksMessage)
  {
    if networks == [] && count < MaxWifiRetries then RetryScan(count + 1)
    else if networks == [] then FinishScan(0, Some(NoNetworksMessage))
    else FinishScan(0, None)
  }

  /** Where a scan stands: requests written so far, and, once it is over, its outcome. */
  datatype ScanSession = ScanSession(requests: nat, finished: bool, networks: seq<WiFiNetwork>, error: Option<string>, count: nat)

  /**
   * A scan request written at retry count `count`, then the gateway's replies, one per
   * request, until one ends the scan (later replies are not part of this scan).
   */
  function RunScan(count: nat, replies: seq<seq<WiFiNetwork>>): ScanSession
    decreases |replies|
  {
    if replies == [] then ScanSession(1, false, [], None, count)
    else
      match AfterScanReply(count, replies[0])
      case RetryScan(c) =>
        var s := RunScan(c, replies[1..]);
        s.(requests := s.requests + 1)
      case FinishScan(c, e) => ScanSession(1, true, replies[0], e, c)
  }

  /** A scan starting at retry count `count` writes at most 4 - count requests and never counts past three. */
  lemma {:induction false} ScanRequestsBounded(count: nat, replies: seq<seq<WiFiNetwork>>)
    requires count <= MaxWifiRetries
    ensures 1 <= RunScan(count, replies).requests <= MaxWifiRetries + 1 - count
    ensures RunScan(count, replies).count <= MaxWifiRetries
    decreases |replies|
  {
    if replies != [] && AfterScanReply(count, replies[0]).RetryScan? {
      ScanRequestsBounded(count + 1, replies[1..]);
    }
  }

  /**
   * A scan that ends with no networks has written exactly 4 - count requests (four for
   * a scan started by hand) and reports the no-networks error; one that ends with
   * networks reports none.
   */
  lemma {:induction false} ScanOutcome(count: nat, replies: seq<seq<WiFiNetwork>>)
    requires count <= MaxWifiRetries
    ensures var s := RunScan(count, replies);
      && (s.finished && s.networks == [] ==> s.requests == MaxWifiRetries + 1 - count && s.error == Some(NoNetworksMessage))
      && (s.finished && s.networks != [] ==> s.error == None)
      && (s.finished ==> s.count == 0)
    decreases |replies|
  {
    if replies != [] && AfterScanReply(count, replies[0]).RetryScan? {
      ScanOutcome(count + 1, replies[1..]);
    }
  }

  /** Four empty replies to a scan started by hand: four requests, then the error. */
  lemma FourEmptyReplies()
    ensures RunScan(0, [[], [], [], []]) == ScanSession(4, true, [], Some(NoNetworksMessage), 0)
  {
    var e: seq<WiFiNetwork> := [];
    assert [e, e, e, e][1..] == [e, e, e];
    assert [e, e, e][1..] == [e, e];
    assert [e, e][1..] == [e];
  }

  /** Two empty replies and then a network: three requests, and the network is shown. */
  lemma EmptyEmptyThenFound(n: WiFiNetwork)
    ensures RunScan(0, [[], [], [n]]) == ScanSession(3, true, [n], None, 0)
  {
    var e: seq<WiFiNetwork> := [];
    assert [e, e, [n]][1..] == [e, [n]];
    assert [e, [n]][1..] == [[n]];
    assert [n] != [];
    assert RunScan(2, [[n]]) == ScanSession(1, true, [n], None, 0);
    assert RunScan(1, [e, [n]]) == ScanSession(2, true, [n], None, 0);
  }

  // ---------------------------------------------------------------------------
  // Join replies
  // ---------------------------------------------------------------------------

  const DeviceIdMissingMessage: string := "ID de dispositivo no encontrado"
  const UnknownErrorMessage: string := "Error desconocido"

  /** How `handleConnectionWifiResponse` reads a decoded reply. */
  datatype JoinOutcome = Malformed | Rejected(message: string) | Joined(deviceId: string)

  function InterpretJoin(decoded: Option<Json>): (o: JoinOutcome)
    ensures o.Joined? <==>
      && decoded.Some? && decoded.value.JObject?
      && var f := decoded.value.fields;
      && "status" in f && f["status"] == JString("success")
      && "device_id" in f && f["device_id"].JString? && f["device_id"].s != ""
    ensures o.Joined? ==> decoded.value.fields["device_id"] == JString(o.deviceId)
    ensures o.Rejected? ==>
      && decoded.Some? && decoded.value.JObject?
      && var f := decoded.value.fields;
      && "status" in f && f["status"].JString?
      && (f["status"].s == "error" ==> "message" in f && f["message"] == JString(o.message))
      && (f["status"].s == "success" ==> o.message == DeviceIdMissingMessage)
      && (f["status"].s != "error" && f["status"].s != "success" ==> o.message == UnknownErrorMessage)
    ensures o.Malformed? <==>
      || decoded.None? || !decoded.value.JObject?
      || var f := decoded.value.fields;
         || !("status" in f && f["status"].JString?)
         || (f["status"].s == "error" && !("message" in f && f["message"].JString?))
         || (f["status"].s == "success" && "device_id" in f && !f["device_id"].JString?)
  {
    match AsObject(decoded)
    case None => Malformed
    case Some(obj) =>
      match GetString(obj, "status")
      case None => Malformed
      case Some(status) =>
        if status == "error" then
          match GetString(obj, "message")
          case None => Malformed
          case Some(m) => Rejected(m)
        else if status == "success" then
          if "device_id" in obj then
            match GetString(obj, "device_id")
            case None => Malformed
            case Some(id) => if id == "" then Rejected(DeviceIdMissingMessage) else Joined(id)
          else Rejected(DeviceIdMissingMessage)
        else Rejected(UnknownErrorMessage)
  }

  /**
   * The write loop of both commands: the envelope in slices of at most 20 bytes, written
   * in order; `failsAt` is the index of the first write that throws, if any.
   */
  method SendCommand(json: string, failsAt: Option<nat>) returns (sent: seq<string>, delivered: bool)
    ensures delivered <==> failsAt.None? || failsAt.value >= |Chunks(Envelope(json))|
    ensures delivered ==> sent == Chunks(Envelope(json))
    ensures !delivered ==> sent == Chunks(Envelope(json))[..failsAt.value]
  {
    sent, delivered := WriteChunks(Envelope(json), failsAt);
  }
}
