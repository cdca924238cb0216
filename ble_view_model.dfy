/**
 * The Bluetooth view model: device search, the BLE link, and the Wi-Fi commands sent to
 * the gateway with their reply handlers. Each coroutine body runs here as one method
 * call; the BLE stack's answers (permissions, advertisements, the UART service, write
 * failures, notification bytes) arrive as parameters.
 */
module BleViewModel {
  import opened Wrappers
  import opened Dto
  import opened Json
  import opened Framing
  import opened Discovery
  import opened WifiProtocol
  import opened Prefs

  const NotConnectedMessage: string := "No hay dispositivo BLE conectado"
  const UartMissingMessage: string := "Servicio UART no encontrado en el dispositivo"
  const NoWriteCharacteristicMessage: string := "No se encontró característica de escritura"
  const NoNotifyCharacteristicMessage: string := "No se encontró característica de notificación"
  const ScanRequestFailedPrefix: string := "Error al solicitar escaneo WiFi: "
  const JoinRequestFailedPrefix: string := "Error al Connectar el  WiFi: "
  const ConnectFailedPrefix: string := "Fallo al conectar con el dispositivo: "
  const NoPermissionMessage: string := "Se necesitan permisos de Bluetooth para buscar dispositivos"
  const BluetoothOffMessage: string := "Bluetooth no está habilitado"
  const LocationOffMessage: string := "Debes habilitar la ubicación para encontrar el Dispositivo"
  const NoDevicesMessage: string := "No se encontraron dispositivos BLE en el área"
  const ScanFlowFailedPrefix: string := "Error durante el escaneo: "
  const SearchFailedPrefix: string := "Error al buscar dispositivos: "

  /** Which reply handler the live notification subscription feeds, if any. */
  datatype Subscription = NoSubscription | ScanReplies | JoinReplies

  /** Calls made on the BLE link, in order. */
  datatype LinkEvent = Disconnect(address: string) | Connect(address: string)

  /** How a device search ends: the 5-second timeout, the advertisement flow failing, or the scanner failing before it starts. */
  datatype SearchEnd = TimedOut | FlowFailed(message: string) | SetupFailed(message: string)

  /** The device search: `isSearching` and `devices`. */
  datatype SearchState = SearchState(isSearching: bool, devices: seq<BluetoothDevice>)

  /** The BLE link: `isConnecting`, `isConnected` and the peripheral handle (by address). */
  datatype LinkState = LinkState(isConnecting: bool, isConnected: bool, activePeripheral: Option<string>)

  /** The Wi-Fi scan: its flag, the networks shown, the reply buffer and the retry count. */
  datatype WifiScanState = WifiScanState(isWifiScanning: bool, wifiNetworks: seq<WiFiNetwork>, wifiBuffer: string, retryCount: nat)

  /** The Wi-Fi join: its two flags, the failure shown, and the reply buffer. */
  datatype WifiJoinState = WifiJoinState(isWifiConnecting: bool, isWifiConnected: bool, failMessage: Option<string>, joinBuffer: string)

  /** The link after `disconnectSync`. */
  const Unlinked: LinkState := LinkState(false, false, None)

  /** The link calls `disconnectSync` makes: a disconnect of the held peripheral, if any. */
  function DisconnectEvents(peripheral: Option<string>): seq<LinkEvent> {
    if peripheral.Some? then [Disconnect(peripheral.value)] else []
  }

  /** The devices a search lists, by how it ended. */
  function SearchResult(ads: seq<Advertisement>, end: SearchEnd): seq<BluetoothDevice> {
    if end.SetupFailed? then [] else FirstSeen(MapAll(ads))
  }

  /** The error a search that passed its checks reports, by how it ended and what it found. */
  function SearchError(found: seq<BluetoothDevice>, end: SearchEnd): Option<string> {
    match end
    case TimedOut => if found == [] then Some(NoDevicesMessage) else None
    case FlowFailed(m) => Some(ScanFlowFailedPrefix + m)
    case SetupFailed(m) => Some(SearchFailedPrefix + m)
  }

  /** What the UART lookup shared by both commands finds. */
  datatype UartCheck = UartReady | UartProblem(message: string)

  /**
   * The UART service must be there, then a write characteristic, then a notify
   * characteristic; the first one missing names the error.
   */
  function CheckUart(uart: Option<seq<string>>): (r: UartCheck)
    ensures r.UartReady? <==>
      uart.Some? && FindCharacteristic(uart.value, WriteCharacteristicId).Some? && FindCharacteristic(uart.value, NotifyCharacteristicId).Some?
    ensures uart.None? ==> r == UartProblem(UartMissingMessage)
    ensures uart.Some? && FindCharacteristic(uart.value, WriteCharacteristicId).None? ==> r == UartProblem(NoWriteCharacteristicMessage)
    ensures uart.Some? && FindCharacteristic(uart.value, WriteCharacteristicId).Some? && FindCharacteristic(uart.value, NotifyCharacteristicId).None? ==>
      r == UartProblem(NoNotifyCharacteristicMessage)
  {
    if uart.None? then UartProblem(UartMissingMessage)
    else if FindCharacteristic(uart.value, WriteCharacteristicId).None? then UartProblem(NoWriteCharacteristicMessage)
    else if FindCharacteristic(uart.value, NotifyCharacteristicId).None? then UartProblem(NoNotifyCharacteristicMessage)
    else UartReady
  }

  /** Whether every slice of the command's envelope is written when write `failsAt` throws. */
  predicate Delivers(json: string, failsAt: Option<nat>) {
    failsAt.None? || failsAt.value >= |Chunks(Envelope(json))|
  }

  /** The slices actually written. */
  function Written(json: string, failsAt: Option<nat>): seq<string> {
    if Delivers(json, failsAt) then Chunks(Envelope(json)) else Chunks(Envelope(json))[..failsAt.value]
  }

  /** What one scan-reply chunk leaves behind: the scan state, the error shown, and whether a retry is due. */
  datatype ScanHandled = ScanHandled(scan: WifiScanState, error: Option<string>, retry: bool)

  /**
   * `handleWiFiScanResponse` on values: the chunk is appended to the scan buffer and at
   * most one framed reply is handled. `decode` is the JSON parser. An unframed chunk only
   * grows the buffer; a reply that is not a list of SSIDs ends the scan with the
   * malformed-reply error; a list is shown and either retried or ends the scan.
   */
  function ScanAfter(s: WifiScanState, error: Option<string>, chunk: string, decode: string -> Option<Json>): (r: ScanHandled)
    ensures r.scan.wifiBuffer == Feed(s.wifiBuffer, chunk).buffer
    ensures Feed(s.wifiBuffer, chunk).frame.None? ==>
      r == ScanHandled(s.(wifiBuffer := r.scan.wifiBuffer), error, false)
    ensures var fed := Feed(s.wifiBuffer, chunk);
      fed.frame.Some? && DecodeNetworks(decode(fed.frame.value.payload)).None? ==>
      && !r.retry && r.error == Some(MalformedReplyMessage)
      && !r.scan.isWifiScanning && r.scan.wifiNetworks == s.wifiNetworks && r.scan.retryCount == 0
    ensures var fed := Feed(s.wifiBuffer, chunk);
      fed.frame.Some? && DecodeNetworks(decode(fed.frame.value.payload)).Some? ==>
      var networks := DecodeNetworks(decode(fed.frame.value.payload)).value;
      var step := AfterScanReply(s.retryCount, networks);
      && r.scan.wifiNetworks == networks
      && r.retry == step.RetryScan?
      && r.scan.retryCount == step.count
      && r.scan.isWifiScanning == (step.RetryScan? && s.isWifiScanning)
      && r.error == if step.FinishScan? && step.error.Some? then step.error else error
    ensures s.retryCount <= MaxWifiRetries ==> r.scan.retryCount <= MaxWifiRetries
  {
    var fed := Feed(s.wifiBuffer, chunk);
    if fed.frame.None? then ScanHandled(s.(wifiBuffer := fed.buffer), error, false)
    else
      match DecodeNetworks(decode(fed.frame.value.payload))
      case None => ScanHandled(WifiScanState(false, s.wifiNetworks, fed.buffer, 0), Some(MalformedReplyMessage), false)
      case Some(networks) =>
        var step := AfterScanReply(s.retryCount, networks);
        ScanHandled(WifiScanState(step.RetryScan? && s.isWifiScanning, networks, fed.buffer, step.count),
                    if step.FinishScan? && step.error.Some? then step.error else error,
                    step.RetryScan?)
  }

  /** What one join-reply chunk leaves behind: the join state, the error shown, and the preferences. */
  datatype JoinHandled = JoinHandled(join: WifiJoinState, error: Option<string>, store: map<string, PrefValue>)

  /**
   * `handleConnectionWifiResponse` on values: the chunk is appended to the join buffer and
   * at most one framed reply is handled. A join stores the device id; a rejection shows
   * the gateway's message; a malformed reply shows the malformed-reply error. Any framed
   * reply ends the join attempt.
   */
  function JoinAfter(j: WifiJoinState, error: Option<string>, store: map<string, PrefValue>, chunk: string, decode: string -> Option<Json>): (r: JoinHandled)
    ensures r.join.joinBuffer == Feed(j.joinBuffer, chunk).buffer
    ensures Feed(j.joinBuffer, chunk).frame.None? ==>
      r == JoinHandled(j.(joinBuffer := r.join.joinBuffer), error, store)
    ensures var fed := Feed(j.joinBuffer, chunk);
      fed.frame.Some? ==>
      var outcome := InterpretJoin(decode(fed.frame.value.payload));
      && !r.join.isWifiConnecting
      && r.error == (if outcome.Malformed? then Some(MalformedReplyMessage) else error)
      && r.join.isWifiConnected == (outcome.Joined? || j.isWifiConnected)
      && r.join.failMessage == (match outcome
           case Malformed => j.failMessage
           case Rejected(m) => Some(m)
           case Joined(_) => None)
      && r.store == if outcome.Joined? then store[DeviceIdKey := PString(outcome.deviceId)] else store
    ensures WellTyped(store) ==> WellTyped(r.store)
  {
    var fed := Feed(j.joinBuffer, chunk);
    if fed.frame.None? then JoinHandled(j.(joinBuffer := fed.buffer), error, store)
    else
      match InterpretJoin(decode(fed.frame.value.payload))
      case Malformed => JoinHandled(j.(isWifiConnecting := false, joinBuffer := fed.buffer), Some(MalformedReplyMessage), store)
      case Rejected(m) => JoinHandled(j.(isWifiConnecting := false, failMessage := Some(m), joinBuffer := fed.buffer), error, store)
      case Joined(id) =>
        JoinHandled(WifiJoinState(false, true, None, fed.buffer), error, store[DeviceIdKey := PString(id)])
  }

  class BluetoothDeviceViewModel {
    var isSearching: bool
    var devices: seq<BluetoothDevice>
    var errorMessage: Option<string>
    var bluetoothEnabled: bool
    var isConnecting: bool
    var isConnected: bool
    var isWifiScanning: bool
    var isWifiConnecting: bool
    var isWifiConnected: bool
    var wifiConnectionFailMessage: Option<string>
    var wifiNetworks: seq<WiFiNetwork>
    /** The address of the peripheral handle, if one is held. */
    var activePeripheral: Option<string>
    /** The notification job. */
    var subscription: Subscription
    var wifiBuffer: string
    /** `wifiConnectionResponseBuffer`. */
    var joinBuffer: string
    var wifiScanRetryCount: nat
    const prefs: SharedPreferences
    ghost var linkLog: seq<LinkEvent>

    function Search(): SearchState reads this { SearchState(isSearching, devices) }
    function Link(): LinkState reads this { LinkState(isConnecting, isConnected, activePeripheral) }
    function WifiScan(): WifiScanState reads this { WifiScanState(isWifiScanning, wifiNetworks, wifiBuffer, wifiScanRetryCount) }
    function WifiJoin(): WifiJoinState reads this { WifiJoinState(isWifiConnecting, isWifiConnected, wifiConnectionFailMessage, joinBuffer) }

    /** A connected model holds a peripheral, and a scan never counts past three retries. */
    ghost predicate Valid()
      reads this
    {
      && (isConnected ==> activePeripheral.Some?)
      && wifiScanRetryCount <= MaxWifiRetries
    }

    constructor (prefs: SharedPreferences, adapterEnabled: bool)
      ensures Search() == SearchState(false, []) && Link() == Unlinked
      ensures WifiScan() == WifiScanState(false, [], "", 0) && WifiJoin() == WifiJoinState(false, false, None, "")
      ensures errorMessage == None && subscription == NoSubscription && bluetoothEnabled == adapterEnabled
      ensures this.prefs == prefs && linkLog == []
      ensures Valid()
    {
      isSearching, devices, errorMessage := false, [], None;
      bluetoothEnabled := adapterEnabled;
      isConnecting, isConnected := false, false;
      isWifiScanning, isWifiConnecting, isWifiConnected := false, false, false;
      wifiConnectionFailMessage, wifiNetworks := None, [];
      activePeripheral, subscription := None, NoSubscription;
      wifiBuffer, joinBuffer, wifiScanRetryCount := "", "", 0;
      this.prefs := prefs;
      linkLog := [];
    }

    /** `disconnectSync`: a failing disconnect is ignored, so the outcome is the same either way. */
    method DisconnectSync()
      modifies this`isConnected, this`isConnecting, this`activePeripheral, this`wifiScanRetryCount, this`linkLog
      ensures Link() == Unlinked && wifiScanRetryCount == 0
      ensures linkLog == old(linkLog) + DisconnectEvents(old(activePeripheral))
      ensures Valid()
    {
      if activePeripheral.Some? {
        linkLog := linkLog + [Disconnect(activePeripheral.value)];
      }
      isConnected := false;
      isConnecting := false;
      activePeripheral := None;
      wifiScanRetryCount := 0;
    }

    /** `connectToDevice`; `connectError` is the message of the exception `connect()` throws, if any. */
    method ConnectToDevice(device: BluetoothDevice, connectError: Option<string>)
      requires Valid()
      modifies this`isConnected, this`isConnecting, this`activePeripheral, this`wifiScanRetryCount, this`linkLog, this`errorMessage
      ensures Link() == LinkState(false, connectError.None?, Some(device.address))
      ensures errorMessage == if connectError.None? then None else Some(ConnectFailedPrefix + connectError.value)
      ensures wifiScanRetryCount == if old(isConnected) then 0 else old(wifiScanRetryCount)
      ensures linkLog == old(linkLog) + (if old(isConnected) then DisconnectEvents(old(activePeripheral)) else []) + [Connect(device.address)]
      ensures Valid()
    {
      if isConnected {
        DisconnectSync();
      }
      isConnecting := true;
      activePeripheral := Some(device.address);
      linkLog := linkLog + [Connect(device.address)];
      if connectError.None? {
        errorMessage := None;
        isConnected := true;
      } else {
        isConnected := false;
        errorMessage := Some(ConnectFailedPrefix + connectError.value);
      }
      isConnecting := false;
    }

    /**
     * `searchForDevices`: drops the link, clears the list, checks permissions, the adapter
     * and location in that order, then lists the first device seen per address.
     */
    method SearchForDevices(permitted: bool, adapterEnabled: bool, locationEnabled: bool, ads: seq<Advertisement>, end: SearchEnd)
      modifies this`isConnected, this`isConnecting, this`activePeripheral, this`wifiScanRetryCount, this`linkLog
      modifies this`isSearching, this`devices, this`errorMessage
      ensures Link() == Unlinked && wifiScanRetryCount == 0
      ensures !isSearching
      ensures devices == if permitted && adapterEnabled && locationEnabled then SearchResult(ads, end) else []
      ensures !permitted ==> errorMessage == Some(NoPermissionMessage)
      ensures permitted && !adapterEnabled ==> errorMessage == Some(BluetoothOffMessage)
      ensures permitted && adapterEnabled && !locationEnabled ==> errorMessage == Some(LocationOffMessage)
      ensures permitted && adapterEnabled && locationEnabled ==> errorMessage == SearchError(devices, end)
      ensures linkLog == old(linkLog) + DisconnectEvents(old(activePeripheral))
      ensures Valid()
    {
      DisconnectSync();
      devices := [];
      errorMessage := None;
      isSearching := true;
      if !permitted {
        errorMessage := Some(NoPermissionMessage);
      } else if !adapterEnabled {
        errorMessage := Some(BluetoothOffMessage);
      } else if !locationEnabled {
        errorMessage := Some(LocationOffMessage);
      } else {
        match end
        case SetupFailed(m) =>
          errorMessage := Some(SearchFailedPrefix + m);
        case FlowFailed(m) =>
          devices := CollectDevices(ads);
          errorMessage := Some(ScanFlowFailedPrefix + m);
        case TimedOut =>
          devices := CollectDevices(ads);
          if devices == [] {
            errorMessage := Some(NoDevicesMessage);
          }
      }
      isSearching := false;
    }

    /** `disconnectAndClearDevices`: drops the link and every Wi-Fi flag; the device list is kept. */
    method DisconnectAndClearDevices()
      modifies this`isConnected, this`isConnecting, this`activePeripheral, this`wifiScanRetryCount, this`linkLog
      modifies this`isWifiConnected, this`isWifiScanning, this`wifiNetworks, this`wifiConnectionFailMessage, this`isWifiConnecting
      ensures Link() == Unlinked
      ensures WifiScan() == old(WifiScan()).(isWifiScanning := false, wifiNetworks := [], retryCount := 0)
      ensures WifiJoin() == old(WifiJoin()).(isWifiConnecting := false, isWifiConnected := false, failMessage := None)
      ensures linkLog == old(linkLog) + DisconnectEvents(old(activePeripheral))
      ensures Valid()
    {
      DisconnectSync();
      isWifiConnected := false;
      isWifiScanning := false;
      wifiNetworks := [];
      wifiConnectionFailMessage := None;
      isWifiConnecting := false;
    }

    /**
     * `requestDeviceWiFiScan`. `uart` is the characteristic UUIDs of the UART service, or
     * None when the service is missing; `failsAt` is the first write that throws, with
     * message `writeError`. Returns the slices written.
     */
    method RequestDeviceWiFiScan(uart: Option<seq<string>>, failsAt: Option<nat>, writeError: string) returns (sent: seq<string>)
      requires Valid()
      modifies this`errorMessage, this`isWifiScanning, this`wifiNetworks, this`wifiScanRetryCount, this`subscription
      ensures !old(isConnected) ==>
        && errorMessage == Some(NotConnectedMessage) && sent == []
        && WifiScan() == old(WifiScan()) && subscription == old(subscription)
      ensures old(isConnected) ==>
        && wifiNetworks == []
        && wifiScanRetryCount == (if old(isWifiScanning) then old(wifiScanRetryCount) else 0)
      ensures old(isConnected) && CheckUart(uart).UartProblem? ==>
        && errorMessage == Some(CheckUart(uart).message) && !isWifiScanning
        && subscription == old(subscription) && sent == []
      ensures old(isConnected) && CheckUart(uart).UartReady? ==>
        && subscription == ScanReplies
        && sent == Written(ScanCommandJson, failsAt)
        && isWifiScanning == Delivers(ScanCommandJson, failsAt)
        && errorMessage == if Delivers(ScanCommandJson, failsAt) then None else Some(ScanRequestFailedPrefix + writeError)
      ensures Valid()
    {
      sent := [];
      if !isConnected || activePeripheral.None? {
        errorMessage := Some(NotConnectedMessage);
        return;
      }
      if !isWifiScanning {
        wifiScanRetryCount := 0;
      }
      isWifiScanning := true;
      wifiNetworks := [];
      errorMessage := None;
      var check := CheckUart(uart);
      if check.UartProblem? {
        errorMessage := Some(check.message);
        isWifiScanning := false;
        return;
      }
      subscription := ScanReplies;
      var delivered;
      sent, delivered := SendCommand(ScanCommandJson, failsAt);
      if !delivered {
        errorMessage := Some(ScanRequestFailedPrefix + writeError);
        isWifiScanning := false;
      }
    }

    /**
     * `connectWifiOfDevice`, with the same inputs as the scan request. When a
     * characteristic is missing the source clears `isWifiScanning` instead of
     * `isWifiConnecting`, which therefore stays set; the model keeps that.
     */
    method ConnectWifiOfDevice(ssid: string, password: string, uart: Option<seq<string>>, failsAt: Option<nat>, writeError: string)
      returns (sent: seq<string>)
      requires Valid()
      modifies this`errorMessage, this`isWifiConnecting, this`wifiConnectionFailMessage, this`isWifiConnected
      modifies this`isWifiScanning, this`subscription
      ensures !old(isConnected) ==>
        && errorMessage == Some(NotConnectedMessage) && sent == []
        && WifiJoin() == old(WifiJoin()) && isWifiScanning == old(isWifiScanning) && subscription == old(subscription)
      ensures old(isConnected) ==> !isWifiConnected && wifiConnectionFailMessage == None
      ensures old(isConnected) && uart.None? ==>
        && errorMessage == Some(UartMissingMessage) && !isWifiConnecting
        && isWifiScanning == old(isWifiScanning) && subscription == old(subscription) && sent == []
      ensures old(isConnected) && uart.Some? && CheckUart(uart).UartProblem? ==>
        && errorMessage == Some(CheckUart(uart).message) && isWifiConnecting && !isWifiScanning
        && subscription == old(subscription) && sent == []
      ensures old(isConnected) && CheckUart(uart).UartReady? ==>
        && subscription == JoinReplies
        && sent == Written(JoinCommandJson(ssid, password), failsAt)
        && isWifiScanning == old(isWifiScanning)
        && isWifiConnecting == Delivers(JoinCommandJson(ssid, password), failsAt)
        && errorMessage == if Delivers(JoinCommandJson(ssid, password), failsAt) then old(errorMessage) else Some(JoinRequestFailedPrefix + writeError)
      ensures Valid()
    {
      sent := [];
      if !isConnected || activePeripheral.None? {
        errorMessage := Some(NotConnectedMessage);
        return;
      }
      isWifiConnecting := true;
      wifiConnectionFailMessage := None;
      isWifiConnected := false;
      var check := CheckUart(uart);
      if check.UartProblem? {
        errorMessage := Some(check.message);
        if uart.None? {
          isWifiConnecting := false;
        } else {
          isWifiScanning := false;
        }
        return;
      }
      subscription := JoinReplies;
      var delivered;
      sent, delivered := SendCommand(JoinCommandJson(ssid, password), failsAt);
      if !delivered {
        errorMessage := Some(JoinRequestFailedPrefix + writeError);
        isWifiConnecting := false;
      }
    }

    /**
     * `handleWiFiScanResponse`: appends the chunk to the scan buffer and handles at most
     * one framed reply. `decode` is the JSON parser. Returns whether a retry request is
     * due (the source issues it one second later).
     */
    method HandleWiFiScanResponse(chunk: string, decode: string -> Option<Json>) returns (retry: bool)
      requires Valid()
      modifies this`wifiBuffer, this`errorMessage, this`isWifiScanning, this`wifiNetworks, this`wifiScanRetryCount
      ensures ScanHandled(WifiScan(), errorMessage, retry) == ScanAfter(old(WifiScan()), old(errorMessage), chunk, decode)
      ensures Valid()
    {
      retry := false;
      var fed := Feed(wifiBuffer, chunk);
      wifiBuffer := fed.buffer;
      if fed.frame.None? {
        return;
      }
      var decoded := DecodeNetworks(decode(fed.frame.value.payload));
      if decoded.None? {
        errorMessage := Some(MalformedReplyMessage);
        isWifiScanning := false;
        wifiScanRetryCount := 0;
        return;
      }
      var networks := decoded.value;
      wifiNetworks := networks;
      if networks == [] && wifiScanRetryCount < MaxWifiRetries {
        wifiScanRetryCount := wifiScanRetryCount + 1;
        retry := true;
      } else {
        isWifiScanning := false;
        if networks == [] && wifiScanRetryCount >= MaxWifiRetries {
          errorMessage := Some(NoNetworksMessage);
          wifiScanRetryCount := 0;
        } else if networks != [] {
          wifiScanRetryCount := 0;
        }
      }
    }

    /**
     * `handleConnectionWifiResponse`: appends the chunk to the join buffer and handles at
     * most one framed reply; a join stores the device id in the preferences.
     */
    method HandleConnectionWifiResponse(chunk: string, decode: string -> Option<Json>)
      requires Valid()
      modifies this`joinBuffer, this`errorMessage, this`wifiConnectionFailMessage, this`isWifiConnected, this`isWifiConnecting
      modifies prefs`store
      ensures JoinHandled(WifiJoin(), errorMessage, prefs.store) == JoinAfter(old(WifiJoin()), old(errorMessage), old(prefs.store), chunk, decode)
      ensures Valid()
    {
      var fed := Feed(joinBuffer, chunk);
      joinBuffer := fed.buffer;
      if fed.frame.None? {
        return;
      }
      match InterpretJoin(decode(fed.frame.value.payload))
      case Malformed =>
        errorMessage := Some(MalformedReplyMessage);
        isWifiConnecting := false;
      case Rejected(m) =>
        wifiConnectionFailMessage := Some(m);
        isWifiConnecting := false;
      case Joined(id) =>
        isWifiConnected := true;
        wifiConnectionFailMessage := None;
        SaveDeviceInfo(Some(id));
        isWifiConnecting := false;
    }

    /** `saveDeviceInfo`: stores a non-empty id under "device_id"; anything else leaves the file alone. */
    method SaveDeviceInfo(deviceId: Option<string>)
      modifies prefs`store
      ensures deviceId.Some? && deviceId.value != "" ==> prefs.store == old(prefs.store)[DeviceIdKey := PString(deviceId.value)]
      ensures !(deviceId.Some? && deviceId.value != "") ==> prefs.store == old(prefs.store)
      ensures WellTyped(old(prefs.store)) ==> WellTyped(prefs.store)
    {
      if deviceId.Some? && deviceId.value != "" {
        prefs.store := prefs.store[DeviceIdKey := PString(deviceId.value)];
      }
    }

    /** A notification from the TX characteristic, routed to the handler of the live subscription. */
    method OnNotify(chunk: string, decode: string -> Option<Json>) returns (retry: bool)
      requires Valid()
      modifies this`wifiBuffer, this`errorMessage, this`isWifiScanning, this`wifiNetworks, this`wifiScanRetryCount
      modifies this`joinBuffer, this`wifiConnectionFailMessage, this`isWifiConnected, this`isWifiConnecting
      modifies prefs`store
      ensures old(subscription).NoSubscription? ==>
        WifiScan() == old(WifiScan()) && WifiJoin() == old(WifiJoin()) && errorMessage == old(errorMessage)
        && prefs.store == old(prefs.store) && !retry
      ensures old(subscription).ScanReplies? ==>
        && ScanHandled(WifiScan(), errorMessage, retry) == ScanAfter(old(WifiScan()), old(errorMessage), chunk, decode)
        && WifiJoin() == old(WifiJoin()) && prefs.store == old(prefs.store)
      ensures old(subscription).JoinReplies? ==>
        && JoinHandled(WifiJoin(), errorMessage, prefs.store) == JoinAfter(old(WifiJoin()), old(errorMessage), old(prefs.store), chunk, decode)
        && WifiScan() == old(WifiScan()) && !retry
      ensures Valid()
    {
      retry := false;
      match subscription
      case NoSubscription =>
      case ScanReplies =>
        retry := HandleWiFiScanResponse(chunk, decode);
      case JoinReplies =>
        HandleConnectionWifiResponse(chunk, decode);
    }

    /** `clearWiFiScanState`: cancels the subscription and forgets every scan result. */
    method ClearWiFiScanState()
      requires Valid()
      modifies this`subscription, this`isWifiScanning, this`wifiNetworks, this`wifiBuffer, this`wifiScanRetryCount
      ensures WifiScan() == WifiScanState(false, [], "", 0) && subscription == NoSubscription
      ensures Valid()
    {
      subscription := NoSubscription;
      isWifiScanning := false;
      wifiNetworks := [];
      wifiBuffer := "";
      wifiScanRetryCount := 0;
    }

    method ClearError()
      modifies this`errorMessage
      ensures errorMessage == None
    {
      errorMessage := None;
    }

    method SetError(message: string)
      modifies this`errorMessage
      ensures errorMessage == Some(message)
    {
      errorMessage := Some(message);
    }

    /** `onCleared`: cancels the subscription, ends the search and resets the retry count. */
    method OnCleared()
      requires Valid()
      modifies this`subscription, this`isSearching, this`wifiScanRetryCount
      ensures subscription == NoSubscription && !isSearching && wifiScanRetryCount == 0
      ensures Valid()
    {
      subscription := NoSubscription;
      isSearching := false;
      wifiScanRetryCount := 0;
    }
  }
}
