# CuidadoAbuelito: fall alert app, modelled in Dafny

CuidadoAbuelito is an Android app that watches over an elderly person wearing a fall
sensor. The sensor's gateway is set up over Bluetooth Low Energy. The app finds it,
connects, asks it to scan for Wi-Fi networks and sends it the chosen network's
credentials. After that, a background service polls an HTTP service for the device's
fall list. When the list grows, an alarm service rings, vibrates and shows a
notification until someone stops it from the dashboard.

This project models the four classes that do that work and proves what they promise.

- **The gateway link** (`BluetoothDeviceViewModel`). The modules are `Framing`,
  `Json`, `Discovery`, `WifiProtocol` and `BleViewModel`.
  - Commands are wrapped as `<<START>>json<<END>>` and written in slices of 20 bytes.
  - Replies arrive in notification chunks. They are collected in one of two buffers until
    a frame is complete.
  - Scan replies are retried while empty. There is one first request and up to three
    retries, so at most four requests.
  - Join replies store the gateway's device id in the shared preferences.
  - The device search lists each address once, on first sighting.
- **The fall monitor** (`FallDetectionService`, module `FallDetection`).
  - A poll alarms when the fetched list is longer than the count left by the last
    successful fetch, and then alarms on the list's first entry.
  - Every successful fetch overwrites the count.
  - An alarm sets the shared `alarm_active` flag and the time of the fall.
- **The alarm** (`FallAlarmService`, module `FallAlarm`).
  - Starting is a no-op while an alarm is on.
  - Stopping always leaves everything off.
  - A player that finishes preparing after a stop stays silent.
- **The dashboard** (`DashboardDeviceViewModel`, module `Dashboard`). It mirrors the
  shared flag, clears it when the user stops the alarm, and starts or stops the monitor.

`Wrappers`, `Dto` and `Prefs` hold the option type, the records and the preferences
store that all four share.

Each class is a Dafny `class` with the source's fields. Every method names, field by field,
what it may change, and states the new value of each field it may change. Where a method
changes several related fields, its contract compares a snapshot function (`WifiScan()`,
`State()` and the like) with its old value, so every field the method leaves alone is
stated too. A notification routed to a reply handler is given the new state that handler
is specified by (`ScanAfter`, `JoinAfter`).

Three classes have an invariant `Valid()`: `BluetoothDeviceViewModel`,
`FallDetectionService` and `FallAlarmService`. The constructor establishes it, and every
entry point (lifecycle callbacks, user actions, notification handlers, the polling loop)
keeps it. Helpers called in the middle of an entry point state only their effect:
- the sound and vibration helpers of `FallAlarmService`;
- `InitializeFallCount`, `CheckForNewFalls`, `UpdateUIState` and `PollOnce` of
  `FallDetectionService`.
`DashboardDeviceViewModel` has no invariant beyond the types of its fields.

The network, the Bluetooth stack, the clock and the JSON parser are inputs of the methods
that use them:
- the answer of an HTTP call is an `Option`, None when the call throws;
- the index of the first failing write is a parameter;
- the parser is a function `string -> Option<Json>`.

Pure logic is written as functions, which lemmas relate to reference definitions:
- the frame round trip through the 20-byte slices;
- first-sighting deduplication;
- the retry bound;
- the alarm rule over a run of polls;
- the flag round trip between the monitor and the dashboard.

Where the code and its description disagree, the model follows the code:
- A scan sends up to four requests in total: the first and three retries.
- The reply buffers are not cleared when a new command is sent.
- One chunk yields at most one payload. A second complete frame in the same chunk stays
  buffered until the next chunk.
- A failed baseline fetch sets the count to 0, so the next answer with any fall raises
  the alarm (`FallDetection.FailedBaselineAlarmsOnHistory`).
- A scanned network carries only its SSID. Its signal strength and security are optional
  fields, always absent.
- `connectWifiOfDevice` handles a missing UART characteristic by clearing
  `isWifiScanning` rather than `isWifiConnecting`, so the join stays marked as in
  progress. The model keeps this behaviour
  (`BleViewModel.BluetoothDeviceViewModel.ConnectWifiOfDevice`).

## Model

| member | source | states |
|---|---|---|
| Framing.Envelope | app/src/main/java/com/example/cuidadoabuelitonative/screens/BluetoothDeviceViewModel.kt:317-318 | the command is the start marker, the JSON and the end marker, in that order and nothing else |
| Framing.IndexOf | app/src/main/java/com/example/cuidadoabuelitonative/screens/BluetoothDeviceViewModel.kt:503-504 | the first occurrence of the pattern at or after the start position, or -1 when there is none |
| Framing.TrimSpec | app/src/main/java/com/example/cuidadoabuelitonative/screens/BluetoothDeviceViewModel.kt:508-510 | the trimmed payload is a slice of the original with no whitespace at either end, and only whitespace was removed |
| Framing.FeedSpec | app/src/main/java/com/example/cuidadoabuelitonative/screens/BluetoothDeviceViewModel.kt:497-511 | the chunk is appended; when a frame is found its start is the first start marker, its end the first end marker after that start marker, the payload the trimmed text between them, and the buffer keeps only what follows the end marker; otherwise the buffer is the whole concatenation |
| Framing.FeedFindsFrameIff | app/src/main/java/com/example/cuidadoabuelitonative/screens/BluetoothDeviceViewModel.kt:503-506 | a frame is found exactly when the buffer holds a start marker with an end marker after it |
| Framing.IndexOfIsFirst | app/src/main/java/com/example/cuidadoabuelitonative/screens/BluetoothDeviceViewModel.kt:503-504 | an occurrence with none before it is the index the search returns |
| Framing.LeadingEndMarkerIgnored | app/src/main/java/com/example/cuidadoabuelitonative/screens/BluetoothDeviceViewModel.kt:503-511 | a stray end marker left in the buffer before an envelope is skipped; the trimmed JSON is yielded and the buffer ends empty |
| Framing.ChunksFlatten | app/src/main/java/com/example/cuidadoabuelitonative/screens/BluetoothDeviceViewModel.kt:320-325 | the slices written, joined, are the whole message |
| Framing.ChunkAt | app/src/main/java/com/example/cuidadoabuelitonative/screens/BluetoothDeviceViewModel.kt:322-324 | slice i is bytes 20i to min(20i+20, size) and is never empty |
| Framing.ChunksCount | app/src/main/java/com/example/cuidadoabuelitonative/screens/BluetoothDeviceViewModel.kt:322 | a message of n bytes is written in ceil(n/20) slices |
| Framing.WriteChunks | app/src/main/java/com/example/cuidadoabuelitonative/screens/BluetoothDeviceViewModel.kt:322-327 | the write loop sends every slice in order, or, when a write throws, exactly the slices before it |
| Framing.FeedWholeEnvelope | app/src/main/java/com/example/cuidadoabuelitonative/screens/BluetoothDeviceViewModel.kt:497-511 | an envelope received in one chunk yields its trimmed JSON and leaves the buffer empty |
| Framing.TwoEnvelopesInOneChunk | app/src/main/java/com/example/cuidadoabuelitonative/screens/BluetoothDeviceViewModel.kt:503-511 | two envelopes in one chunk yield the first payload and leave the second envelope in the buffer |
| Framing.FeedEnvelopePrefix | app/src/main/java/com/example/cuidadoabuelitonative/screens/BluetoothDeviceViewModel.kt:506 | any proper prefix of an envelope yields no payload and is kept whole in the buffer |
| Framing.RoundTrip | app/src/main/java/com/example/cuidadoabuelitonative/screens/BluetoothDeviceViewModel.kt:497-511 | an envelope split into any non-empty chunks yields nothing until the last chunk, which yields the trimmed JSON and empties the buffer |
| Framing.ChunkedRoundTrip | app/src/main/java/com/example/cuidadoabuelitonative/screens/BluetoothDeviceViewModel.kt:317-327 | the 20-byte slices of an envelope, fed to the reply handler, give back the trimmed JSON on the last slice only |
| Json.AsObject | app/src/main/java/com/example/cuidadoabuelitonative/screens/BluetoothDeviceViewModel.kt:516 | an object is accepted exactly when the decoded value is a JSON object |
| Json.GetString | app/src/main/java/com/example/cuidadoabuelitonative/screens/BluetoothDeviceViewModel.kt:595 | a string field is read exactly when the key is present with a string value |
| Json.Strings | app/src/main/java/com/example/cuidadoabuelitonative/screens/BluetoothDeviceViewModel.kt:519-521 | an array reads as strings exactly when every item is a string, in order |
| Json.GetStringArray | app/src/main/java/com/example/cuidadoabuelitonative/screens/BluetoothDeviceViewModel.kt:517-521 | the array field reads as strings exactly when present, an array, and all strings |
| Discovery.SignalClass | app/src/main/java/com/example/cuidadoabuelitonative/screens/BluetoothDeviceViewModel.kt:465-470 | the four signal bands: above -50, above -70, above -85, and the rest |
| Discovery.SignalClassMonotone | app/src/main/java/com/example/cuidadoabuelitonative/screens/BluetoothDeviceViewModel.kt:465-470 | a stronger signal never gets a lower band |
| Discovery.DisplayName | app/src/main/java/com/example/cuidadoabuelitonative/screens/BluetoothDeviceViewModel.kt:460-461 | a non-blank advertised name is kept; a missing or blank one becomes the unknown-device name; the result is never blank |
| Discovery.MapAdvertisementToDevice | app/src/main/java/com/example/cuidadoabuelitonative/screens/BluetoothDeviceViewModel.kt:458-478 | the device keeps the advertised address, gets the display name, the signal band and the elder-care type |
| Discovery.FirstSeenSpec | app/src/main/java/com/example/cuidadoabuelitonative/screens/BluetoothDeviceViewModel.kt:167-172 | the listed devices have distinct addresses, cover every address seen, and are all devices seen |
| Discovery.FirstSeenAppend | app/src/main/java/com/example/cuidadoabuelitonative/screens/BluetoothDeviceViewModel.kt:170-172 | a new device is added only when its address is not listed yet |
| Discovery.CollectDevices | app/src/main/java/com/example/cuidadoabuelitonative/screens/BluetoothDeviceViewModel.kt:158-184 | the collect loop lists the first device seen for each address, in order of first sighting |
| Discovery.RepeatedAdvertisementListedOnce | app/src/main/java/com/example/cuidadoabuelitonative/screens/BluetoothDeviceViewModel.kt:167-172 | a device advertised twice is listed once, as first seen |
| WifiProtocol.JoinCommandShape | app/src/main/java/com/example/cuidadoabuelitonative/screens/BluetoothDeviceViewModel.kt:409-410 | the join command is a braced JSON text and holds '<' exactly when the SSID or password does |
| WifiProtocol.CommandDelivered | app/src/main/java/com/example/cuidadoabuelitonative/screens/BluetoothDeviceViewModel.kt:317-327 | a braced command without '<' sent in 20-byte slices is read back whole on its last slice |
| WifiProtocol.ScanCommandDelivered | app/src/main/java/com/example/cuidadoabuelitonative/screens/BluetoothDeviceViewModel.kt:317-327 | the scan command survives the slicing and framing |
| WifiProtocol.JoinCommandDelivered | app/src/main/java/com/example/cuidadoabuelitonative/screens/BluetoothDeviceViewModel.kt:409-420 | the join command survives the slicing and framing when neither the SSID nor the password holds '<' |
| WifiProtocol.FirstSegment | app/src/main/java/com/example/cuidadoabuelitonative/screens/BluetoothDeviceViewModel.kt:277-282 | the UUID text up to its first '-', which holds no '-' |
| WifiProtocol.FirstSegmentOf | app/src/main/java/com/example/cuidadoabuelitonative/screens/BluetoothDeviceViewModel.kt:277-282 | the first segment of head-rest is head |
| WifiProtocol.FindCharacteristic | app/src/main/java/com/example/cuidadoabuelitonative/screens/BluetoothDeviceViewModel.kt:277-298 | the first characteristic whose first segment equals the short id ignoring case, or none when no characteristic matches |
| WifiProtocol.WriteCharacteristicFound | app/src/main/java/com/example/cuidadoabuelitonative/screens/BluetoothDeviceViewModel.kt:277-282 | a lower-case 6e400002 UUID matches the write id and a 6e400003 UUID does not |
| WifiProtocol.DecodeNetworks | app/src/main/java/com/example/cuidadoabuelitonative/screens/BluetoothDeviceViewModel.kt:516-522 | the reply's networks array becomes one network per SSID, in order; anything else is malformed |
| WifiProtocol.AfterScanReply | app/src/main/java/com/example/cuidadoabuelitonative/screens/BluetoothDeviceViewModel.kt:527-560 | an empty list is retried while fewer than three retries were made; otherwise the scan ends, the count resets, and an error is shown exactly when the list is empty |
| WifiProtocol.ScanRequestsBounded | app/src/main/java/com/example/cuidadoabuelitonative/screens/BluetoothDeviceViewModel.kt:527-540 | a scan writes at least one and at most four requests, and the count never passes three |
| WifiProtocol.ScanOutcome | app/src/main/java/com/example/cuidadoabuelitonative/screens/BluetoothDeviceViewModel.kt:527-560 | a scan that ends empty wrote exactly four requests (counting from 0) and shows the no-networks error; one that ends with networks shows none |
| WifiProtocol.FourEmptyReplies | app/src/main/java/com/example/cuidadoabuelitonative/screens/BluetoothDeviceViewModel.kt:527-560 | four empty replies: four requests, then the error |
| WifiProtocol.EmptyEmptyThenFound | app/src/main/java/com/example/cuidadoabuelitonative/screens/BluetoothDeviceViewModel.kt:527-560 | two empty replies then a network: three requests and the network shown |
| WifiProtocol.InterpretJoin | app/src/main/java/com/example/cuidadoabuelitonative/screens/BluetoothDeviceViewModel.kt:593-612 | success with a non-empty string device id joins; an error status reports its message; success without an id, and any other status, report fixed messages; the rest is malformed |
| WifiProtocol.SendCommand | app/src/main/java/com/example/cuidadoabuelitonative/screens/BluetoothDeviceViewModel.kt:409-420 | the envelope of the command is written slice by slice, up to the first failing write |
| BleViewModel.CheckUart | app/src/main/java/com/example/cuidadoabuelitonative/screens/BluetoothDeviceViewModel.kt:269-298 | the UART service is usable exactly when it exists and has both the write and the notify characteristic; each missing piece gives its own message |
| BleViewModel.BluetoothDeviceViewModel.constructor | app/src/main/java/com/example/cuidadoabuelitonative/screens/BluetoothDeviceViewModel.kt:109-111 | nothing found, nothing linked, no Wi-Fi state; Bluetooth shown as the adapter reports |
| BleViewModel.BluetoothDeviceViewModel.DisconnectSync | app/src/main/java/com/example/cuidadoabuelitonative/screens/BluetoothDeviceViewModel.kt:436-456 | not connected, not connecting, no peripheral, retry count 0; a disconnect is issued only when a peripheral existed |
| BleViewModel.BluetoothDeviceViewModel.ConnectToDevice | app/src/main/java/com/example/cuidadoabuelitonative/screens/BluetoothDeviceViewModel.kt:203-229 | disconnects first when connected; the peripheral is the device; connected exactly when the connect call succeeds, with the failure message otherwise |
| BleViewModel.BluetoothDeviceViewModel.SearchForDevices | app/src/main/java/com/example/cuidadoabuelitonative/screens/BluetoothDeviceViewModel.kt:113-201 | disconnects, then each missing precondition gives its message and an empty list; otherwise the list is the first-seen devices and the empty-result or failure message follows how the scan ended; never left searching |
| BleViewModel.BluetoothDeviceViewModel.DisconnectAndClearDevices | app/src/main/java/com/example/cuidadoabuelitonative/screens/BluetoothDeviceViewModel.kt:232-242 | disconnects and clears every Wi-Fi flag and list |
| BleViewModel.BluetoothDeviceViewModel.RequestDeviceWiFiScan | app/src/main/java/com/example/cuidadoabuelitonative/screens/BluetoothDeviceViewModel.kt:244-336 | refused with its message when not connected; a new scan resets the retry count; a missing UART piece ends the scan with its message; otherwise the scan command is written and a failing write ends the scan with the write error |
| BleViewModel.BluetoothDeviceViewModel.ConnectWifiOfDevice | app/src/main/java/com/example/cuidadoabuelitonative/screens/BluetoothDeviceViewModel.kt:340-433 | refused when not connected; otherwise the join command is written; a missing characteristic clears the scan flag and leaves the join flag set, as the code does |
| BleViewModel.ScanAfter | app/src/main/java/com/example/cuidadoabuelitonative/screens/BluetoothDeviceViewModel.kt:497-571 | the chunk goes through the scan buffer; an incomplete frame changes nothing else; a complete reply shows its list and then retries, finishes or reports the no-networks error per the retry rule; a malformed reply reports and ends the scan; the retry count never passes three |
| BleViewModel.BluetoothDeviceViewModel.HandleWiFiScanResponse | app/src/main/java/com/example/cuidadoabuelitonative/screens/BluetoothDeviceViewModel.kt:497-571 | the scan state, the error and the retry request become exactly what ScanAfter gives for the old scan state and the chunk |
| BleViewModel.JoinAfter | app/src/main/java/com/example/cuidadoabuelitonative/screens/BluetoothDeviceViewModel.kt:573-619 | the chunk goes through the join buffer; an incomplete frame changes nothing else; a complete reply ends the join attempt as joined (device id stored), rejected (message shown) or malformed (error shown); the preferences stay well typed |
| BleViewModel.BluetoothDeviceViewModel.HandleConnectionWifiResponse | app/src/main/java/com/example/cuidadoabuelitonative/screens/BluetoothDeviceViewModel.kt:573-619 | the join state, the error and the preferences become exactly what JoinAfter gives for the old join state and the chunk |
| BleViewModel.BluetoothDeviceViewModel.SaveDeviceInfo | app/src/main/java/com/example/cuidadoabuelitonative/screens/BluetoothDeviceViewModel.kt:621-630 | a non-empty id is stored under device_id; anything else leaves the store alone |
| BleViewModel.BluetoothDeviceViewModel.OnNotify | app/src/main/java/com/example/cuidadoabuelitonative/screens/BluetoothDeviceViewModel.kt:302-313 | with no subscription nothing changes; with the scan subscription the scan state, error and retry are those of ScanAfter and the join state and preferences are unchanged; with the join subscription the join state, error and preferences are those of JoinAfter and the scan state is unchanged |
| BleViewModel.BluetoothDeviceViewModel.ClearWiFiScanState | app/src/main/java/com/example/cuidadoabuelitonative/screens/BluetoothDeviceViewModel.kt:665-671 | the scan state is empty and the subscription cancelled |
| BleViewModel.BluetoothDeviceViewModel.ClearError | app/src/main/java/com/example/cuidadoabuelitonative/screens/BluetoothDeviceViewModel.kt:652-654 | no error shown |
| BleViewModel.BluetoothDeviceViewModel.SetError | app/src/main/java/com/example/cuidadoabuelitonative/screens/BluetoothDeviceViewModel.kt:656-658 | the given error shown |
| BleViewModel.BluetoothDeviceViewModel.OnCleared | app/src/main/java/com/example/cuidadoabuelitonative/screens/BluetoothDeviceViewModel.kt:673-678 | the subscription is cancelled, the search stopped and the retry count reset |
| FallDetection.FallCheck | app/src/main/java/com/example/cuidadoabuelitonative/services/FallDetectionService.kt:207-224 | an alarm exactly when a fetched list is longer than a non-negative previous count, on the list's first entry; any fetched list becomes the count; a failed fetch changes nothing |
| FallDetection.CountIsLastAnswer | app/src/main/java/com/example/cuidadoabuelitonative/services/FallDetectionService.kt:207-224 | after a run of polls the count is the size of the last list fetched, or the starting count when none was |
| FallDetection.AlarmAt | app/src/main/java/com/example/cuidadoabuelitonative/services/FallDetectionService.kt:207-224 | poll i alarms exactly when it fetched a list longer than the count the earlier polls left, on that list's first entry |
| FallDetection.CountNonNegative | app/src/main/java/com/example/cuidadoabuelitonative/services/FallDetectionService.kt:193-224 | a count that starts non-negative stays so |
| FallDetection.SteadyListNoAlarm | app/src/main/java/com/example/cuidadoabuelitonative/services/FallDetectionService.kt:212 | a list that keeps its size never raises the alarm and keeps the count |
| FallDetection.AlarmsCountRises | app/src/main/java/com/example/cuidadoabuelitonative/services/FallDetectionService.kt:207-224 | from a non-negative baseline the number of alarms is the number of fetched sizes larger than the size before them |
| FallDetection.GrowingListExample | app/src/main/java/com/example/cuidadoabuelitonative/services/FallDetectionService.kt:207-224 | from baseline 0, lists of 0, 1, 1, 2 entries alarm twice, on the newest fall each time |
| FallDetection.FailedBaselineAlarmsOnHistory | app/src/main/java/com/example/cuidadoabuelitonative/services/FallDetectionService.kt:193-203 | with a failed baseline, the first answer holding any fall raises the alarm |
| FallDetection.InitialCount | app/src/main/java/com/example/cuidadoabuelitonative/services/FallDetectionService.kt:193-203 | the baseline count is the size of the fetched list, or 0 when the fetch fails |
| FallDetection.AlarmRaisedAt | app/src/main/java/com/example/cuidadoabuelitonative/services/FallDetectionService.kt:237-242 | an alarm sets the flag and the time of the fall and keeps every other key |
| FallDetection.FallDetectionService.constructor | app/src/main/java/com/example/cuidadoabuelitonative/services/FallDetectionService.kt:74-80 | no device, no detection, no wake lock, count 0 |
| FallDetection.FallDetectionService.OnStartCommand | app/src/main/java/com/example/cuidadoabuelitonative/services/FallDetectionService.kt:84-98 | a start stores the device id and then behaves as StartDetection; a stop ends detection, releases the wake lock and stops the service; any other intent (including the null intent of a sticky restart) changes nothing; always asks to be restarted; each branch states all seven lifecycle fields |
| FallDetection.FallDetectionService.StartDetection | app/src/main/java/com/example/cuidadoabuelitonative/services/FallDetectionService.kt:126-169 | nothing changes while detection runs; without a device id the service only stops itself; otherwise the wake lock, the foreground notification, the baseline count, and polling for that device, with the stored id and the stop request unchanged |
| FallDetection.FallDetectionService.InitializeFallCount | app/src/main/java/com/example/cuidadoabuelitonative/services/FallDetectionService.kt:193-203 | the count becomes the baseline count |
| FallDetection.FallDetectionService.CheckForNewFalls | app/src/main/java/com/example/cuidadoabuelitonative/services/FallDetectionService.kt:207-229 | the count, the alarms handed to the alarm service and the flag follow the fall check for the fetched list |
| FallDetection.FallDetectionService.UpdateUIState | app/src/main/java/com/example/cuidadoabuelitonative/services/FallDetectionService.kt:237-242 | the flag and the time of the fall are written, other keys kept |
| FallDetection.FallDetectionService.PollOnce | app/src/main/java/com/example/cuidadoabuelitonative/services/FallDetectionService.kt:146-166 | one turn of the loop is one step of the monitor: a check when online, nothing otherwise; the preferences are written exactly when the turn alarms, at that turn's time |
| FallDetection.FallDetectionService.PollingLoop | app/src/main/java/com/example/cuidadoabuelitonative/services/FallDetectionService.kt:145-167 | after any number of turns the count and the alarms raised are those of the monitor over the polls; the preferences are StoreAfter of the monitor's alarms: unchanged without an alarm, the flag set once any alarm was raised |
| FallDetection.StoreAfter | app/src/main/java/com/example/cuidadoabuelitonative/services/FallDetectionService.kt:212-242 | turns that raised no alarm leave the preferences as they were; once any turn raised one, the alarm flag is set |
| FallDetection.StoreAfterLastAlarm | app/src/main/java/com/example/cuidadoabuelitonative/services/FallDetectionService.kt:212-242 | after a run with an alarm, the preferences are those the last alarming turn wrote: the flag set and that turn's time as the time of the fall |
| FallDetection.FallDetectionService.StopDetection | app/src/main/java/com/example/cuidadoabuelitonative/services/FallDetectionService.kt:252-263 | polling stopped and the wake lock released; every other lifecycle field unchanged and the invariant kept |
| FallDetection.FallDetectionService.OnDestroy | app/src/main/java/com/example/cuidadoabuelitonative/services/FallDetectionService.kt:265-268 | the same stop as StopDetection: polling stopped and the wake lock released, every other lifecycle field unchanged |
| FallAlarm.ShownFallTime | app/src/main/java/com/example/cuidadoabuelitonative/services/FallAlarmService.kt:66 | the fall time shown is the intent's extra, or the unknown-time text |
| FallAlarm.NewPlayer | app/src/main/java/com/example/cuidadoabuelitonative/services/FallAlarmService.kt:155-223 | the ringtone player, or the notification-tone player when the ringtone cannot be set up, or none when neither can; never already playing |
| FallAlarm.FallAlarmService.constructor | app/src/main/java/com/example/cuidadoabuelitonative/services/FallAlarmService.kt:57-61 | no alarm, no player |
| FallAlarm.FallAlarmService.OnStartCommand | app/src/main/java/com/example/cuidadoabuelitonative/services/FallAlarmService.kt:63-75 | a start intent starts the alarm with its fall time or the unknown-time text; a stop intent stops it; always asks to be restarted |
| FallAlarm.FallAlarmService.StartAlarmSystem | app/src/main/java/com/example/cuidadoabuelitonative/services/FallAlarmService.kt:105-117 | a no-op while alarming; otherwise alarming, with notification, foreground, vibration and a new player |
| FallAlarm.FallAlarmService.StartRingtoneSound | app/src/main/java/com/example/cuidadoabuelitonative/services/FallAlarmService.kt:155-192 | any old player is released and the ringtone player, or its fallback, is set up |
| FallAlarm.FallAlarmService.TryFallbackRingtone | app/src/main/java/com/example/cuidadoabuelitonative/services/FallAlarmService.kt:194-223 | any old player is released and the notification-tone player set up, or none when that throws |
| FallAlarm.FallAlarmService.StopSound | app/src/main/java/com/example/cuidadoabuelitonative/services/FallAlarmService.kt:225-238 | no player afterwards |
| FallAlarm.FallAlarmService.StartContinuousVibration | app/src/main/java/com/example/cuidadoabuelitonative/services/FallAlarmService.kt:240-254 | the vibrator runs |
| FallAlarm.FallAlarmService.OnPrepared | app/src/main/java/com/example/cuidadoabuelitonative/services/FallAlarmService.kt:173-178 | a prepared player starts only while the alarm is on, so sound never plays after a stop |
| FallAlarm.FallAlarmService.OnPlayerError | app/src/main/java/com/example/cuidadoabuelitonative/services/FallAlarmService.kt:180-184 | a ringtone error switches to the notification tone |
| FallAlarm.FallAlarmService.StopAlarmSystem | app/src/main/java/com/example/cuidadoabuelitonative/services/FallAlarmService.kt:256-284 | whatever the state, no alarm, no player, no vibration, no notification and no foreground afterwards, so stopping twice is stopping once |
| FallAlarm.FallAlarmService.OnDestroy | app/src/main/java/com/example/cuidadoabuelitonative/services/FallAlarmService.kt:286-290 | the full stop |
| Dashboard.AlarmCleared | app/src/main/java/com/example/cuidadoabuelitonative/screens/DashboardDeviceViewModel.kt:161-164 | stopping writes the flag false, removes the time of the fall and keeps every other key |
| Dashboard.AlarmClearedIdempotent | app/src/main/java/com/example/cuidadoabuelitonative/screens/DashboardDeviceViewModel.kt:154-170 | stopping an alarm twice leaves the store as stopping it once |
| Dashboard.RaiseThenClear | app/src/main/java/com/example/cuidadoabuelitonative/screens/DashboardDeviceViewModel.kt:173-177 | a raised alarm reads as set, reads as clear after a stop with no fall time left, and reads as set again when raised after a stop |
| Dashboard.FlagWritersKeepTypes | app/src/main/java/com/example/cuidadoabuelitonative/screens/DashboardDeviceViewModel.kt:161-164 | raising and clearing keep every key at the type its readers expect |
| Dashboard.DashboardDeviceViewModel.constructor | app/src/main/java/com/example/cuidadoabuelitonative/screens/DashboardDeviceViewModel.kt:57-61 | the listener registered and the monitor status read; nothing else known yet |
| Dashboard.DashboardDeviceViewModel.OnPreferenceChanged | app/src/main/java/com/example/cuidadoabuelitonative/screens/DashboardDeviceViewModel.kt:63-77 | only a change of alarm_active matters: it is mirrored, and when set the fall list is fetched again |
| Dashboard.DashboardDeviceViewModel.GetDeviceIdPreferences | app/src/main/java/com/example/cuidadoabuelitonative/screens/DashboardDeviceViewModel.kt:83-92 | the device id is the stored one, or none |
| Dashboard.DashboardDeviceViewModel.FetchDeviceInfo | app/src/main/java/com/example/cuidadoabuelitonative/screens/DashboardDeviceViewModel.kt:102-118 | nothing without a device id; otherwise the answer (none on failure), the update time on success, and not loading |
| Dashboard.DashboardDeviceViewModel.FetchFallDetected | app/src/main/java/com/example/cuidadoabuelitonative/screens/DashboardDeviceViewModel.kt:120-132 | nothing without a device id; otherwise the fetched list, or the empty list on failure |
| Dashboard.DashboardDeviceViewModel.StartBackgroundDetection | app/src/main/java/com/example/cuidadoabuelitonative/screens/DashboardDeviceViewModel.kt:135-144 | the monitor is started for the device and shown active only when there is a device id |
| Dashboard.DashboardDeviceViewModel.StopBackgroundDetection | app/src/main/java/com/example/cuidadoabuelitonative/screens/DashboardDeviceViewModel.kt:147-151 | the monitor is stopped and shown inactive |
| Dashboard.DashboardDeviceViewModel.StopAlarm | app/src/main/java/com/example/cuidadoabuelitonative/screens/DashboardDeviceViewModel.kt:154-170 | the alarm shown off, the flag cleared in the store and a stop sent to the alarm service |
| Dashboard.DashboardDeviceViewModel.CheckAlarmStatus | app/src/main/java/com/example/cuidadoabuelitonative/screens/DashboardDeviceViewModel.kt:173-177 | the alarm is shown exactly when the stored flag is set |
| Dashboard.DashboardDeviceViewModel.StartUIPolling | app/src/main/java/com/example/cuidadoabuelitonative/screens/DashboardDeviceViewModel.kt:180-193 | a polling job is active, and a second start changes nothing |
| Dashboard.DashboardDeviceViewModel.UIPollTurn | app/src/main/java/com/example/cuidadoabuelitonative/screens/DashboardDeviceViewModel.kt:184-190 | with the network up, one turn fetches the status and the fall list |
| Dashboard.DashboardDeviceViewModel.StopUIPolling | app/src/main/java/com/example/cuidadoabuelitonative/screens/DashboardDeviceViewModel.kt:195-199 | no polling job |
| Dashboard.DashboardDeviceViewModel.SyncAlarmState | app/src/main/java/com/example/cuidadoabuelitonative/screens/DashboardDeviceViewModel.kt:202-208 | the alarm is shown exactly when the flag is set, and the monitor status is as reported |
| Dashboard.DashboardDeviceViewModel.OnCleared | app/src/main/java/com/example/cuidadoabuelitonative/screens/DashboardDeviceViewModel.kt:210-223 | UI polling and the listener stopped; the monitor is left running |

## Left out

- The Bluetooth stack (Kable scanner, peripheral connect, service discovery, writes and notification subscriptions) is not modelled. What it returns is an input: advertisements, how the scan ended, the UART characteristic UUIDs, the first failing write, and the notification chunks.
- Coroutines, delays, timeouts and job cancellation are modelled as their effect on the fields. Interleavings of concurrent jobs are not modelled. Examples are a second search started while one runs, and the retry issued one second later.
- The baseline fetch of `initializeFallCount` runs concurrently with the first poll in the code. The model completes it before the first poll.
- Byte-level UTF-8 is not modelled. Bytes are modelled as characters, so a multi-byte character split across two 20-byte slices is not captured.
- Case-insensitive comparison of characteristic ids folds ASCII letters only.
- WifiProtocol.InterpretJoin: Android's org.json `getString` converts any value that is present to text: numbers, booleans, JSON `null` (the text "null"), and arrays and objects (their JSON text). The model treats a non-string `status`, `message` or `device_id` as malformed. So for `{"status":"success","device_id":null}` the app joins and stores "null", while the model reports a malformed reply.
- WifiProtocol.DecodeNetworks: treats a non-string array item as malformed, for the same reason.
- JSON parsing is the input function `decode`. No JSON text grammar is modelled.
- WifiProtocol.JoinCommandDelivered: proved only for SSIDs and passwords without '<'. The command pastes them in unescaped, so an embedded end marker cuts the frame short, and a quote breaks the JSON.
- HTTP calls, the clock, network availability, permission checks, the location setting and whether the monitor service runs are all inputs.
- Notifications, the notification channel, pending intents, vibration patterns, audio attributes and logging are not modelled. The foreground state, the notification and the vibrator are ghost flags.
- FallDetection.FallDetectionService.PollingLoop: covers any finite number of turns. It does not model the wake-lock renewal or the ten-minute wake-lock timeout.
- The preferences change listener is modelled as the method the app calls after a write to the store. Android's delivery of that callback is not modelled.
- The Compose screens, navigation, `MainActivity` and the display-only signal labels of the UI components are not part of this model.
