/** The plain records exchanged with the UI, the gateway and the HTTP service. */
module Dto {
  import opened Wrappers

  /** A BLE device as listed on the discovery screen. */
  datatype BluetoothDevice = BluetoothDevice(name: string, address: string, signalStrength: string, deviceType: string)

  /**
   * A Wi-Fi network reported by the gateway. The record declares `rssi` and `auth` as
   * required, yet the scan handler builds it from the SSID alone; here they are optional
   * and always absent.
   */
  datatype WiFiNetwork = WiFiNetwork(ssid: string, rssi: Option<int>, auth: Option<string>, isConnected: bool)

  /** The `device-status` answer. */
  datatype DeviceInfo = DeviceInfo(deviceId: string, ip: string, lastSeen: string)

  /** One entry of the `fall-detected` answer, most recent first. */
  datatype FallInfo = FallInfo(deviceId: string, occurredAt: string)
}
