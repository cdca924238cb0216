/**
 * BLE discovery: how an advertisement becomes a listed device, and how the scan keeps
 * the first device seen for each address.
 */
module Discovery {
  import opened Wrappers
  import opened Dto
  import Framing

  /** What the scanner reports for one advertisement. */
  datatype Advertisement = Advertisement(name: Option<string>, identifier: string, rssi: int)

  const UnknownDeviceName: string := "Dispositivo desconocido"
  const ElderCareDeviceType: string := "Cuidado a ancianos"

  const Excellent: string := "Excelente"
  const Good: string := "Buena"
  const Fair: string := "Regular"
  const Weak: string := "Débil"

  /** Kotlin's `isBlank`: empty or whitespace only. */
  predicate IsBlank(s: string) {
    forall i :: 0 <= i < |s| ==> Framing.IsWhitespace(s[i])
  }

  /** The signal-strength label for an RSSI in dBm; each label owns one band. */
  function SignalClass(rssi: int): (c: string)
    ensures c == Excellent <==> rssi > -50
    ensures c == Good <==> -70 < rssi <= -50
    ensures c == Fair <==> -85 < rssi <= -70
    ensures c == Weak <==> rssi <= -85
  {
    if rssi > -50 then Excellent
    else if rssi > -70 then Good
    else if rssi > -85 then Fair
    else Weak
  }

  /** Labels ordered from weakest to strongest. */
  function SignalRank(c: string): nat {
    if c == Excellent then 3 else if c == Good then 2 else if c == Fair then 1 else 0
  }

  /** A stronger signal never gets a weaker label. */
  lemma SignalClassMonotone(a: int, b: int)
    requires a <= b
    ensures SignalRank(SignalClass(a)) <= SignalRank(SignalClass(b))
  {
  }

  /** The advertised name unless it is missing or blank. */
  function DisplayName(name: Option<string>): (n: string)
    ensures name.Some? && !IsBlank(name.value) ==> n == name.value
    ensures name.None? || IsBlank(name.value) ==> n == UnknownDeviceName
    ensures !IsBlank(n)
  {
    assert !Framing.IsWhitespace(UnknownDeviceName[0]);
    if name.Some? && !IsBlank(name.value) then name.value else UnknownDeviceName
  }

  /** `mapAdvertisementToDevice`: never fails, keeps the identifier as the address. */
  function MapAdvertisementToDevice(ad: Advertisement): (d: BluetoothDevice)
    ensures d.address == ad.identifier
    ensures !IsBlank(d.name)
    ensures d.name == DisplayName(ad.name) && d.signalStrength == SignalClass(ad.rssi)
    ensures d.deviceType == ElderCareDeviceType
  {
    BluetoothDevice(DisplayName(ad.name), ad.identifier, SignalClass(ad.rssi), ElderCareDeviceType)
  }

  function MapAll(ads: seq<Advertisement>): (ds: seq<BluetoothDevice>)
    ensures |ds| == |ads|
  {
    if ads == [] then [] else MapAll(ads[..|ads| - 1]) + [MapAdvertisementToDevice(ads[|ads| - 1])]
  }

  predicate HasAddress(ds: seq<BluetoothDevice>, address: string) {
    exists k :: 0 <= k < |ds| && ds[k].address == address
  }

  predicate UniqueAddresses(ds: seq<BluetoothDevice>) {
    forall i, j :: 0 <= i < j < |ds| ==> ds[i].address != ds[j].address
  }

  /**
   * Reference definition of the de-duplication: a device is kept exactly when no earlier
   * device has its address, and the kept devices stay in arrival order.
   */
  function FirstSeen(ds: seq<BluetoothDevice>): seq<BluetoothDevice> {
    if ds == [] then []
    else
      var earlier := ds[..|ds| - 1];
      if HasAddress(earlier, ds[|ds| - 1].address) then FirstSeen(earlier)
      else FirstSeen(earlier) + [ds[|ds| - 1]]
  }

  /**
   * The kept devices have pairwise distinct addresses, cover every address seen, and
   * are devices that were seen.
   */
  lemma {:induction false} FirstSeenSpec(ds: seq<BluetoothDevice>)
    ensures UniqueAddresses(FirstSeen(ds))
    ensures forall a :: HasAddress(FirstSeen(ds), a) <==> HasAddress(ds, a)
    ensures forall d :: d in FirstSeen(ds) ==> d in ds
  {
    if ds != [] {
      var earlier := ds[..|ds| - 1];
      var last := ds[|ds| - 1];
      FirstSeenSpec(earlier);
      forall a ensures HasAddress(ds, a) <==> HasAddress(earlier, a) || last.address == a {
        if HasAddress(ds, a) {
          var k :| 0 <= k < |ds| && ds[k].address == a;
          if k < |ds| - 1 { assert earlier[k] == ds[k]; }
        }
        if HasAddress(earlier, a) {
          var k :| 0 <= k < |earlier| && earlier[k].address == a;
          assert ds[k] == earlier[k];
        }
      }
      var f := FirstSeen(earlier);
      if !HasAddress(earlier, last.address) {
        var g := f + [last];
        forall a ensures HasAddress(g, a) <==> HasAddress(f, a) || last.address == a {
          if HasAddress(g, a) {
            var k :| 0 <= k < |g| && g[k].address == a;
            if k < |f| { assert f[k] == g[k]; }
          }
          if HasAddress(f, a) {
            var k :| 0 <= k < |f| && f[k].address == a;
            assert g[k] == f[k];
          }
          if last.address == a { assert g[|f|] == last; }
        }
        forall i, j | 0 <= i < j < |g| ensures g[i].address != g[j].address {
          if j == |f| {
            assert g[i] == f[i];
            assert !HasAddress(f, last.address);
          }
        }
      }
    }
  }

  /** One more device: kept exactly when its address is new. */
  lemma FirstSeenAppend(ds: seq<BluetoothDevice>, d: BluetoothDevice)
    ensures FirstSeen(ds + [d]) == if HasAddress(ds, d.address) then FirstSeen(ds) else FirstSeen(ds) + [d]
  {
    assert (ds + [d])[..|ds|] == ds;
  }

  lemma MapAllAppend(ads: seq<Advertisement>, i: nat)
    requires i < |ads|
    ensures MapAll(ads[..i + 1]) == MapAll(ads[..i]) + [MapAdvertisementToDevice(ads[i])]
  {
    assert ads[..i + 1][..i] == ads[..i];
  }

  /**
   * The collecting loop of `searchForDevices`: each advertisement is mapped to a device,
   * which is appended unless a device with the same address is already listed.
   */
  method CollectDevices(ads: seq<Advertisement>) returns (found: seq<BluetoothDevice>)
    ensures found == FirstSeen(MapAll(ads))
  {
    found := [];
    for i := 0 to |ads|
      invariant found == FirstSeen(MapAll(ads[..i]))
    {
      var device := MapAdvertisementToDevice(ads[i]);
      MapAllAppend(ads, i);
      FirstSeenAppend(MapAll(ads[..i]), device);
      FirstSeenSpec(MapAll(ads[..i]));
      if !HasAddress(found, device.address) {
        found := found + [device];
      }
    }
    assert ads[..|ads|] == ads;
  }

  /** Two advertisements from one peripheral list it once, under its first name and signal. */
  lemma RepeatedAdvertisementListedOnce(first: Advertisement, again: Advertisement)
    requires first.identifier == again.identifier
    ensures FirstSeen(MapAll([first, again])) == [MapAdvertisementToDevice(first)]
  {
    var d1, d2 := MapAdvertisementToDevice(first), MapAdvertisementToDevice(again);
    assert [first, again][..1] == [first];
    assert MapAll([first]) == [d1];
    assert MapAll([first, again]) == [d1] + [d2];
    FirstSeenAppend([], d1);
    assert [] + [d1] == [d1];
    FirstSeenAppend([d1], d2);
    assert HasAddress([d1], d2.address) by { assert [d1][0].address == d2.address; }
  }
}
