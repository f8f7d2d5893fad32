/**
 * The boundary with CoreBluetooth and with the BluetoothMessageProtocol
 * decoders. Peripherals, services and characteristics are identified by
 * value; every call the code makes into the Bluetooth stack becomes a
 * `Request` appended to a log; the decoders become a `Decoder` parameter.
 */
module Bluetooth {
  import opened Wrappers
  import opened Bytes
  import opened FTMS

  /** A `CBPeripheral`, by identity. */
  type PeripheralId = nat

  /** A `CBService`: an instance handle and its type. */
  datatype Service = Service(handle: nat, uuid: Uuid)

  /** A `CBCharacteristic`: an instance handle and its type. */
  datatype GattCharacteristic = GattCharacteristic(handle: nat, uuid: Uuid)

  /** `CBManagerState`. */
  datatype ManagerState = Unknown | Resetting | Unsupported | Unauthorized | PoweredOff | PoweredOn

  /** A call into `CBCentralManager` or `CBPeripheral`. */
  datatype Request =
    | ScanForPeripherals(services: seq<Uuid>)
    | StopScan
    | Connect(peripheral: PeripheralId)
    | ReadRssi(peripheral: PeripheralId)
    | DiscoverServices(peripheral: PeripheralId, filter: seq<Uuid>)
    | DiscoverCharacteristics(service: Service)
    | DiscoverDescriptors(characteristic: GattCharacteristic)
    | SetNotifyValue(enabled: bool, characteristic: GattCharacteristic)

  /** Request `i` of `log` starts a scan that no later request stops. */
  predicate PendingScan(log: seq<Request>, i: nat)
    requires i < |log|
  {
    log[i].ScanForPeripherals? && forall j :: i < j < |log| ==> !log[j].StopScan?
  }

  /** `isScanning`, as far as requests decide it: some scan request has no stop after it. */
  function Scanning(log: seq<Request>): (scanning: bool)
    ensures scanning <==> exists i :: 0 <= i < |log| && PendingScan(log, i)
  {
    if log == [] then false
    else
      var init, last := log[..|log| - 1], log[|log| - 1];
      match last
      case ScanForPeripherals(_) =>
        assert PendingScan(log, |log| - 1);
        true
      case StopScan =>
        assert forall i :: 0 <= i < |log| ==> !PendingScan(log, i);
        false
      case _ =>
        assert forall i :: 0 <= i < |init| ==> (PendingScan(log, i) <==> PendingScan(init, i));
        assert !PendingScan(log, |log| - 1);
        Scanning(init)
  }

  /**
   * A decoded characteristic value (`any Characteristic`): which
   * characteristic it came from and its fields by name; a field whose flag bit
   * was clear is absent from the map.
   */
  datatype Record = Record(kind: Characteristic, fields: map<string, int>)

  /** `CharacteristicXData.decode(with:)` for each kind X: fields, or a decode failure. */
  type Decoder = (Characteristic, seq<byte>) -> Option<map<string, int>>

  /** `discoverCharacteristics(nil, for:)` for each service, in order. */
  function CharacteristicDiscoveryRequests(services: seq<Service>): (rs: seq<Request>)
    ensures |rs| == |services|
    ensures forall i :: 0 <= i < |services| ==> rs[i] == DiscoverCharacteristics(services[i])
  {
    if services == [] then []
    else CharacteristicDiscoveryRequests(services[..|services| - 1]) + [DiscoverCharacteristics(services[|services| - 1])]
  }

  /** `discoverDescriptors(for:)` then `setNotifyValue(true, for:)` for each characteristic, in order. */
  function SubscribeRequests(cs: seq<GattCharacteristic>): (rs: seq<Request>)
    ensures |rs| == 2 * |cs|
  {
    if cs == [] then []
    else
      var c := cs[|cs| - 1];
      SubscribeRequests(cs[..|cs| - 1]) + [DiscoverDescriptors(c), SetNotifyValue(true, c)]
  }

  /** The i-th characteristic gets requests 2i (descriptors) and 2i + 1 (notify on). */
  lemma {:induction false} SubscribeRequestsAt(cs: seq<GattCharacteristic>, i: nat)
    requires i < |cs|
    ensures SubscribeRequests(cs)[2 * i] == DiscoverDescriptors(cs[i])
    ensures SubscribeRequests(cs)[2 * i + 1] == SetNotifyValue(true, cs[i])
  {
    if i < |cs| - 1 {
      SubscribeRequestsAt(cs[..|cs| - 1], i);
    }
  }

  /** The characteristic a request switches notifications on for, if it does. */
  function EnabledBy(r: Request): seq<GattCharacteristic> {
    match r
    case SetNotifyValue(true, c) => [c]
    case _ => []
  }

  /** The characteristics a log switches notifications on for, in request order. */
  function NotifyEnabled(log: seq<Request>): seq<GattCharacteristic> {
    if log == [] then [] else NotifyEnabled(log[..|log| - 1]) + EnabledBy(log[|log| - 1])
  }

  lemma {:induction false} NotifyEnabledAppend(a: seq<Request>, b: seq<Request>)
    ensures NotifyEnabled(a + b) == NotifyEnabled(a) + NotifyEnabled(b)
    decreases |b|
  {
    if b == [] {
      assert a + b == a;
    } else {
      assert (a + b)[..|a + b| - 1] == a + b[..|b| - 1];
      assert (a + b)[|a + b| - 1] == b[|b| - 1];
      NotifyEnabledAppend(a, b[..|b| - 1]);
    }
  }

  lemma NotifyEnabledOfSubscription(c: GattCharacteristic)
    ensures NotifyEnabled([DiscoverDescriptors(c), SetNotifyValue(true, c)]) == [c]
  {
    var pair := [DiscoverDescriptors(c), SetNotifyValue(true, c)];
    assert pair[..1] == [DiscoverDescriptors(c)] && pair[..1][..0] == [];
    assert NotifyEnabled(pair[..1]) == NotifyEnabled(pair[..1][..0]) + EnabledBy(DiscoverDescriptors(c)) == [];
  }

  /** Subscribing switches notifications on for exactly the given characteristics, in order. */
  lemma {:induction false} SubscribeEnablesAll(cs: seq<GattCharacteristic>)
    ensures NotifyEnabled(SubscribeRequests(cs)) == cs
  {
    if cs != [] {
      var init, c := cs[..|cs| - 1], cs[|cs| - 1];
      var pair := [DiscoverDescriptors(c), SetNotifyValue(true, c)];
      assert SubscribeRequests(cs) == SubscribeRequests(init) + pair;
      SubscribeEnablesAll(init);
      NotifyEnabledAppend(SubscribeRequests(init), pair);
      NotifyEnabledOfSubscription(c);
      assert init + [c] == cs;
    }
  }
}
