/**
 * FitnessDeviceDiscovery.swift: the application-wide discovery service. It
 * scans for Fitness Machine advertisers when the radio is on, keeps the
 * advertisers in a set, stops scanning once the user picks one, keeps every
 * record the fitness-device stream delivers, and, while recording is on,
 * records the indoor-bike ones.
 */
module Discovery {
  import opened Wrappers
  import opened FTMS
  import opened Bluetooth

  /** The indoor-bike records of `rs`, in order: what `recordData` can keep. */
  function BikeRecords(rs: seq<Record>): (bikes: seq<Record>)
    ensures |bikes| <= |rs|
    ensures forall i :: 0 <= i < |bikes| ==> bikes[i].kind == Bike
  {
    if rs == [] then []
    else if rs[|rs| - 1].kind == Bike then BikeRecords(rs[..|rs| - 1]) + [rs[|rs| - 1]]
    else BikeRecords(rs[..|rs| - 1])
  }

  /** A record is kept exactly when it is in the input and is a bike record. */
  lemma {:induction false} BikeRecordsMembers(rs: seq<Record>)
    ensures forall r :: r in BikeRecords(rs) <==> r in rs && r.kind == Bike
  {
    if rs != [] {
      BikeRecordsMembers(rs[..|rs| - 1]);
      assert rs == rs[..|rs| - 1] + [rs[|rs| - 1]];
    }
  }

  /** One record passes exactly when it is a bike record; with BikeRecordsAppend this fixes the filter. */
  lemma BikeRecordsOfOne(r: Record)
    ensures BikeRecords([r]) == if r.kind == Bike then [r] else []
  {
    assert [r][..0] == [];
  }

  lemma {:induction false} BikeRecordsAppend(a: seq<Record>, b: seq<Record>)
    ensures BikeRecords(a + b) == BikeRecords(a) + BikeRecords(b)
    decreases |b|
  {
    if b == [] {
      assert a + b == a;
    } else {
      assert (a + b)[..|a + b| - 1] == a + b[..|b| - 1];
      assert (a + b)[|a + b| - 1] == b[|b| - 1];
      BikeRecordsAppend(a, b[..|b| - 1]);
    }
  }

  /** Filtering one more record of a run adds that record exactly when it is a bike record. */
  lemma BikeRecordsOfPrefix(rs: seq<Record>, i: nat)
    requires i < |rs|
    ensures BikeRecords(rs[..i + 1]) == BikeRecords(rs[..i]) + if rs[i].kind == Bike then [rs[i]] else []
  {
    assert rs[..i + 1] == rs[..i] + [rs[i]];
    BikeRecordsAppend(rs[..i], [rs[i]]);
    BikeRecordsOfOne(rs[i]);
  }

  /** The filter keeps a sequence of bike records whole. */
  lemma {:induction false} BikeRecordsOfBikes(rs: seq<Record>)
    requires forall r :: r in rs ==> r.kind == Bike
    ensures BikeRecords(rs) == rs
  {
    if rs != [] {
      BikeRecordsOfBikes(rs[..|rs| - 1]);
      assert rs[..|rs| - 1] + [rs[|rs| - 1]] == rs;
    }
  }

  /** An advertisement passes when it lists the Fitness Machine service. */
  predicate AdvertisesFitnessMachine(advertisedServices: Option<seq<Uuid>>) {
    advertisedServices.Some? && ServiceUuid in advertisedServices.value
  }

  class FitnessDeviceDiscovery {
    /** `manager.state`, set by the Bluetooth stack. */
    var managerState: ManagerState
    /** The calls made into `CBCentralManager` and `CBPeripheral`, oldest first. */
    var requests: seq<Request>
    var peripherals: set<PeripheralId>
    var connectedPeripheral: Option<PeripheralId>
    var fitnessDeviceData: seq<Record>
    var recordedDeviceData: seq<Record>
    var isRecording: bool
    /** The peripherals the user has selected, oldest first. */
    ghost var Selected: seq<PeripheralId>

    /**
     * `recordedDeviceData` is typed `[CharacteristicIndoorBikeData]`: only bike
     * records; and `connectedPeripheral` is the latest selection, if any.
     */
    ghost predicate Valid()
      reads this
    {
      && (forall i :: 0 <= i < |recordedDeviceData| ==> recordedDeviceData[i].kind == Bike)
      && connectedPeripheral == if Selected == [] then None else Some(Selected[|Selected| - 1])
    }

    constructor (state: ManagerState)
      ensures Valid()
      ensures managerState == state && requests == [] && peripherals == {} && connectedPeripheral == None
      ensures fitnessDeviceData == [] && recordedDeviceData == [] && !isRecording && Selected == []
    {
      managerState := state;
      requests := [];
      peripherals := {};
      connectedPeripheral := None;
      fitnessDeviceData := [];
      recordedDeviceData := [];
      isRecording := false;
      Selected := [];
    }

    /** `isScanning`. */
    function IsScanning(): (scanning: bool)
      reads this
      ensures scanning <==> exists i :: 0 <= i < |requests| && PendingScan(requests, i)
    {
      Scanning(requests)
    }

    /** `isPeripheralConnected`: a peripheral has been selected. */
    function IsPeripheralConnected(): (connected: bool)
      requires Valid()
      reads this
      ensures connected <==> Selected != []
    {
      connectedPeripheral.Some?
    }

    /** `scan()`: only with the radio powered on, and only for the Fitness Machine service. */
    method Scan()
      modifies this`requests
      ensures managerState != PoweredOn ==> requests == old(requests)
      ensures managerState == PoweredOn ==>
                requests == old(requests) + [ScanForPeripherals([ServiceUuid])] && IsScanning()
    {
      if managerState != PoweredOn {
        return;
      }
      requests := requests + [ScanForPeripherals([ServiceUuid])];
    }

    method StopScan()
      modifies this`requests
      ensures requests == old(requests) + [Request.StopScan] && !IsScanning()
    {
      requests := requests + [Request.StopScan];
    }

    /** `setSelectedPeripheral(_:)`; the `didSet` of `connectedPeripheral` stops the scan. */
    method SetSelectedPeripheral(peripheral: PeripheralId)
      requires Valid()
      modifies this`connectedPeripheral, this`requests, this`Selected
      ensures Valid()
      ensures Selected == old(Selected) + [peripheral]
      ensures connectedPeripheral == Some(peripheral) && IsPeripheralConnected()
      ensures requests == old(requests) + [Request.StopScan] && !IsScanning()
    {
      connectedPeripheral := Some(peripheral);
      Selected := Selected + [peripheral];
      StopScan();
    }

    /** `consumePeripheral(_:)`: set insertion. */
    method ConsumePeripheral(peripheral: PeripheralId)
      modifies this`peripherals
      ensures peripherals == old(peripherals) + {peripheral}
    {
      peripherals := peripherals + {peripheral};
    }

    /**
     * `centralManager(_:didDiscover:advertisementData:rssi:)`: advertisers
     * without the Fitness Machine service are dropped.
     */
    method DidDiscover(peripheral: PeripheralId, advertisedServices: Option<seq<Uuid>>)
      modifies this`peripherals
      ensures !AdvertisesFitnessMachine(advertisedServices) ==> peripherals == old(peripherals)
      ensures AdvertisesFitnessMachine(advertisedServices) ==> peripherals == old(peripherals) + {peripheral}
    {
      if advertisedServices.None? {
        return;
      }
      if ServiceUuid !in advertisedServices.value {
        return;
      }
      ConsumePeripheral(peripheral);
    }

    /** `centralManager(_:didConnect:)`: read the signal strength, discover all services. */
    method DidConnect(peripheral: PeripheralId)
      modifies this`requests
      ensures requests == old(requests) + [ReadRssi(peripheral), DiscoverServices(peripheral, [])]
    {
      requests := requests + [ReadRssi(peripheral), DiscoverServices(peripheral, [])];
    }

    /** `connect(with:)`: its body is commented out. */
    method ConnectWith(peripheral: PeripheralId)
      ensures unchanged(this)
    {
    }

    method StartRecording()
      modifies this`isRecording
      ensures isRecording
    {
      isRecording := true;
    }

    method StopRecording()
      modifies this`isRecording
      ensures !isRecording
    {
      isRecording := false;
    }

    /** `recordData(_:)`, in memory: keep indoor-bike records while recording. */
    method RecordData(value: Record)
      requires Valid()
      modifies this`recordedDeviceData
      ensures Valid()
      ensures recordedDeviceData ==
                old(recordedDeviceData) + if isRecording && value.kind == Bike then [value] else []
    {
      if !isRecording {
        return;
      }
      if value.kind == Bike {
        recordedDeviceData := recordedDeviceData + [value];
      }
    }

    /** `consumeFitnessDeviceData(_:)`: keep the value, then offer it for recording. */
    method ConsumeFitnessDeviceData(value: Record)
      requires Valid()
      modifies this`fitnessDeviceData, this`recordedDeviceData
      ensures Valid()
      ensures fitnessDeviceData == old(fitnessDeviceData) + [value]
      ensures recordedDeviceData ==
                old(recordedDeviceData) + if isRecording && value.kind == Bike then [value] else []
    {
      fitnessDeviceData := fitnessDeviceData + [value];
      RecordData(value);
    }

    /**
     * The consumer task of `init()`: every value the fitness-device stream
     * delivers, in delivery order, goes through `consumeFitnessDeviceData`.
     */
    method ConsumeStream(delivered: seq<Record>)
      requires Valid()
      modifies this`fitnessDeviceData, this`recordedDeviceData
      ensures Valid()
      ensures fitnessDeviceData == old(fitnessDeviceData) + delivered
      ensures recordedDeviceData ==
                old(recordedDeviceData) + if isRecording then BikeRecords(delivered) else []
    {
      for i := 0 to |delivered|
        invariant Valid()
        invariant fitnessDeviceData == old(fitnessDeviceData) + delivered[..i]
        invariant recordedDeviceData ==
                    old(recordedDeviceData) + if isRecording then BikeRecords(delivered[..i]) else []
      {
        BikeRecordsOfPrefix(delivered, i);
        ConsumeFitnessDeviceData(delivered[i]);
      }
      assert delivered[..|delivered|] == delivered;
    }
  }
}
