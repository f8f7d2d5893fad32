/**
 * Models/PeripheralService.swift: one peripheral's session as seen by the
 * central. It connects when the radio is on, asks for the characteristics of
 * every discovered service, subscribes to every characteristic and classifies
 * the machine from their UUIDs, and appends each successfully decoded machine
 * record to `data`.
 */
module Peripheral {
  import opened Wrappers
  import opened Bytes
  import opened FTMS
  import opened Bluetooth

  /** The `HKWorkoutActivityType` cases a fitness machine maps to. */
  datatype ActivityType = Running | CrossTraining | StepTraining | Rowing | Cycling

  /** `HKWorkoutSessionLocationType`. */
  datatype LocationType = UnknownLocation | Indoor | Outdoor

  /** The part of an `HKWorkoutConfiguration` the service sets. */
  datatype WorkoutConfig = WorkoutConfig(activityType: ActivityType, locationType: LocationType)

  /** The activity a machine is used for. */
  function ActivityFor(device: Characteristic): (activity: ActivityType)
    requires IsFitnessDevice(device)
    ensures DeviceFor(activity) == device
  {
    match device
    case Treadmill => Running
    case CrossTrainer => CrossTraining
    case StairClimber => StepTraining
    case Rower => Rowing
    case Bike => Cycling
  }

  /** The machine an activity is performed on: the inverse of `ActivityFor`. */
  function DeviceFor(activity: ActivityType): (device: Characteristic)
    ensures IsFitnessDevice(device)
  {
    match activity
    case Running => Treadmill
    case CrossTraining => CrossTrainer
    case StepTraining => StairClimber
    case Rowing => Rower
    case Cycling => Bike
  }

  lemma ActivityForIsBijective(device: Characteristic, activity: ActivityType)
    ensures IsFitnessDevice(device) ==> DeviceFor(ActivityFor(device)) == device
    ensures ActivityFor(DeviceFor(activity)) == activity
  {
  }

  /** The last of `ts` whose UUID is `u`: what the inner loop over `fitnessDevices` finds. */
  function LastWithUuid(u: Uuid, ts: seq<Characteristic>): (found: Option<Characteristic>)
    ensures found.Some? ==> found.value in ts && UuidOf(found.value) == u
    ensures found.None? ==> forall t :: t in ts ==> UuidOf(t) != u
  {
    if ts == [] then None
    else if UuidOf(ts[|ts| - 1]) == u then Some(ts[|ts| - 1])
    else
      assert ts == ts[..|ts| - 1] + [ts[|ts| - 1]];
      LastWithUuid(u, ts[..|ts| - 1])
  }

  /** The inner loop over `fitnessDevices` finds exactly the machine the UUID belongs to. */
  lemma LastWithUuidInFitnessDevices(u: Uuid)
    ensures LastWithUuid(u, FitnessDevices) == DeviceForUuid(u)
  {
    var found := LastWithUuid(u, FitnessDevices);
    if found.Some? && DeviceForUuid(u).Some? {
      UuidInjective(found.value, DeviceForUuid(u).value);
    }
  }

  /**
   * The classification after characteristic discovery: the machine of the
   * last characteristic, in list order, that has a machine's UUID; `previous`
   * when none has.
   */
  function Classified(previous: Option<Characteristic>, cs: seq<GattCharacteristic>): (device: Option<Characteristic>)
    ensures device == previous || (device.Some? && IsFitnessDevice(device.value))
  {
    if cs == [] then previous
    else
      match DeviceForUuid(cs[|cs| - 1].uuid)
      case Some(device) => Some(device)
      case None => Classified(previous, cs[..|cs| - 1])
  }

  lemma {:induction false} ClassifiedWithoutMatch(previous: Option<Characteristic>, cs: seq<GattCharacteristic>)
    requires forall i :: 0 <= i < |cs| ==> DeviceForUuid(cs[i].uuid).None?
    ensures Classified(previous, cs) == previous
  {
    if cs != [] {
      ClassifiedWithoutMatch(previous, cs[..|cs| - 1]);
    }
  }

  lemma {:induction false} ClassifiedIsLastMatch(previous: Option<Characteristic>, cs: seq<GattCharacteristic>, j: nat)
    requires j < |cs| && DeviceForUuid(cs[j].uuid).Some?
    requires forall k :: j < k < |cs| ==> DeviceForUuid(cs[k].uuid).None?
    ensures Classified(previous, cs) == DeviceForUuid(cs[j].uuid)
    ensures IsFitnessDevice(Classified(previous, cs).value)
  {
    if j < |cs| - 1 {
      ClassifiedIsLastMatch(previous, cs[..|cs| - 1], j);
    }
  }

  /**
   * `decodeCharacteristicsData`: a notification yields a record exactly when it
   * has a value, comes from the data characteristic of one of the five
   * machines, and that machine's decoder accepts the value.
   */
  function Dispatch(uuid: Uuid, value: Option<seq<byte>>, decode: Decoder): (r: Option<Record>)
    ensures r.Some? <==>
              value.Some? && DeviceForUuid(uuid).Some? && decode(DeviceForUuid(uuid).value, value.value).Some?
    ensures r.Some? ==>
              && IsFitnessDevice(r.value.kind) && UuidOf(r.value.kind) == uuid
              && decode(r.value.kind, value.value) == Some(r.value.fields)
  {
    match value
    case None => None
    case Some(bytes) =>
      match DeviceForUuid(uuid)
      case None => None
      case Some(kind) =>
        match decode(kind, bytes)
        case None => None
        case Some(fields) => Some(Record(kind, fields))
  }

  class PeripheralService {
    /** `manager.state`, set by the Bluetooth stack. */
    var managerState: ManagerState
    var fitnessDeviceCharacteristicType: Option<Characteristic>
    var data: seq<Record>
    var cbPeripheral: Option<PeripheralId>
    var peripherals: set<PeripheralId>
    var characteristics: seq<GattCharacteristic>
    /** The calls made into `CBCentralManager` and `CBPeripheral`, oldest first. */
    var requests: seq<Request>

    /** The classification names a machine, and every stored record came from a machine. */
    ghost predicate Valid()
      reads this
    {
      && (fitnessDeviceCharacteristicType.Some? ==> IsFitnessDevice(fitnessDeviceCharacteristicType.value))
      && forall r :: r in data ==> IsFitnessDevice(r.kind)
    }

    constructor (state: ManagerState)
      ensures Valid()
      ensures managerState == state && fitnessDeviceCharacteristicType == None && data == []
      ensures cbPeripheral == None && peripherals == {} && characteristics == [] && requests == []
    {
      managerState := state;
      fitnessDeviceCharacteristicType := None;
      data := [];
      cbPeripheral := None;
      peripherals := {};
      characteristics := [];
      requests := [];
    }

    /** `scan()`: no radio-state guard here. */
    method Scan()
      modifies this`requests
      ensures requests == old(requests) + [ScanForPeripherals([ServiceUuid])]
    {
      requests := requests + [ScanForPeripherals([ServiceUuid])];
    }

    method StopScan()
      modifies this`requests
      ensures requests == old(requests) + [Request.StopScan]
    {
      requests := requests + [Request.StopScan];
    }

    /** `connect(_:)`: refused unless the radio is powered on. */
    method Connect(peripheral: PeripheralId)
      modifies this`cbPeripheral, this`requests
      ensures managerState != PoweredOn ==> cbPeripheral == old(cbPeripheral) && requests == old(requests)
      ensures managerState == PoweredOn ==>
                cbPeripheral == Some(peripheral) && requests == old(requests) + [Request.Connect(peripheral)]
    {
      if managerState != PoweredOn {
        return;
      }
      cbPeripheral := Some(peripheral);
      requests := requests + [Request.Connect(peripheral)];
    }

    /**
     * `workoutConfiguration()`: always indoors, the activity of the classified
     * machine; the source stops the process when there is none.
     */
    function WorkoutConfiguration(): (config: WorkoutConfig)
      reads this
      requires fitnessDeviceCharacteristicType.Some?
      requires IsFitnessDevice(fitnessDeviceCharacteristicType.value)
      ensures config.locationType == Indoor
      ensures DeviceFor(config.activityType) == fitnessDeviceCharacteristicType.value
    {
      WorkoutConfig(ActivityFor(fitnessDeviceCharacteristicType.value), Indoor)
    }

    /** `peripheral(_:didDiscoverServices:)`: ask for the characteristics of each service. */
    method DidDiscoverServices(services: Option<seq<Service>>)
      modifies this`requests
      ensures requests == old(requests) + CharacteristicDiscoveryRequests(services.GetOr([]))
    {
      if services.None? {
        return;
      }
      var ss := services.value;
      for i := 0 to |ss|
        invariant requests == old(requests) + CharacteristicDiscoveryRequests(ss[..i])
      {
        assert ss[..i + 1][..i] == ss[..i];
        requests := requests + [DiscoverCharacteristics(ss[i])];
      }
      assert ss[..|ss|] == ss;
    }

    /**
     * `peripheral(_:didDiscoverCharacteristicsFor:)`: replace `characteristics`
     * with the service's list, subscribe to each, and classify the machine.
     */
    method DidDiscoverCharacteristicsFor(discovered: Option<seq<GattCharacteristic>>)
      requires Valid()
      modifies this`characteristics, this`requests, this`fitnessDeviceCharacteristicType
      ensures Valid()
      ensures characteristics == discovered.GetOr([])
      ensures requests == old(requests) + SubscribeRequests(characteristics)
      ensures fitnessDeviceCharacteristicType == Classified(old(fitnessDeviceCharacteristicType), characteristics)
    {
      characteristics := discovered.GetOr([]);
      ghost var previous := fitnessDeviceCharacteristicType;
      if discovered.None? {
        return;
      }
      var cs := discovered.value;
      for i := 0 to |cs|
        modifies this`requests, this`fitnessDeviceCharacteristicType
        invariant requests == old(requests) + SubscribeRequests(cs[..i])
        invariant fitnessDeviceCharacteristicType == Classified(previous, cs[..i])
      {
        assert cs[..i + 1][..i] == cs[..i];
        requests := requests + [DiscoverDescriptors(cs[i]), SetNotifyValue(true, cs[i])];
        ghost var before := fitnessDeviceCharacteristicType;
        for j := 0 to |FitnessDevices|
          modifies this`fitnessDeviceCharacteristicType
          invariant fitnessDeviceCharacteristicType ==
                    if LastWithUuid(cs[i].uuid, FitnessDevices[..j]).Some?
                    then LastWithUuid(cs[i].uuid, FitnessDevices[..j]) else before
        {
          assert FitnessDevices[..j + 1][..j] == FitnessDevices[..j];
          if cs[i].uuid == UuidOf(FitnessDevices[j]) {
            fitnessDeviceCharacteristicType := Some(FitnessDevices[j]);
          }
        }
        assert FitnessDevices[..|FitnessDevices|] == FitnessDevices;
        LastWithUuidInFitnessDevices(cs[i].uuid);
      }
      assert cs[..|cs|] == cs;
    }

    /** `peripheral(_:didUpdateValueFor:)`. */
    method DidUpdateValueFor(characteristic: GattCharacteristic, value: Option<seq<byte>>, decode: Decoder)
      requires Valid()
      modifies this`data
      ensures Valid()
      ensures data == old(data) + Dispatch(characteristic.uuid, value, decode).ToSeq()
    {
      DecodeCharacteristicsData(characteristic, value, decode);
    }

    /** `decodeCharacteristicsData(characteristic:)`: append the record, if any. */
    method DecodeCharacteristicsData(characteristic: GattCharacteristic, value: Option<seq<byte>>, decode: Decoder)
      requires Valid()
      modifies this`data
      ensures Valid()
      ensures data == old(data) + Dispatch(characteristic.uuid, value, decode).ToSeq()
    {
      var r := Dispatch(characteristic.uuid, value, decode);
      if r.Some? {
        data := data + [r.value];
      }
    }

    /** `centralManager(_:didConnect:)`: discover the Fitness Machine service. */
    method DidConnect(peripheral: PeripheralId)
      modifies this`requests
      ensures requests == old(requests) + [DiscoverServices(peripheral, [ServiceUuid])]
    {
      requests := requests + [DiscoverServices(peripheral, [ServiceUuid])];
    }

    /** `centralManager(_:didDiscover:...)`: every advertiser joins the set. */
    method DidDiscover(peripheral: PeripheralId)
      modifies this`peripherals
      ensures peripherals == old(peripherals) + {peripheral}
    {
      peripherals := peripherals + {peripheral};
    }
  }
}
