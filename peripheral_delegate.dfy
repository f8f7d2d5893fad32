/**
 * PeripheralDelegate.swift: the `CBPeripheralDelegate` the discovery service
 * installs. It asks for the characteristics of every service, subscribes to
 * every characteristic and hands the list on, and forwards each decoded
 * Indoor Bike Data notification to the fitness-device stream. Power Range and
 * Training Status notifications are only logged.
 */
module Delegate {
  import opened Wrappers
  import opened Bytes
  import opened FTMS
  import opened Bluetooth
  import Peripheral

  /** The branch of the `didUpdateValueFor` switch a notification takes. */
  datatype Route = IndoorBikeData | PowerRangeNote | TrainingStatusNote | Unrecognised

  /** The switch on the notifying characteristic's UUID. */
  function RouteOf(uuid: Uuid): (route: Route)
    ensures route.IndoorBikeData? <==> FromUuid(uuid) == Some(Bike)
    ensures route.PowerRangeNote? <==> FromUuid(uuid) == Some(PowerRange)
    ensures route.TrainingStatusNote? <==> FromUuid(uuid) == Some(TrainingStatus)
  {
    if uuid == UuidOf(Bike) then IndoorBikeData
    else if uuid == UuidOf(PowerRange) then PowerRangeNote
    else if uuid == UuidOf(TrainingStatus) then TrainingStatusNote
    else Unrecognised
  }

  /** The record a notification yields to the fitness-device stream, if any. */
  function StreamedRecord(uuid: Uuid, value: Option<seq<byte>>, decode: Decoder): (r: Option<Record>)
    ensures r.Some? <==> value.Some? && uuid == UuidOf(Bike) && decode(Bike, value.value).Some?
    ensures r.Some? ==> r.value.kind == Bike && decode(Bike, value.value) == Some(r.value.fields)
  {
    match value
    case None => None
    case Some(bytes) =>
      match RouteOf(uuid)
      case IndoorBikeData =>
        (match decode(Bike, bytes)
         case Some(fields) => Some(Record(Bike, fields))
         case None => None)
      case _ => None
  }

  /**
   * The stream carries exactly the bike part of what the service stores:
   * on the Indoor Bike Data UUID both decode alike, on every other UUID the
   * stream gets nothing.
   */
  lemma StreamIsBikePartOfDispatch(uuid: Uuid, value: Option<seq<byte>>, decode: Decoder)
    ensures StreamedRecord(uuid, value, decode) ==
              if uuid == UuidOf(Bike) then Peripheral.Dispatch(uuid, value, decode) else None
  {
    if uuid == UuidOf(Bike) {
      UuidInjective(Bike, Bike);
    }
  }

  class PeripheralDelegate {
    /** The calls made into `CBPeripheral`, oldest first. */
    var requests: seq<Request>
    /** The values yielded to the fitness-device stream, oldest first. */
    var deviceStream: seq<Record>
    /** The characteristic lists yielded to the characteristics stream, oldest first. */
    var characteristicsStream: seq<seq<GattCharacteristic>>

    /** Only indoor-bike records reach the fitness-device stream. */
    ghost predicate Valid()
      reads this
    {
      forall r :: r in deviceStream ==> r.kind == Bike
    }

    constructor ()
      ensures Valid()
      ensures requests == [] && deviceStream == [] && characteristicsStream == []
    {
      requests := [];
      deviceStream := [];
      characteristicsStream := [];
    }

    /** `peripheral(_:didDiscoverServices:)`: ask for the characteristics of each service. */
    method DidDiscoverServices(services: Option<seq<Service>>)
      modifies this`requests
      ensures requests == old(requests) + CharacteristicDiscoveryRequests(services.GetOr([]))
    {
      if services.None? {
        return;
      }
      var ss := services.value;
      for i := 0 to |ss|
        invariant requests == old(requests) + CharacteristicDiscoveryRequests(ss[..i])
      {
        assert ss[..i + 1][..i] == ss[..i];
        requests := requests + [DiscoverCharacteristics(ss[i])];
      }
      assert ss[..|ss|] == ss;
    }

    /**
     * `peripheral(_:didDiscoverCharacteristicsFor:)`: subscribe to each
     * characteristic, then yield the whole list once.
     */
    method DidDiscoverCharacteristicsFor(discovered: Option<seq<GattCharacteristic>>)
      modifies this`requests, this`characteristicsStream
      ensures requests == old(requests) + SubscribeRequests(discovered.GetOr([]))
      ensures characteristicsStream == old(characteristicsStream) + [discovered.GetOr([])]
    {
      if discovered.Some? {
        var cs := discovered.value;
        for i := 0 to |cs|
          modifies this`requests
          invariant requests == old(requests) + SubscribeRequests(cs[..i])
        {
          assert cs[..i + 1][..i] == cs[..i];
          requests := requests + [DiscoverDescriptors(cs[i]), SetNotifyValue(true, cs[i])];
        }
        assert cs[..|cs|] == cs;
      }
      characteristicsStream := characteristicsStream + [discovered.GetOr([])];
    }

    /**
     * `peripheral(_:didUpdateValueFor:)`: yield decoded Indoor Bike Data; the
     * Power Range and Training Status branches only log.
     */
    method DidUpdateValueFor(characteristic: GattCharacteristic, value: Option<seq<byte>>, decode: Decoder)
      requires Valid()
      modifies this`deviceStream
      ensures Valid()
      ensures deviceStream == old(deviceStream) + StreamedRecord(characteristic.uuid, value, decode).ToSeq()
    {
      if value.None? {
        return;
      }
      match RouteOf(characteristic.uuid)
      case IndoorBikeData =>
        var decoded := decode(Bike, value.value);
        if decoded.Some? {
          deviceStream := deviceStream + [Record(Bike, decoded.value)];
        }
      case PowerRangeNote =>
      case TrainingStatusNote =>
      case Unrecognised =>
    }
  }
}
