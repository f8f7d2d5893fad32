# SwiftFiTMS core, modelled in Dafny

SwiftFiTMS finds Bluetooth fitness machines that implement the Bluetooth SIG
Fitness Machine Service (FTMS), connects to one, subscribes to its
characteristics and turns the notifications into decoded records, optionally
recording the indoor-bike ones. This project models the parts of that code
that belong to the repository itself:

- `field.dfy` (module `Field`): the `Fields` cursor. It reads fixed-width
  little-endian integers one after the other from a characteristic value. The
  16-bit flags field is read first, at construction. `Get` is proved against
  `FieldValue`, a function on the bytes it consumes. An invariant ties the
  offset and the values read so far to `DecodeFields`, the decoding of the
  whole sequence of reads. Little-endian decoding is proved to be inverted by
  encoding, both ways.
- `ftms.dfy` (module `FTMS`): the Fitness Machine service UUID 0x1826 and the
  characteristic enum with its 16-bit UUIDs. Also the five fitness-machine
  cases, their display names and symbols, and the Training Status code table
  (0x00-0x0F defined, 0x10-0xFF reserved).
- `bluetooth.dfy` (module `Bluetooth`): the boundary with the Bluetooth stack.
  Each call into `CBCentralManager` or `CBPeripheral` is a `Request` appended
  to a log. A decoded record is a `Record`. The external per-characteristic
  decoders are one `Decoder` function passed in as a parameter.
- `peripheral_service.dfy` (module `Peripheral`): `PeripheralService`. It
  connects only with the radio powered on, subscribes to every discovered
  characteristic and classifies the machine, appends decoded machine records,
  and maps the machine to a workout configuration.
- `peripheral_delegate.dfy` (module `Delegate`): `PeripheralDelegate`. It does
  the same discovery requests, yields the characteristic list, and forwards
  only decoded Indoor Bike Data to the fitness-device stream.
- `discovery.dfy` (module `Discovery`): `FitnessDeviceDiscovery`. It scans
  only with the radio on, filters advertisements on 0x1826, keeps candidates
  in a set, stops scanning on selection, and appends delivered records. While
  recording is on it also records the indoor-bike ones.
- `wrappers.dfy`, `bytes.dfy`: `Option` and the `byte` type.

Behaviour of the code worth noting:

- Classification takes the LAST characteristic in list order whose UUID names
  a machine, not the first. The loop overwrites the type on every match.
- Reading past the end of a value traps in `Fields.get`; there is no
  truncated-frame error. The model therefore makes "enough bytes remain" a
  precondition of `Get`.
- `PeripheralService.scan` has no powered-on guard. Only
  `FitnessDeviceDiscovery.scan` has one.
- No code clears the classification on disconnect. There is no disconnect
  handler.
- A peripheral that reports no services is logged and ignored. No error is
  surfaced.
- `FitnessDeviceDiscovery.connect(with:)` has its body commented out, so that
  service never calls `manager.connect` and never installs its
  `PeripheralDelegate`. As written, the fitness-device stream that
  `ConsumeStream` consumes is therefore never fed, and `isPeripheralConnected`
  means only that a peripheral has been selected.

## Model

| member | source | states |
|---|---|---|
| `Field.ByteWidth` | Sources/SwiftFiTMS/Util/Field.swift:10-17 | the byte width times 8 is the bit width, so it is 1, 2, 4 or 8 |
| `Field.LittleEndian` | Sources/SwiftFiTMS/Util/Field.swift:39-42 | the unsigned little-endian value of n bytes is below 256^n |
| `Field.LittleEndianOfBytes` | Sources/SwiftFiTMS/Util/Field.swift:39-42 | decoding the n-byte little-endian encoding of any value below 256^n gives that value back |
| `Field.BytesOfLittleEndian` | Sources/SwiftFiTMS/Util/Field.swift:39-42 | encoding the decoded value of a byte string in the same width gives the same bytes back |
| `Field.FieldValue` | Sources/SwiftFiTMS/Util/Field.swift:35-42 | the value `load(as:)` gives lies in the range of the integer type (two's complement for signed types) |
| `Field.EncodeField` | Sources/SwiftFiTMS/Util/Field.swift:35-42 | an in-range value of a type is laid out in exactly that type's byte width |
| `Field.FieldValueOfEncode` | Sources/SwiftFiTMS/Util/Field.swift:35-42 | reading back an encoded in-range value gives the value, signed or unsigned |
| `Field.EncodeOfFieldValue` | Sources/SwiftFiTMS/Util/Field.swift:35-42 | reading is injective: the bytes are recovered from the value read |
| `Field.DecodeFields` | Sources/SwiftFiTMS/Util/Field.swift:34-46 | a run of reads returns one in-range value per read |
| `Field.TotalWidthOfPrefix` | Sources/SwiftFiTMS/Util/Field.swift:25-26 | the offset only grows as more reads are made |
| `Field.DecodeFieldsAt` | Sources/SwiftFiTMS/Util/Field.swift:34-46 | the i-th read decodes the bytes just after the earlier reads' bytes; successive reads take adjacent, non-overlapping ranges inside the bytes consumed |
| `Field.Fields.constructor` | Sources/SwiftFiTMS/Util/Field.swift:29-32 | needs at least 2 bytes; afterwards the offset is 2, the flags are the little-endian 16-bit value of the first two bytes, and the invariant holds |
| `Field.Fields.Get` | Sources/SwiftFiTMS/Util/Field.swift:35-46 | needs width bytes left; returns the field at the old offset, advances the offset by exactly the width, keeps data and flags, and keeps the invariant that the offset is the sum of widths read |
| `FTMS.RawValue` | Sources/SwiftFiTMS/Models/FTMS.swift:32-114 | each raw value is "0x" and the four hexadecimal digits of its case's UUID |
| `FTMS.FromUuid` | Sources/SwiftFiTMS/Models/FTMS.swift:117 | a UUID maps to a case exactly when that case has it; otherwise no case has it |
| `FTMS.UuidInjective` | Sources/SwiftFiTMS/Models/FTMS.swift:32-114 | the eight UUIDs are pairwise distinct, and lookup by UUID inverts the case-to-UUID map |
| `FTMS.FitnessDevicesExactly` | Sources/SwiftFiTMS/Models/FTMS.swift:120 | the fitness devices are the five distinct machines; feature, power range and training status are not among them |
| `FTMS.DeviceForUuid` | Sources/SwiftFiTMS/Models/FTMS.swift:117-120 | a UUID names a machine exactly when one of the five has that UUID |
| `FTMS.DisplayName` | Sources/SwiftFiTMS/Models/FTMS.swift:127-142 | the name is "Unknown Device" exactly for the cases that are not machines |
| `FTMS.SymbolName` | Sources/SwiftFiTMS/Models/FTMS.swift:147-163 | the symbol is "xmark" exactly for the cases that are not machines |
| `FTMS.NamesDistinguishDevices` | Sources/SwiftFiTMS/Models/FTMS.swift:127-163 | two different machines never share a display name or a symbol |
| `FTMS.DecodeTrainingStatus` | Sources/SwiftFiTMS/Models/FTMS.swift:93-112 | every byte decodes; it decodes to Reserved exactly when it is 0x10 or more |
| `FTMS.TrainingStatusByte` | Sources/SwiftFiTMS/Models/FTMS.swift:93-111 | every defined status has a code below 0x10 |
| `FTMS.TrainingStatusRoundTrip` | Sources/SwiftFiTMS/Models/FTMS.swift:93-112 | the 16 defined codes and the 16 defined statuses correspond one to one |
| `Bluetooth.CharacteristicDiscoveryRequests` | Sources/SwiftFiTMS/PeripheralDelegate.swift:29-31 | one characteristic discovery request per service, in service order |
| `Bluetooth.SubscribeRequests` | Sources/SwiftFiTMS/PeripheralDelegate.swift:37-43 | two requests per discovered characteristic |
| `Bluetooth.SubscribeRequestsAt` | Sources/SwiftFiTMS/PeripheralDelegate.swift:37-43 | for the i-th characteristic, request 2i asks for its descriptors and request 2i+1 switches its notifications on |
| `Bluetooth.NotifyEnabledAppend` | Sources/SwiftFiTMS/PeripheralDelegate.swift:37-43 | the characteristics switched on by two logs in a row are those of the first, then those of the second |
| `Bluetooth.SubscribeEnablesAll` | Sources/SwiftFiTMS/Models/PeripheralService.swift:115-121 | subscribing switches notifications on for exactly the discovered characteristics, in list order |
| `Peripheral.ActivityFor` | Sources/SwiftFiTMS/Models/PeripheralService.swift:77-91 | each of the five machines maps to the activity whose machine it is |
| `Peripheral.DeviceFor` | Sources/SwiftFiTMS/Models/PeripheralService.swift:77-91 | every activity belongs to one of the five machines |
| `Peripheral.ActivityForIsBijective` | Sources/SwiftFiTMS/Models/PeripheralService.swift:77-91 | the machine-to-activity map is a bijection with the activity-to-machine map as its inverse |
| `Peripheral.LastWithUuid` | Sources/SwiftFiTMS/Models/PeripheralService.swift:122-126 | the inner loop finds a case that is in the list and has the UUID, or nothing when no case in the list has it |
| `Peripheral.LastWithUuidInFitnessDevices` | Sources/SwiftFiTMS/Models/PeripheralService.swift:122-126 | the loop over `fitnessDevices` finds exactly the machine whose UUID it is |
| `Peripheral.Classified` | Sources/SwiftFiTMS/Models/PeripheralService.swift:115-127 | a classification is the previous one or one of the five machines |
| `Peripheral.ClassifiedWithoutMatch` | Sources/SwiftFiTMS/Models/PeripheralService.swift:115-127 | when no characteristic has a machine's UUID, the previous classification stays |
| `Peripheral.ClassifiedIsLastMatch` | Sources/SwiftFiTMS/Models/PeripheralService.swift:115-127 | otherwise the classification is the machine of the last matching characteristic in list order |
| `Peripheral.Dispatch` | Sources/SwiftFiTMS/Models/PeripheralService.swift:177-214 | a record comes out exactly when there is a value, the UUID is one of the five machines' data UUIDs, and that machine's decoder accepts the value; the record is of that machine and holds the decoder's fields |
| `Peripheral.PeripheralService.constructor` | Sources/SwiftFiTMS/Models/PeripheralService.swift:14-52 | starts with no classification, no data, no peripheral, no characteristics and no requests |
| `Peripheral.PeripheralService.Scan` | Sources/SwiftFiTMS/Models/PeripheralService.swift:54-56 | requests a scan for the Fitness Machine service, with no radio-state check |
| `Peripheral.PeripheralService.StopScan` | Sources/SwiftFiTMS/Models/PeripheralService.swift:58-60 | requests a stop of the scan |
| `Peripheral.PeripheralService.Connect` | Sources/SwiftFiTMS/Models/PeripheralService.swift:62-71 | with the radio not powered on, nothing changes; otherwise the peripheral is kept and exactly one connect is requested |
| `Peripheral.PeripheralService.WorkoutConfiguration` | Sources/SwiftFiTMS/Models/PeripheralService.swift:73-94 | defined only for a classified machine, as the source stops the process otherwise; the location is indoor and the activity is the one for the classified machine |
| `Peripheral.PeripheralService.DidDiscoverServices` | Sources/SwiftFiTMS/Models/PeripheralService.swift:99-109 | one characteristic discovery per service; none when the services are missing |
| `Peripheral.PeripheralService.DidDiscoverCharacteristicsFor` | Sources/SwiftFiTMS/Models/PeripheralService.swift:111-128 | the characteristics become the service's list, or empty if it is missing; every one is subscribed in order; the classification becomes the last machine match, or stays if none matches |
| `Peripheral.PeripheralService.DidUpdateValueFor` | Sources/SwiftFiTMS/Models/PeripheralService.swift:130-132 | passes the notification to the decoding step |
| `Peripheral.PeripheralService.DecodeCharacteristicsData` | Sources/SwiftFiTMS/Models/PeripheralService.swift:177-214 | appends exactly the dispatched record at the end, or nothing; earlier records are untouched and all stored records are machine records |
| `Peripheral.PeripheralService.DidConnect` | Sources/SwiftFiTMS/Models/PeripheralService.swift:153-156 | asks the connected peripheral to discover the Fitness Machine service |
| `Peripheral.PeripheralService.DidDiscover` | Sources/SwiftFiTMS/Models/PeripheralService.swift:162-173 | inserts the advertiser into the peripheral set, so repeating it changes nothing |
| `Delegate.RouteOf` | Sources/SwiftFiTMS/PeripheralDelegate.swift:68-95 | the switch takes the bike, power-range or training-status branch exactly for that characteristic's UUID |
| `Delegate.StreamedRecord` | Sources/SwiftFiTMS/PeripheralDelegate.swift:61-96 | a record is yielded exactly for a value on the Indoor Bike Data UUID that the bike decoder accepts; it is a bike record with the decoder's fields |
| `Delegate.StreamIsBikePartOfDispatch` | Sources/SwiftFiTMS/PeripheralDelegate.swift:68-95 | on the bike UUID the delegate yields what the service's dispatch stores, and on every other UUID nothing |
| `Delegate.PeripheralDelegate.constructor` | Sources/SwiftFiTMS/PeripheralDelegate.swift:17-20 | starts with no requests and empty streams |
| `Delegate.PeripheralDelegate.DidDiscoverServices` | Sources/SwiftFiTMS/PeripheralDelegate.swift:22-32 | one characteristic discovery per service; none when the services are missing |
| `Delegate.PeripheralDelegate.DidDiscoverCharacteristicsFor` | Sources/SwiftFiTMS/PeripheralDelegate.swift:34-45 | subscribes to every characteristic in order, then yields the whole list, or empty if it is missing, exactly once |
| `Delegate.PeripheralDelegate.DidUpdateValueFor` | Sources/SwiftFiTMS/PeripheralDelegate.swift:61-96 | appends at most the one streamed record; a missing value, power range, training status, another UUID or a failed bike decode yield nothing |
| `Discovery.BikeRecords` | Sources/SwiftFiTMS/FitnessDeviceDiscovery.swift:145-149 | only bike records come out, and no more records than go in |
| `Discovery.BikeRecordsMembers` | Sources/SwiftFiTMS/FitnessDeviceDiscovery.swift:145-149 | a record is kept exactly when it is in the input and is a bike record |
| `Discovery.BikeRecordsOfPrefix` | Sources/SwiftFiTMS/FitnessDeviceDiscovery.swift:145-149 | filtering one more record of a run appends that record exactly when it is a bike record |
| `Discovery.BikeRecordsOfOne` | Sources/SwiftFiTMS/FitnessDeviceDiscovery.swift:145-149 | a single record passes exactly when it is a bike record |
| `Discovery.BikeRecordsAppend` | Sources/SwiftFiTMS/FitnessDeviceDiscovery.swift:145-149 | filtering two runs of records in a row is filtering each |
| `Discovery.BikeRecordsOfBikes` | Sources/SwiftFiTMS/FitnessDeviceDiscovery.swift:145-149 | a run of bike records passes the filter whole |
| `Discovery.FitnessDeviceDiscovery.constructor` | Sources/SwiftFiTMS/FitnessDeviceDiscovery.swift:30-69 | starts with nothing found, nothing selected, no data and recording off |
| `Bluetooth.Scanning` | Sources/SwiftFiTMS/FitnessDeviceDiscovery.swift:36 | a log is scanning exactly when some scan request in it has no stop request after it |
| `Discovery.FitnessDeviceDiscovery.IsScanning` | Sources/SwiftFiTMS/FitnessDeviceDiscovery.swift:36 | scanning holds exactly when some scan request in the service's log has no stop request after it |
| `Discovery.FitnessDeviceDiscovery.IsPeripheralConnected` | Sources/SwiftFiTMS/FitnessDeviceDiscovery.swift:56 | holds exactly when at least one peripheral has been selected, given that the connected peripheral is always the latest selection |
| `Discovery.FitnessDeviceDiscovery.Scan` | Sources/SwiftFiTMS/FitnessDeviceDiscovery.swift:79-87 | with the radio powered on, requests a scan filtered to the Fitness Machine service, and scanning then holds; otherwise nothing changes |
| `Discovery.FitnessDeviceDiscovery.StopScan` | Sources/SwiftFiTMS/FitnessDeviceDiscovery.swift:89-92 | requests a stop; scanning no longer holds |
| `Discovery.FitnessDeviceDiscovery.SetSelectedPeripheral` | Sources/SwiftFiTMS/FitnessDeviceDiscovery.swift:48-54 | the selection is recorded and becomes the connected peripheral, which keeps the service valid, and the scan is always stopped |
| `Discovery.FitnessDeviceDiscovery.ConsumePeripheral` | Sources/SwiftFiTMS/FitnessDeviceDiscovery.swift:98-102 | set insertion, so adding the same peripheral twice changes nothing |
| `Discovery.FitnessDeviceDiscovery.DidDiscover` | Sources/SwiftFiTMS/FitnessDeviceDiscovery.swift:189-203 | with no service list, or one without 0x1826, the peripherals stay; otherwise the advertiser is inserted |
| `Discovery.FitnessDeviceDiscovery.DidConnect` | Sources/SwiftFiTMS/FitnessDeviceDiscovery.swift:209-214 | asks the connected peripheral for its signal strength, then to discover all its services |
| `Discovery.FitnessDeviceDiscovery.ConnectWith` | Sources/SwiftFiTMS/FitnessDeviceDiscovery.swift:126-132 | changes nothing |
| `Discovery.FitnessDeviceDiscovery.StartRecording` | Sources/SwiftFiTMS/FitnessDeviceDiscovery.swift:135-137 | turns recording on and changes nothing else |
| `Discovery.FitnessDeviceDiscovery.StopRecording` | Sources/SwiftFiTMS/FitnessDeviceDiscovery.swift:140-142 | turns recording off and changes nothing else, the recorded data included |
| `Discovery.FitnessDeviceDiscovery.RecordData` | Sources/SwiftFiTMS/FitnessDeviceDiscovery.swift:145-149 | appends the record only while recording and only if it is a bike record; all recorded data stays bike records |
| `Discovery.FitnessDeviceDiscovery.ConsumeFitnessDeviceData` | Sources/SwiftFiTMS/FitnessDeviceDiscovery.swift:118-122 | appends exactly the value to the delivered data, and records it as `RecordData` does |
| `Discovery.FitnessDeviceDiscovery.ConsumeStream` | Sources/SwiftFiTMS/FitnessDeviceDiscovery.swift:71-75 | consuming the delivered records in order appends all of them, and, while recording, exactly their bike records in order |

## Left out

- The Bluetooth stack: scanning, connecting, discovery, notification and RSSI calls are `Request`s in a log, with no behaviour of their own. `manager.state` is a field that the environment sets. `isScanning` is derived from the log rather than read from the radio.
- Discovery.FitnessDeviceDiscovery.IsScanning: states only the request-log view of scanning, because the real flag belongs to the radio.
- The per-characteristic decoders of BluetoothMessageProtocol (`CharacteristicIndoorBikeData.decode` and the others) are not part of this model. They are one `Decoder` parameter, and their flag-bit layouts are not modelled. Their `uuidString` constants are taken to be the FTMS UUIDs of the same machines. In the same way, `ServiceFitnessMachine.uuidString`, which `FitnessDeviceDiscovery.scan` filters on, is taken to be the Fitness Machine service UUID 0x1826.
- The training-status branch of `PeripheralDelegate.didUpdateValueFor` decodes the value only to print it, so it has no modelled effect. The code table itself is `FTMS.DecodeTrainingStatus`.
- UUIDs are numbers. How `CBUUID(string:)` parses the "0x" raw values, and the equality of 16-bit and 128-bit forms, are left to CoreBluetooth.
- The `delegate` assignment in `PeripheralService.connect` is not modelled. Neither are the read-through properties `services`, `name` and `isConnected`, which read the transport's peripheral object.
- The AsyncStream plumbing and its `bufferingNewest(1)` policy are concurrency and library behaviour. `ConsumeStream` takes the sequence that the stream actually delivered.
- The JSON encoding and file write in `recordData`, and the bundle loading and sleeps of `testMode`, are I/O.
- The RSSI distance estimate with `pow` is floating point, and its result is unused. `peripheralDistance`, `pastMinuteData` and `pastHourData` are never written.
- HealthKit objects are out of scope. `WorkoutConfig` stands for the two fields set on `HKWorkoutConfiguration`. Characteristic+ActivityType.swift and IndoorBike.swift are not part of this model.
- Logging, `print`/`dump`, the `@Observable` machinery and the `centralManagerDidUpdateState` switches only log, so they are left out.
- Delegate.PeripheralDelegate.DidDiscoverCharacteristicsFor: the source yields the characteristic list after all the subscription requests; the model keeps requests and yields in two separate logs, so that order between them is not stated.
- Field.Fields.Get: reading past the end traps in the source; the model makes enough remaining bytes a precondition instead.
