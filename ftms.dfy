/**
 * The registry of Models/FTMS.swift: the Fitness Machine Service identifier,
 * the closed set of its characteristics (chapter 4, Service Characteristics, of
 * the Bluetooth SIG Fitness Machine Service 1.0 specification) with their
 * 16-bit UUIDs, the subset that names a kind of fitness machine, their display
 * names and symbols, and the Training Status code table.
 */
module FTMS {
  import opened Wrappers
  import opened Bytes

  /** A Bluetooth UUID; a 16-bit assigned number stands for itself. */
  type Uuid = nat

  /** `FTMS.Service.uuid`: the Fitness Machine service. */
  const ServiceUuid: Uuid := 0x1826

  /** `FTMS.Characteristic`, its cases in declaration order. */
  datatype Characteristic =
    | FitnessMachineFeature
    | Treadmill
    | CrossTrainer
    | StairClimber
    | Rower
    | Bike
    | PowerRange
    | TrainingStatus

  /** `allCases`. */
  const AllCharacteristics: seq<Characteristic> :=
    [FitnessMachineFeature, Treadmill, CrossTrainer, StairClimber, Rower, Bike, PowerRange, TrainingStatus]

  /** The 16-bit assigned number of each characteristic. */
  function UuidOf(c: Characteristic): (u: Uuid)
    ensures 0x2ACC <= u <= 0x2AD8
  {
    match c
    case FitnessMachineFeature => 0x2ACC
    case Treadmill => 0x2ACD
    case CrossTrainer => 0x2ACE
    case StairClimber => 0x2AD0
    case Rower => 0x2AD1
    case Bike => 0x2AD2
    case PowerRange => 0x2AD8
    case TrainingStatus => 0x2AD3
  }

  function HexDigit(d: nat): char
    requires d < 16
  {
    "0123456789ABCDEF"[d]
  }

  /** A 16-bit UUID written as `0x` and four upper-case hexadecimal digits. */
  function UuidString(u: Uuid): string
    requires u < 0x10000
  {
    "0x" + [HexDigit(u / 0x1000), HexDigit(u / 0x100 % 16), HexDigit(u / 0x10 % 16), HexDigit(u % 16)]
  }

  /** The enum's `rawValue`, from which `uuid` is built: the UUID spelled in hexadecimal. */
  function RawValue(c: Characteristic): (s: string)
    ensures s == UuidString(UuidOf(c))
  {
    match c
    case FitnessMachineFeature => "0x2ACC"
    case Treadmill => "0x2ACD"
    case CrossTrainer => "0x2ACE"
    case StairClimber => "0x2AD0"
    case Rower => "0x2AD1"
    case Bike => "0x2AD2"
    case PowerRange => "0x2AD8"
    case TrainingStatus => "0x2AD3"
  }

  /** The characteristic a UUID stands for, if any. */
  function FromUuid(u: Uuid): (r: Option<Characteristic>)
    ensures r.Some? ==> UuidOf(r.value) == u
    ensures r.None? ==> forall c :: UuidOf(c) != u
  {
    if u == 0x2ACC then Some(FitnessMachineFeature)
    else if u == 0x2ACD then Some(Treadmill)
    else if u == 0x2ACE then Some(CrossTrainer)
    else if u == 0x2AD0 then Some(StairClimber)
    else if u == 0x2AD1 then Some(Rower)
    else if u == 0x2AD2 then Some(Bike)
    else if u == 0x2AD8 then Some(PowerRange)
    else if u == 0x2AD3 then Some(TrainingStatus)
    else None
  }

  /** The raw values are pairwise distinct, so lookup by UUID inverts `UuidOf`. */
  lemma UuidInjective(a: Characteristic, b: Characteristic)
    ensures UuidOf(a) == UuidOf(b) <==> a == b
    ensures FromUuid(UuidOf(a)) == Some(a)
  {
    match a
    case FitnessMachineFeature =>
    case Treadmill =>
    case CrossTrainer =>
    case StairClimber =>
    case Rower =>
    case Bike =>
    case PowerRange =>
    case TrainingStatus =>
  }

  /** `fitnessDevices`: the cases that stand for a kind of machine rather than a function. */
  const FitnessDevices: seq<Characteristic> := [Bike, CrossTrainer, StairClimber, Rower, Treadmill]

  predicate IsFitnessDevice(c: Characteristic) {
    c in FitnessDevices
  }

  lemma FitnessDevicesExactly(c: Characteristic)
    ensures IsFitnessDevice(c) <==> !(c.FitnessMachineFeature? || c.PowerRange? || c.TrainingStatus?)
    ensures |FitnessDevices| == 5
    ensures forall i, j :: 0 <= i < j < |FitnessDevices| ==> FitnessDevices[i] != FitnessDevices[j]
  {
  }

  /** The machine whose data characteristic has UUID `u`, if it is one of the five. */
  function DeviceForUuid(u: Uuid): (r: Option<Characteristic>)
    ensures r.Some? ==> IsFitnessDevice(r.value) && UuidOf(r.value) == u
    ensures r.None? ==> forall c :: IsFitnessDevice(c) ==> UuidOf(c) != u
  {
    match FromUuid(u)
    case Some(c) => if IsFitnessDevice(c) then Some(c) else None
    case None => None
  }

  /** `displayName`. */
  function DisplayName(c: Characteristic): (name: string)
    ensures name == "Unknown Device" <==> !IsFitnessDevice(c)
  {
    match c
    case Treadmill => "Treadmill"
    case CrossTrainer => "Cross Trainer"
    case StairClimber => "Stair Climber"
    case Rower => "Indoor Rower"
    case Bike => "Indoor Bike"
    case _ => "Unknown Device"
  }

  /** `symbolName`: an SF Symbols name. */
  function SymbolName(c: Characteristic): (name: string)
    ensures name == "xmark" <==> !IsFitnessDevice(c)
  {
    match c
    case Treadmill => "figure.run"
    case CrossTrainer => "figure.cross.training"
    case StairClimber => "figure.stair.stepper"
    case Rower => "figure.rower"
    case Bike => "figure.indoor.cycle"
    case _ => "xmark"
  }

  /** Each of the five machines has a name and a symbol of its own. */
  lemma NamesDistinguishDevices(a: Characteristic, b: Characteristic)
    requires IsFitnessDevice(a) && IsFitnessDevice(b) && a != b
    ensures DisplayName(a) != DisplayName(b)
    ensures SymbolName(a) != SymbolName(b)
  {
  }

  /** The values of the Training Status field. */
  datatype TrainingStatusCode =
    | Other
    | Idle
    | WarmingUp
    | LowIntensityInterval
    | HighIntensityInterval
    | RecoveryInterval
    | Isometric
    | HeartRateControl
    | FitnessTest
    | SpeedOutsideControlRegionLow
    | SpeedOutsideControlRegionHigh
    | CoolDown
    | WattControl
    | ManualMode
    | PreWorkout
    | PostWorkout
    | ReservedForFutureUse

  /** The Training Status table: every byte has a meaning, 0x10-0xFF reserved. */
  function DecodeTrainingStatus(b: byte): (s: TrainingStatusCode)
    ensures s.ReservedForFutureUse? <==> b >= 0x10
  {
    if b == 0x00 then Other
    else if b == 0x01 then Idle
    else if b == 0x02 then WarmingUp
    else if b == 0x03 then LowIntensityInterval
    else if b == 0x04 then HighIntensityInterval
    else if b == 0x05 then RecoveryInterval
    else if b == 0x06 then Isometric
    else if b == 0x07 then HeartRateControl
    else if b == 0x08 then FitnessTest
    else if b == 0x09 then SpeedOutsideControlRegionLow
    else if b == 0x0A then SpeedOutsideControlRegionHigh
    else if b == 0x0B then CoolDown
    else if b == 0x0C then WattControl
    else if b == 0x0D then ManualMode
    else if b == 0x0E then PreWorkout
    else if b == 0x0F then PostWorkout
    else ReservedForFutureUse
  }

  /** The code of a defined status. */
  function TrainingStatusByte(s: TrainingStatusCode): (b: byte)
    requires !s.ReservedForFutureUse?
    ensures b < 0x10
  {
    match s
    case Other => 0x00
    case Idle => 0x01
    case WarmingUp => 0x02
    case LowIntensityInterval => 0x03
    case HighIntensityInterval => 0x04
    case RecoveryInterval => 0x05
    case Isometric => 0x06
    case HeartRateControl => 0x07
    case FitnessTest => 0x08
    case SpeedOutsideControlRegionLow => 0x09
    case SpeedOutsideControlRegionHigh => 0x0A
    case CoolDown => 0x0B
    case WattControl => 0x0C
    case ManualMode => 0x0D
    case PreWorkout => 0x0E
    case PostWorkout => 0x0F
  }

  /** The 16 defined codes and the 16 defined statuses correspond one to one. */
  lemma TrainingStatusRoundTrip(b: byte, s: TrainingStatusCode)
    ensures b < 0x10 ==> TrainingStatusByte(DecodeTrainingStatus(b)) == b
    ensures !s.ReservedForFutureUse? ==> DecodeTrainingStatus(TrainingStatusByte(s)) == s
  {
  }
}
