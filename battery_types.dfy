/**
 * The value records of the managed layer: a battery's status and static information,
 * the manufacture date, and the system-wide power status, with their enumerations.
 * C# enums that the decoder fills by casting a raw number keep that number here.
 */
module BatteryTypes {
  import opened Words

  /** `BatteryChemistryType`: a closed set. */
  datatype BatteryChemistryType = Unknown | PbAc | LION | LiI | NiCd | NiMH | NiZn | RAM

  /** Named values of `BatteryTechnologyType`. */
  const TechnologyUnknown: int := -1
  const Nonrechargeable: int := 0
  const Rechargeable: int := 1

  /** Bits of `BatteryPowerState`. */
  const PowerOnline: bv32 := 0x1
  const Discharging: bv32 := 0x2
  const Charging: bv32 := 0x4
  const Critical: bv32 := 0x8

  /** `BatteryStatus`. */
  datatype BatteryStatus = BatteryStatus(
    powerState: bv32,
    capacity: uint32,
    voltage: uint32,
    dischargeRate: int32)

  /** `new BatteryStatus()`: every field zero. */
  const ZeroStatus := BatteryStatus(0, 0, 0, 0)

  /** `BatteryInformation`. */
  datatype BatteryInformation = BatteryInformation(
    isCapacityRelative: bool,
    isShortTerm: bool,
    isSystemBattery: bool,
    technologyType: int,
    chemistry: BatteryChemistryType,
    designedCapacity: uint32,
    fullChargedCapacity: uint32,
    defaultAlert1: uint32,
    defaultAlert2: uint32,
    criticalBias: uint32,
    cycleCount: uint32)

  /** `new BatteryInformation()`: flags false, numbers zero, enums at their zero member. */
  const ZeroInformation := BatteryInformation(false, false, false, Nonrechargeable, Unknown, 0, 0, 0, 0, 0, 0)

  /** A calendar date, standing in for `DateTime` at day resolution. */
  datatype DateTime = DateTime(year: int, month: int, day: int)

  /** `DateTime.MinValue`, the "undefined" manufacture date. */
  const MinValue := DateTime(1, 1, 1)

  predicate IsLeapYear(year: int) {
    year % 4 == 0 && (year % 100 != 0 || year % 400 == 0)
  }

  function DaysInMonth(year: int, month: int): (n: int)
    requires 1 <= month <= 12
    ensures 28 <= n <= 31
    ensures n == 31 <==> month in {1, 3, 5, 7, 8, 10, 12}
    ensures n == 30 <==> month in {4, 6, 9, 11}
    ensures n == 29 <==> month == 2 && IsLeapYear(year)
    ensures n == 28 <==> month == 2 && !IsLeapYear(year)
  {
    if month == 2 then (if IsLeapYear(year) then 29 else 28)
    else if month == 4 || month == 6 || month == 9 || month == 11 then 30
    else 31
  }

  /** The range check of the `DateTime(year, month, day)` constructor. */
  predicate IsValidDate(year: int, month: int, day: int) {
    1 <= year <= 9999 && 1 <= month <= 12 && 1 <= day <= DaysInMonth(year, month)
  }

  /** Boundary cases of the range check: leap days, short months and the year range. */
  lemma DateBoundaries()
    ensures IsValidDate(2000, 2, 29) && !IsValidDate(1900, 2, 29) && !IsValidDate(2023, 2, 29)
    ensures IsValidDate(2024, 2, 29) && IsValidDate(2023, 12, 31) && !IsValidDate(2023, 4, 31)
    ensures IsValidDate(1, 1, 1) && IsValidDate(9999, 12, 31)
    ensures !IsValidDate(0, 1, 1) && !IsValidDate(10000, 1, 1)
    ensures !IsValidDate(2023, 0, 1) && !IsValidDate(2023, 13, 1) && !IsValidDate(2023, 1, 0)
  {
  }

  /** Named values of `SystemPowerAcState`. */
  const AcOffline: int := 0
  const AcOnline: int := 1
  const AcUnknownStatus: int := 255

  /** Named values of `SystemBatteryStatusFlag`. */
  const BatterySaverOff: int := 0
  const BatterySaverOn: int := 1

  /**
   * The six properties of `SystemPowerStatus` as a value: the record
   * `BatteryInfo.QueryPowerStatus` builds. Lifetimes are in seconds.
   */
  datatype PowerStatusRecord = PowerStatusRecord(
    acLineStatus: byte,
    batteryFlag: byte,
    batteryLifePercent: int,
    systemStatusFlag: int,
    batteryLifeTime: int,
    batteryFullLifeTime: int)
}
