/**
 * The native provider, seen only through what it answers. Each entry point of the
 * native library becomes a total function from the battery index to the raw result
 * code and the raw record it filled in. The provider is deterministic: the same
 * provider value gives the same answers.
 */
module BatteryProxy {
  import opened Words

  /** The native result code reserved for "estimated time unknown". */
  const UnknownEstimatedTime: int := -110

  /** The raw `BATTERY_STATUS` record. */
  datatype RawStatus = RawStatus(powerState: bv32, capacity: uint32, voltage: uint32, rate: int32)

  /** The raw `BATTERY_INFORMATION` record (the three reserved bytes are left out). */
  datatype RawInformation = RawInformation(
    capabilities: bv32,
    technology: byte,
    chemistry1: byte, chemistry2: byte, chemistry3: byte, chemistry4: byte,
    designedCapacity: uint32,
    fullChargedCapacity: uint32,
    defaultAlert1: uint32,
    defaultAlert2: uint32,
    criticalBias: uint32,
    cycleCount: uint32)

  /** The raw `BATTERY_MANUFACTURE_DATE` record. */
  datatype RawManufactureDate = RawManufactureDate(day: byte, month: byte, year: uint16)

  /** The raw `SYSTEM_POWER_STATUS` record. */
  datatype RawSystemPowerStatus = RawSystemPowerStatus(
    acLineStatus: byte,
    batteryFlag: byte,
    batteryLifePercent: byte,
    systemStatusFlag: byte,
    batteryLifeTime: int32,
    batteryFullLifeTime: int32)

  /** A code returned together with the record the call filled in. */
  datatype StatusAnswer = StatusAnswer(code: int32, record: RawStatus)
  datatype InformationAnswer = InformationAnswer(code: int32, record: RawInformation)
  datatype DateAnswer = DateAnswer(code: int32, record: RawManufactureDate)
  datatype TextAnswer = TextAnswer(code: int32, text: string)
  datatype PowerAnswer = PowerAnswer(code: int32, record: RawSystemPowerStatus)

  /**
   * The provider's answers: one per native entry point and battery index.
   * `temperature` and `estimatedTime` return the value itself, or a negative code.
   */
  datatype Provider = Provider(
    status: int -> StatusAnswer,
    temperature: int -> int32,
    estimatedTime: int -> int32,
    deviceName: int -> TextAnswer,
    manufactureName: int -> TextAnswer,
    serialNumber: int -> TextAnswer,
    uniqueId: int -> TextAnswer,
    manufactureDate: int -> DateAnswer,
    information: int -> InformationAnswer,
    systemPowerState: PowerAnswer)
}
