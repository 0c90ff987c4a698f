/**
 * The decoders: each query asks the provider once and turns its raw answer into a
 * typed value, or into the exception the query raises. Pure functions; the success
 * test differs from query to query.
 */
module BatteryInfo {
  import opened Words
  import opened BatteryException
  import opened BatteryProxy
  import opened BatteryTypes

  /** Bits of `BATTERY_INFORMATION_CAPABILITY_FLAGS`. */
  const BatteryCapacityRelative: bv32 := 0x4000_0000
  const BatteryIsShortTerm: bv32 := 0x2000_0000
  const BatterySetChargeSupported: bv32 := 0x0000_0001
  const BatterySetDischargeSupported: bv32 := 0x0000_0002
  const BatterySystemBattery: bv32 := 0x8000_0000

  /** The exception a failed query raises for a provider code. */
  function CodeError(code: int): (e: QueryError)
    ensures e.BatteryInfoException? && e.result as int == code
  {
    BatteryInfoException(code as BatteryResult)
  }

  /** `QueryBatteryStatus`: fails on a negative code; otherwise copies the four raw fields. */
  function QueryBatteryStatus(p: Provider, index: int): (r: Result<BatteryStatus>)
    ensures r.Err? <==> p.status(index).code < 0
    ensures r.Err? ==> r.error == BatteryInfoException(p.status(index).code as BatteryResult)
    ensures r.Ok? ==>
      var raw := p.status(index).record;
      && r.value.capacity == raw.capacity
      && r.value.voltage == raw.voltage
      && r.value.dischargeRate == raw.rate
      && r.value.powerState == raw.powerState
  {
    var answer := p.status(index);
    if answer.code < 0 then Err(CodeError(answer.code))
    else
      var raw := answer.record;
      Ok(BatteryStatus(raw.powerState, raw.capacity, raw.voltage, raw.rate))
  }

  /** `QueryTemperature`: a negative answer is an error code; otherwise tenths of a degree. */
  function QueryTemperature(p: Provider, index: int): (r: Result<real>)
    ensures r.Err? <==> p.temperature(index) < 0
    ensures r.Err? ==> r.error == BatteryInfoException(p.temperature(index) as BatteryResult)
    ensures r.Ok? ==> r.value >= 0.0 && r.value * 10.0 == p.temperature(index) as real
  {
    var raw := p.temperature(index);
    if raw < 0 then Err(CodeError(raw)) else Ok(raw as real / 10.0)
  }

  /**
   * `QueryEstimatedTime`, in seconds: the sentinel -110 means "not applicable" and
   * gives zero; every other negative answer is an error code.
   */
  function QueryEstimatedTime(p: Provider, index: int): (r: Result<int>)
    ensures p.estimatedTime(index) == UnknownEstimatedTime ==> r == Ok(0)
    ensures p.estimatedTime(index) >= 0 ==> r == Ok(p.estimatedTime(index))
    ensures p.estimatedTime(index) < 0 && p.estimatedTime(index) != UnknownEstimatedTime ==>
      r == Err(BatteryInfoException(p.estimatedTime(index) as BatteryResult))
    ensures r.Ok? ==> r.value >= 0
    ensures r.Err? <==> p.estimatedTime(index) < 0 && p.estimatedTime(index) != UnknownEstimatedTime
  {
    var raw := p.estimatedTime(index);
    if raw < 0 then
      if raw == UnknownEstimatedTime then Ok(0) else Err(CodeError(raw))
    else Ok(raw)
  }

  /** The shared shape of the four text queries: anything but `Success` raises. */
  function QueryText(answer: TextAnswer): (r: Result<string>)
    ensures r.Err? <==> answer.code != 0
    ensures r.Err? ==> r.error == BatteryInfoException(answer.code as BatteryResult) && r.error.result != Success
    ensures r.Ok? ==> r.value == answer.text
  {
    if answer.code as BatteryResult != Success then Err(CodeError(answer.code)) else Ok(answer.text)
  }

  function QueryDeviceName(p: Provider, index: int): (r: Result<string>)
    ensures r.Err? <==> p.deviceName(index).code != 0
    ensures r.Err? ==> r.error == BatteryInfoException(p.deviceName(index).code as BatteryResult)
    ensures r.Ok? ==> r.value == p.deviceName(index).text
  {
    QueryText(p.deviceName(index))
  }

  function QueryManufactureName(p: Provider, index: int): (r: Result<string>)
    ensures r.Err? <==> p.manufactureName(index).code != 0
    ensures r.Err? ==> r.error == BatteryInfoException(p.manufactureName(index).code as BatteryResult)
    ensures r.Ok? ==> r.value == p.manufactureName(index).text
  {
    QueryText(p.manufactureName(index))
  }

  function QuerySerialNumber(p: Provider, index: int): (r: Result<string>)
    ensures r.Err? <==> p.serialNumber(index).code != 0
    ensures r.Err? ==> r.error == BatteryInfoException(p.serialNumber(index).code as BatteryResult)
    ensures r.Ok? ==> r.value == p.serialNumber(index).text
  {
    QueryText(p.serialNumber(index))
  }

  function QueryUniqueId(p: Provider, index: int): (r: Result<string>)
    ensures r.Err? <==> p.uniqueId(index).code != 0
    ensures r.Err? ==> r.error == BatteryInfoException(p.uniqueId(index).code as BatteryResult)
    ensures r.Ok? ==> r.value == p.uniqueId(index).text
  {
    QueryText(p.uniqueId(index))
  }

  /**
   * `QueryManufactureDate`: on `Success` the raw triple goes to the `DateTime`
   * constructor, which raises a range error for a date that does not exist.
   */
  function QueryManufactureDate(p: Provider, index: int): (r: Result<DateTime>)
    ensures p.manufactureDate(index).code != 0 ==>
      r == Err(BatteryInfoException(p.manufactureDate(index).code as BatteryResult))
    ensures r.Ok? ==>
      var raw := p.manufactureDate(index).record;
      && p.manufactureDate(index).code == 0
      && r.value == DateTime(raw.year, raw.month, raw.day)
      && IsValidDate(r.value.year, r.value.month, r.value.day)
    ensures r == Err(ArgumentOutOfRange) <==>
      var raw := p.manufactureDate(index).record;
      p.manufactureDate(index).code == 0 && !IsValidDate(raw.year, raw.month, raw.day)
    ensures r.Ok? <==>
      var raw := p.manufactureDate(index).record;
      p.manufactureDate(index).code == 0 && IsValidDate(raw.year, raw.month, raw.day)
  {
    var answer := p.manufactureDate(index);
    if answer.code as BatteryResult == Success then
      var raw := answer.record;
      if IsValidDate(raw.year, raw.month, raw.day) then Ok(DateTime(raw.year, raw.month, raw.day))
      else Err(ArgumentOutOfRange)
    else Err(CodeError(answer.code))
  }

  /** `ASCIIEncoding.GetString` on one byte: bytes outside 7-bit ASCII become '?'. */
  function AsciiChar(b: byte): (c: char)
    ensures c as int < 0x80
    ensures b < 0x80 ==> c as int == b
    ensures b >= 0x80 ==> c == '?'
  {
    if b < 0x80 then b as char else '?'
  }

  /** The chemistry tag as text, one character per raw byte. */
  function ChemistryTag(raw: RawInformation): (tag: string)
    ensures |tag| == 4
  {
    [AsciiChar(raw.chemistry1), AsciiChar(raw.chemistry2), AsciiChar(raw.chemistry3), AsciiChar(raw.chemistry4)]
  }

  /** The `switch` on the chemistry tag: exact, case-sensitive matches, else `Unknown`. */
  function ChemistryOf(tag: string): (t: BatteryChemistryType)
    ensures t == RAM <==> tag == "RAM"
    ensures t != Unknown && t != RAM ==> |tag| == 4
  {
    if tag == "PbAc" then PbAc
    else if tag == "LION" then LION
    else if tag == "Li-I" then LiI
    else if tag == "NiCd" then NiCd
    else if tag == "NiMH" then NiMH
    else if tag == "NiZn" then NiZn
    else if tag == "RAM" then RAM
    else Unknown
  }

  /** The decode of a `BATTERY_INFORMATION` record the provider filled in. */
  function DecodeInformation(raw: RawInformation): (info: BatteryInformation)
    ensures info.isCapacityRelative <==> (raw.capabilities >> 30) & 1 == 1
    ensures info.isShortTerm <==> (raw.capabilities >> 29) & 1 == 1
    ensures info.isSystemBattery <==> (raw.capabilities >> 31) & 1 == 1
    ensures info.technologyType == raw.technology
    ensures info.technologyType != TechnologyUnknown
    ensures info.chemistry == ChemistryOf(ChemistryTag(raw))
    ensures info.designedCapacity == raw.designedCapacity
    ensures info.fullChargedCapacity == raw.fullChargedCapacity
    ensures info.defaultAlert1 == raw.defaultAlert1
    ensures info.defaultAlert2 == raw.defaultAlert2
    ensures info.criticalBias == raw.criticalBias
    ensures info.cycleCount == raw.cycleCount
  {
    var caps := raw.capabilities;
    BatteryInformation(
      isCapacityRelative := caps & BatteryCapacityRelative == BatteryCapacityRelative,
      isShortTerm := caps & BatteryIsShortTerm == BatteryIsShortTerm,
      isSystemBattery := caps & BatterySystemBattery == BatterySystemBattery,
      technologyType := raw.technology,
      chemistry := ChemistryOf(ChemistryTag(raw)),
      designedCapacity := raw.designedCapacity,
      fullChargedCapacity := raw.fullChargedCapacity,
      defaultAlert1 := raw.defaultAlert1,
      defaultAlert2 := raw.defaultAlert2,
      criticalBias := raw.criticalBias,
      cycleCount := raw.cycleCount)
  }

  /** `QueryBatteryInformation`: decodes on `Success`, raises the code otherwise. */
  function QueryBatteryInformation(p: Provider, index: int): (r: Result<BatteryInformation>)
    ensures r.Err? <==> p.information(index).code != 0
    ensures r.Err? ==> r.error == BatteryInfoException(p.information(index).code as BatteryResult)
    ensures r.Ok? ==> r.value == DecodeInformation(p.information(index).record)
    ensures r.Ok? ==> r.value.chemistry == ChemistryOf(ChemistryTag(p.information(index).record))
    ensures r.Ok? ==> r.value.chemistry != RAM
  {
    var answer := p.information(index);
    if answer.code as BatteryResult == Success then Ok(DecodeInformation(answer.record))
    else Err(CodeError(answer.code))
  }

  /** A lifetime in seconds; the sentinel -1 ("unknown") becomes zero. */
  function Lifetime(raw: int32): (seconds: int)
    ensures raw != -1 ==> seconds == raw
    ensures seconds == 0 <==> raw == -1 || raw == 0
  {
    if raw == -1 then 0 else raw
  }

  /**
   * `QueryPowerStatus`: a zero return (the Win32 `FALSE`) raises `UnsupportedFunction`;
   * otherwise the bytes are copied and the lifetimes decoded.
   */
  function QueryPowerStatus(p: Provider): (r: Result<PowerStatusRecord>)
    ensures r.Err? <==> p.systemPowerState.code == 0
    ensures r.Err? ==> r.error == BatteryInfoException(UnsupportedFunction)
    ensures r.Ok? ==>
      var raw := p.systemPowerState.record;
      && r.value.acLineStatus == raw.acLineStatus
      && r.value.batteryFlag == raw.batteryFlag
      && r.value.batteryLifePercent == raw.batteryLifePercent
      && r.value.systemStatusFlag == raw.systemStatusFlag
      && 0 <= r.value.batteryLifePercent <= 255
      && (raw.batteryLifeTime == -1 ==> r.value.batteryLifeTime == 0)
      && (raw.batteryLifeTime != -1 ==> r.value.batteryLifeTime == raw.batteryLifeTime)
      && (raw.batteryFullLifeTime == -1 ==> r.value.batteryFullLifeTime == 0)
      && (raw.batteryFullLifeTime != -1 ==> r.value.batteryFullLifeTime == raw.batteryFullLifeTime)
  {
    var answer := p.systemPowerState;
    if answer.code == 0 then Err(BatteryInfoException(UnsupportedFunction))
    else
      var raw := answer.record;
      Ok(PowerStatusRecord(
        acLineStatus := raw.acLineStatus,
        batteryFlag := raw.batteryFlag,
        batteryLifePercent := raw.batteryLifePercent,
        systemStatusFlag := raw.systemStatusFlag,
        batteryLifeTime := Lifetime(raw.batteryLifeTime),
        batteryFullLifeTime := Lifetime(raw.batteryFullLifeTime)))
  }
}
