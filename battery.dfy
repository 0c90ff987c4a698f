/**
 * One battery slot. Refreshing it runs nine isolated queries; each overwrites its
 * field with the decoded value, or with the field's default when the query raised.
 * Presence is decided by the status query alone.
 */
module Batteries {
  import opened BatteryException
  import opened BatteryProxy
  import opened BatteryTypes
  import opened BatteryInfo

  /** The nine refreshed attributes of a battery, as a value. */
  datatype BatterySnapshot = BatterySnapshot(
    status: BatteryStatus,
    temperature: real,
    estimatedTime: int,
    deviceName: string,
    manufacturerName: string,
    serialNumber: string,
    uniqueIdentifier: string,
    manufactureDate: DateTime,
    information: BatteryInformation)

  /**
   * What a refresh of battery `index` stores: every query's value, or its default
   * when the query raised. Every field depends on its own query only.
   */
  function Refreshed(p: Provider, index: int): (s: BatterySnapshot)
    ensures s.temperature >= 0.0 && s.estimatedTime >= 0
    ensures s.information.chemistry != RAM
  {
    BatterySnapshot(
      status := QueryBatteryStatus(p, index).GetOr(ZeroStatus),
      temperature := QueryTemperature(p, index).GetOr(0.0),
      estimatedTime := QueryEstimatedTime(p, index).GetOr(0),
      deviceName := QueryDeviceName(p, index).GetOr(""),
      manufacturerName := QueryManufactureName(p, index).GetOr(""),
      serialNumber := QuerySerialNumber(p, index).GetOr(""),
      uniqueIdentifier := QueryUniqueId(p, index).GetOr(""),
      manufactureDate := QueryManufactureDate(p, index).GetOr(MinValue),
      information := QueryBatteryInformation(p, index).GetOr(ZeroInformation))
  }

  /**
   * What a refresh stores, in terms of the provider's raw answers: each field's decoded
   * value when its query succeeds, and its default otherwise.
   */
  lemma RefreshedFields(p: Provider, index: int)
    ensures p.status(index).code < 0 ==> Refreshed(p, index).status == ZeroStatus
    ensures var raw := p.status(index).record;
      p.status(index).code >= 0 ==>
        Refreshed(p, index).status == BatteryStatus(raw.powerState, raw.capacity, raw.voltage, raw.rate)
    ensures p.temperature(index) < 0 ==> Refreshed(p, index).temperature == 0.0
    ensures p.temperature(index) >= 0 ==> Refreshed(p, index).temperature * 10.0 == p.temperature(index) as real
    ensures p.estimatedTime(index) < 0 ==> Refreshed(p, index).estimatedTime == 0
    ensures p.estimatedTime(index) >= 0 ==> Refreshed(p, index).estimatedTime == p.estimatedTime(index)
    ensures Refreshed(p, index).deviceName == (if p.deviceName(index).code == 0 then p.deviceName(index).text else "")
    ensures Refreshed(p, index).manufacturerName == (if p.manufactureName(index).code == 0 then p.manufactureName(index).text else "")
    ensures Refreshed(p, index).serialNumber == (if p.serialNumber(index).code == 0 then p.serialNumber(index).text else "")
    ensures Refreshed(p, index).uniqueIdentifier == (if p.uniqueId(index).code == 0 then p.uniqueId(index).text else "")
    ensures var raw := p.manufactureDate(index).record;
      Refreshed(p, index).manufactureDate ==
        if p.manufactureDate(index).code == 0 && IsValidDate(raw.year, raw.month, raw.day)
        then DateTime(raw.year, raw.month, raw.day)
        else MinValue
    ensures p.information(index).code != 0 ==> Refreshed(p, index).information == ZeroInformation
    ensures p.information(index).code == 0 ==> Refreshed(p, index).information == DecodeInformation(p.information(index).record)
  {
  }

  /**
   * The value `Refresh` returns: false exactly when the status query raised the
   * battery exception with `BatteryDoesNotExist`.
   */
  function Present(p: Provider, index: int): (present: bool)
    ensures !present <==> p.status(index).code == -102
  {
    match QueryBatteryStatus(p, index)
    case Err(BatteryInfoException(result)) => result != BatteryDoesNotExist
    case _ => true
  }

  /** The value of one battery attribute is a function of its own query's answer only. */
  lemma FieldIsolation(p: Provider, q: Provider, index: int)
    ensures p.status(index) == q.status(index) ==> Refreshed(p, index).status == Refreshed(q, index).status
    ensures p.temperature(index) == q.temperature(index) ==>
      Refreshed(p, index).temperature == Refreshed(q, index).temperature
    ensures p.estimatedTime(index) == q.estimatedTime(index) ==>
      Refreshed(p, index).estimatedTime == Refreshed(q, index).estimatedTime
    ensures p.deviceName(index) == q.deviceName(index) ==>
      Refreshed(p, index).deviceName == Refreshed(q, index).deviceName
    ensures p.manufactureName(index) == q.manufactureName(index) ==>
      Refreshed(p, index).manufacturerName == Refreshed(q, index).manufacturerName
    ensures p.serialNumber(index) == q.serialNumber(index) ==>
      Refreshed(p, index).serialNumber == Refreshed(q, index).serialNumber
    ensures p.uniqueId(index) == q.uniqueId(index) ==>
      Refreshed(p, index).uniqueIdentifier == Refreshed(q, index).uniqueIdentifier
    ensures p.manufactureDate(index) == q.manufactureDate(index) ==>
      Refreshed(p, index).manufactureDate == Refreshed(q, index).manufactureDate
    ensures p.information(index) == q.information(index) ==>
      Refreshed(p, index).information == Refreshed(q, index).information
    ensures p.status(index) == q.status(index) ==> Present(p, index) == Present(q, index)
  {
  }

  /** `b` is the battery a construction for slot `index` leaves when that slot is present. */
  ghost predicate Probed(b: Battery, p: Provider, index: int)
    reads b
  {
    b.batteryIndex == index && b.batteryPresent && b.Snapshot() == Refreshed(p, index)
  }

  /**
   * A status failure other than `BatteryDoesNotExist` zeroes the status but keeps the
   * battery present, and so does any failure of the other eight queries.
   */
  lemma PresentDespiteOtherFailures(p: Provider, q: Provider, index: int)
    requires p.status(index).code < 0 && p.status(index).code != -102
    requires q.status(index) == p.status(index)
    ensures Present(p, index) && Present(q, index)
    ensures Refreshed(p, index).status == ZeroStatus == Refreshed(q, index).status
  {
  }

  class Battery {
    /** The slot index every query uses; fixed by the constructor. */
    const batteryIndex: int

    var status: BatteryStatus
    var temperature: real
    var estimatedTime: int
    var deviceName: string
    var manufacturerName: string
    var serialNumber: string
    var uniqueIdentifier: string
    var manufactureDate: DateTime
    var information: BatteryInformation

    /** Set by the constructor from its refresh; `Refresh` may not write it. */
    var batteryPresent: bool

    /** The nine refreshed attributes. */
    function Snapshot(): (s: BatterySnapshot)
      reads this
    {
      BatterySnapshot(status, temperature, estimatedTime, deviceName, manufacturerName,
                      serialNumber, uniqueIdentifier, manufactureDate, information)
    }

    /** `new Battery(batteryIndex)`: initial values, then one refresh whose result is the presence. */
    constructor (p: Provider, batteryIndex: int)
      ensures this.batteryIndex == batteryIndex
      ensures Snapshot() == Refreshed(p, batteryIndex)
      ensures batteryPresent == Present(p, batteryIndex)
    {
      this.batteryIndex := batteryIndex;
      status := ZeroStatus;
      temperature := 0.0;
      estimatedTime := 0;
      deviceName := "";
      manufacturerName := "";
      serialNumber := "";
      uniqueIdentifier := "";
      manufactureDate := MinValue;
      information := ZeroInformation;
      new;
      batteryPresent := Refresh(p);
    }

    /**
     * Runs the nine queries in order. Each field ends up a function of the provider
     * alone, so no field keeps a value from before the call.
     */
    method Refresh(p: Provider) returns (result: bool)
      modifies this`status, this`temperature, this`estimatedTime, this`deviceName,
               this`manufacturerName, this`serialNumber, this`uniqueIdentifier,
               this`manufactureDate, this`information
      ensures Snapshot() == Refreshed(p, batteryIndex)
      ensures result == Present(p, batteryIndex)
    {
      result := true;

      // The status query: any failure zeroes the status, and only `BatteryDoesNotExist`
      // marks the battery absent.
      var statusQuery := QueryBatteryStatus(p, batteryIndex);
      if statusQuery.Err? && statusQuery.error.BatteryInfoException?
         && statusQuery.error.result == BatteryDoesNotExist {
        result := false;
      }
      status := statusQuery.GetOr(ZeroStatus);

      // Each remaining attribute: its decoded value, or its default when the query raised.
      temperature := QueryTemperature(p, batteryIndex).GetOr(0.0);
      estimatedTime := QueryEstimatedTime(p, batteryIndex).GetOr(0);
      deviceName := QueryDeviceName(p, batteryIndex).GetOr("");
      manufacturerName := QueryManufactureName(p, batteryIndex).GetOr("");
      serialNumber := QuerySerialNumber(p, batteryIndex).GetOr("");
      uniqueIdentifier := QueryUniqueId(p, batteryIndex).GetOr("");
      manufactureDate := QueryManufactureDate(p, batteryIndex).GetOr(MinValue);
      information := QueryBatteryInformation(p, batteryIndex).GetOr(ZeroInformation);
    }
  }

  /**
   * Two refreshes against the same provider store the same fields and return the
   * same value, and neither changes the index or the presence flag.
   */
  method RefreshTwice(b: Battery, p: Provider) returns (first: bool, second: bool)
    modifies b`status, b`temperature, b`estimatedTime, b`deviceName,
             b`manufacturerName, b`serialNumber, b`uniqueIdentifier,
             b`manufactureDate, b`information
    ensures first == second == Present(p, b.batteryIndex)
    ensures b.Snapshot() == Refreshed(p, b.batteryIndex)
    ensures b.batteryPresent == old(b.batteryPresent)
  {
    first := b.Refresh(p);
    ghost var once := b.Snapshot();
    second := b.Refresh(p);
    assert b.Snapshot() == once;
  }
}
