/** The system-wide power status: six properties replaced together on a successful refresh. */
module SystemPower {
  import opened Words
  import opened BatteryException
  import opened BatteryProxy
  import opened BatteryTypes
  import opened BatteryInfo

  class SystemPowerStatus {
    var acLineStatus: byte
    var batteryFlag: byte
    var batteryLifePercent: int
    var systemStatusFlag: int
    var batteryLifeTime: int
    var batteryFullLifeTime: int

    /** The percentage always comes from a byte. */
    ghost predicate Valid()
      reads this
    {
      0 <= batteryLifePercent <= 255
    }

    /** The six properties as a value. */
    function Record(): (record: PowerStatusRecord)
      reads this
    {
      PowerStatusRecord(acLineStatus, batteryFlag, batteryLifePercent, systemStatusFlag,
                        batteryLifeTime, batteryFullLifeTime)
    }

    /** `new SystemPowerStatus()`: every property at its default. */
    constructor ()
      ensures Valid()
      ensures Record() == PowerStatusRecord(AcOffline, 0, 0, BatterySaverOff, 0, 0)
    {
      acLineStatus := 0;
      batteryFlag := 0;
      batteryLifePercent := 0;
      systemStatusFlag := 0;
      batteryLifeTime := 0;
      batteryFullLifeTime := 0;
    }

    /** `UpdateFrom`: copies all six properties of `source`, and nothing else. */
    method UpdateFrom(source: PowerStatusRecord)
      requires 0 <= source.batteryLifePercent <= 255
      modifies this
      ensures Valid()
      ensures Record() == source
    {
      acLineStatus := source.acLineStatus;
      batteryFlag := source.batteryFlag;
      batteryLifePercent := source.batteryLifePercent;
      systemStatusFlag := source.systemStatusFlag;
      batteryFullLifeTime := source.batteryFullLifeTime;
      batteryLifeTime := source.batteryLifeTime;
    }

    /**
     * `Refresh`: on success the properties become the decode of the provider's record;
     * when the provider reports failure the exception propagates before `UpdateFrom`,
     * so nothing changes.
     */
    method Refresh(p: Provider) returns (outcome: Outcome)
      requires Valid()
      modifies this
      ensures Valid()
      ensures outcome.Fail? <==> p.systemPowerState.code == 0
      ensures outcome.Fail? ==> outcome.error == BatteryInfoException(UnsupportedFunction)
      ensures outcome.Fail? ==> Record() == old(Record())
      ensures outcome.Pass? ==> Record() == QueryPowerStatus(p).value
      ensures outcome.Pass? && p.systemPowerState.record.batteryLifeTime == -1 ==> batteryLifeTime == 0
      ensures outcome.Pass? && p.systemPowerState.record.batteryFullLifeTime == -1 ==> batteryFullLifeTime == 0
    {
      match QueryPowerStatus(p) {
        case Err(e) =>
          return Fail(e);
        case Ok(record) =>
          UpdateFrom(record);
          return Pass;
      }
    }
  }

  /** Two refreshes against the same provider leave the same six values. */
  method RefreshTwice(s: SystemPowerStatus, p: Provider) returns (first: Outcome, second: Outcome)
    requires s.Valid()
    modifies s
    ensures first == second
    ensures first.Pass? <==> p.systemPowerState.code != 0
    ensures first.Pass? ==> s.Record() == QueryPowerStatus(p).value
    ensures first.Fail? ==> s.Record() == old(s.Record())
  {
    first := s.Refresh(p);
    ghost var once := s.Record();
    second := s.Refresh(p);
    assert s.Record() == once;
  }
}
