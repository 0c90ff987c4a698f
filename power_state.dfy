/**
 * The aggregate: the system power status and the ordered list of batteries. A full
 * refresh re-enumerates the batteries by probing indices 0, 1, 2, ...; a partial
 * refresh refreshes each listed battery in place.
 */
module Power {
  import opened BatteryException
  import opened BatteryProxy
  import opened BatteryTypes
  import opened BatteryInfo
  import opened Batteries
  import opened SystemPower

  /** The bound on the probed indices. */
  const MaxBatteries: nat := 100

  /**
   * The first index at or after `i` that reports absence, or `MaxBatteries` when
   * every index from `i` on is present.
   */
  function ProbeFrom(p: Provider, i: nat): (n: nat)
    requires i <= MaxBatteries
    ensures i <= n <= MaxBatteries
    ensures forall k :: i <= k < n ==> Present(p, k)
    ensures n < MaxBatteries ==> !Present(p, n)
    decreases MaxBatteries - i
  {
    if i == MaxBatteries then MaxBatteries
    else if !Present(p, i) then i
    else ProbeFrom(p, i + 1)
  }

  /** The number of batteries a full enumeration finds. */
  function EnumerationLength(p: Provider): (n: nat)
    ensures n <= MaxBatteries
    ensures n < MaxBatteries ==> p.status(n).code == -102
  {
    ProbeFrom(p, 0)
  }

  /**
   * The enumeration length is the smallest index whose status query reports
   * `BatteryDoesNotExist`, capped at `MaxBatteries`.
   */
  lemma EnumerationLengthIsFirstAbsent(p: Provider, n: nat)
    ensures EnumerationLength(p) == n <==>
      && n <= MaxBatteries
      && (forall k :: 0 <= k < n ==> p.status(k).code != -102)
      && (n < MaxBatteries ==> p.status(n).code == -102)
  {
    var m := EnumerationLength(p);
    forall k | 0 <= k < m ensures p.status(k).code != -102 {
      assert Present(p, k);
    }
    if m < MaxBatteries {
      assert !Present(p, m);
    }
  }

  /** A provider whose first `count` slots answer and whose slot `count` does not exist. */
  lemma EnumerationStopsAtAbsentSlot(p: Provider, count: nat)
    requires count < MaxBatteries
    requires forall k :: 0 <= k < count ==> p.status(k).code == 0
    requires p.status(count).code == -102
    ensures EnumerationLength(p) == count
  {
    EnumerationLengthIsFirstAbsent(p, count);
  }

  class PowerState {
    const powerStatus: SystemPowerStatus
    var batteries: seq<Battery>

    /** The battery at position k was built for index k and found present; at most 100 of them. */
    ghost predicate Valid()
      reads this, powerStatus, batteries
    {
      && powerStatus.Valid()
      && |batteries| <= MaxBatteries
      && forall k :: 0 <= k < |batteries| ==> batteries[k].batteryIndex == k && batteries[k].batteryPresent
    }

    /** The list is what a full enumeration against `p` builds. */
    ghost predicate Enumerated(p: Provider)
      reads this, batteries
    {
      && |batteries| == EnumerationLength(p)
      && forall k :: 0 <= k < |batteries| ==> Probed(batteries[k], p, k)
    }

    /** The field initializers: a default power status and an empty list. */
    constructor Empty()
      ensures Valid() && fresh(powerStatus)
      ensures powerStatus.Record() == PowerStatusRecord(AcOffline, 0, 0, BatterySaverOff, 0, 0)
      ensures batteries == []
    {
      powerStatus := new SystemPowerStatus();
      batteries := [];
    }

    /**
     * `new PowerState()`: refreshes the power status, then performs `Refresh(true)`,
     * which refreshes it a second time before enumerating. `first` and `second` are
     * the provider at each of the two power-status queries. An exception from either
     * leaves no object.
     */
    static method Create(first: Provider, second: Provider) returns (r: Result<PowerState>)
      ensures r.Err? <==> first.systemPowerState.code == 0 || second.systemPowerState.code == 0
      ensures r.Err? ==> r.error == BatteryInfoException(UnsupportedFunction)
      ensures r.Ok? ==> fresh(r.value) && r.value.Valid() && r.value.Enumerated(second)
      ensures r.Ok? ==> r.value.powerStatus.Record() == QueryPowerStatus(second).value
      ensures r.Ok? ==>
        && fresh(r.value.powerStatus)
        && forall k :: 0 <= k < |r.value.batteries| ==> fresh(r.value.batteries[k])
    {
      var state := new PowerState.Empty();
      var outcome := state.powerStatus.Refresh(first);
      if outcome.Fail? {
        return Err(outcome.error);
      }
      outcome := state.Refresh(second, true);
      match outcome {
        case Fail(e) => r := Err(e);
        case Pass => r := Ok(state);
      }
    }

    /**
     * `Refresh(enumeratedBatteries)`: the power status first; if that raises, nothing
     * else happens. Then either a full enumeration, or each listed battery refreshed
     * in place, its return value ignored.
     */
    method Refresh(p: Provider, enumeratedBatteries: bool := false) returns (outcome: Outcome)
      requires Valid()
      modifies this, powerStatus, if enumeratedBatteries then [] else batteries
      ensures Valid()
      ensures outcome.Fail? <==> p.systemPowerState.code == 0
      ensures outcome.Fail? ==> outcome.error == BatteryInfoException(UnsupportedFunction)
      ensures outcome.Fail? ==>
        && batteries == old(batteries)
        && powerStatus.Record() == old(powerStatus.Record())
        && forall k :: 0 <= k < |batteries| ==> batteries[k].Snapshot() == old(batteries[k].Snapshot())
      ensures outcome.Pass? ==> powerStatus.Record() == QueryPowerStatus(p).value
      ensures outcome.Pass? && enumeratedBatteries ==>
        Enumerated(p) && forall k :: 0 <= k < |batteries| ==> fresh(batteries[k])
      ensures outcome.Pass? && !enumeratedBatteries ==>
        && batteries == old(batteries)
        && forall k :: 0 <= k < |batteries| ==> batteries[k].Snapshot() == Refreshed(p, k)
    {
      outcome := powerStatus.Refresh(p);
      if outcome.Fail? {
        return;
      }
      if enumeratedBatteries {
        EnumerateBatteries(p);
      } else {
        RefreshEach(p);
      }
    }

    /**
     * The `foreach` of a partial refresh: each listed battery refreshed once, in list
     * order, its return value ignored; the list itself is not touched, so a battery
     * that now reports absence stays listed.
     */
    method RefreshEach(p: Provider)
      requires Valid()
      modifies batteries
      ensures Valid()
      ensures forall k :: 0 <= k < |batteries| ==> batteries[k].Snapshot() == Refreshed(p, k)
    {
      for i := 0 to |batteries|
        invariant Valid()
        invariant forall k :: 0 <= k < i ==> batteries[k].Snapshot() == Refreshed(p, k)
      {
        var _ := batteries[i].Refresh(p);
      }
    }

    /**
     * `EnumerateBatteries`: clears the list, then builds a battery for index 0, 1, ...
     * and appends it while it is present, stopping at the first absent one or at 100.
     */
    method EnumerateBatteries(p: Provider)
      requires powerStatus.Valid()
      modifies this
      ensures Valid()
      ensures Enumerated(p)
      ensures forall k :: 0 <= k < |batteries| ==> fresh(batteries[k])
    {
      batteries := [];
      for bIndex := 0 to MaxBatteries
        invariant |batteries| == bIndex
        invariant forall k :: 0 <= k < bIndex ==> Probed(batteries[k], p, k)
        invariant forall k :: 0 <= k < bIndex ==> fresh(batteries[k])
        invariant forall k :: 0 <= k < bIndex ==> p.status(k).code != -102
      {
        var battery := new Battery(p, bIndex);
        if !battery.batteryPresent {
          break;
        }
        batteries := batteries + [battery];
      }
      EnumerationLengthIsFirstAbsent(p, |batteries|);
    }
  }
}
