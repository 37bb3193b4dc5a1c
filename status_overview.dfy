/**
 * The dashboard's status tiles: per-type on/total counts, the number of
 * devices with issues, and the average thermostat temperature.
 */
module StatusOverview {
  import opened Wrappers
  import Lists
  import JsMath
  import Devices

  type Device = Devices.Device

  predicate HasIssue(d: Device) { d.status == "warning" || d.status == "error" }

  /** A thermostat's reading as the average uses it: `t.currentValue || 0`. */
  function Reading(d: Device): int { d.currentValue.GetOr(0) }

  datatype Overview = Overview(
    lightsOn: nat, totalLights: nat,
    locksLocked: nat, totalLocks: nat,
    thermostatsOn: nat, totalThermostats: nat,
    devicesWithIssues: nat,
    avgTemp: Option<int>)

  /** `avgTemp`: the rounded mean reading of the thermostats, `null` without any. */
  function AverageTemperature(devices: seq<Device>): (avg: Option<int>)
    ensures avg.None? <==> forall i :: 0 <= i < |devices| ==> devices[i].deviceType != "thermostat"
  {
    var thermostats := Lists.Filter(devices, Devices.OfType("thermostat"));
    Lists.CountBounds(devices, Devices.OfType("thermostat"));
    if |thermostats| > 0 then Some(JsMath.RoundDiv(Lists.Sum(thermostats, Reading), |thermostats|)) else None
  }

  /** Everything the tiles display, computed from the device list. */
  function Summarize(devices: seq<Device>): (o: Overview)
    ensures o.lightsOn <= o.totalLights && o.locksLocked <= o.totalLocks && o.thermostatsOn <= o.totalThermostats
    ensures o.totalLights == Lists.Count(devices, Devices.OfType("light"))
    ensures o.totalLocks == Lists.Count(devices, Devices.OfType("lock"))
    ensures o.totalThermostats == Lists.Count(devices, Devices.OfType("thermostat"))
    ensures o.devicesWithIssues == Lists.Count(devices, HasIssue)
    ensures o.avgTemp.None? <==> o.totalThermostats == 0
  {
    Lists.CountNarrow(devices, Devices.OfTypeAndOn("light"), Devices.OfType("light"));
    Lists.CountNarrow(devices, Devices.OfTypeAndOn("lock"), Devices.OfType("lock"));
    Lists.CountNarrow(devices, Devices.OfTypeAndOn("thermostat"), Devices.OfType("thermostat"));
    Overview(
      Lists.Count(devices, Devices.OfTypeAndOn("light")), Lists.Count(devices, Devices.OfType("light")),
      Lists.Count(devices, Devices.OfTypeAndOn("lock")), Lists.Count(devices, Devices.OfType("lock")),
      Lists.Count(devices, Devices.OfTypeAndOn("thermostat")), Lists.Count(devices, Devices.OfType("thermostat")),
      Lists.Count(devices, HasIssue),
      AverageTemperature(devices))
  }

  predicate IsWarning(d: Device) { d.status == "warning" }
  predicate IsError(d: Device) { d.status == "error" }

  /** The issue count is the warnings plus the errors, each device counted once. */
  lemma IssuesAreWarningsPlusErrors(devices: seq<Device>)
    ensures Summarize(devices).devicesWithIssues == Lists.Count(devices, IsWarning) + Lists.Count(devices, IsError)
  {
    Lists.CountDisjoint(devices, IsWarning, IsError, HasIssue);
  }

  /** The lights tile is highlighted (`lightsOn > 0`) exactly when some light is on. */
  lemma LightsHighlightedIffOneOn(devices: seq<Device>)
    ensures Summarize(devices).lightsOn > 0 <==>
      exists i :: 0 <= i < |devices| && devices[i].deviceType == "light" && devices[i].isOn
  {
  }

  /**
   * The locks tile is green (`locksLocked === totalLocks`) exactly when every
   * lock is locked, which is also the case when there is no lock at all.
   */
  lemma LocksGreenIffAllLocked(devices: seq<Device>)
    ensures Summarize(devices).locksLocked == Summarize(devices).totalLocks <==>
      forall i :: 0 <= i < |devices| && devices[i].deviceType == "lock" ==> devices[i].isOn
  {
    Lists.CountSameIff(devices, Devices.OfTypeAndOn("lock"), Devices.OfType("lock"));
  }

  /** When every thermostat reads between `lo` and `hi`, so does the average. */
  lemma AverageWithinReadings(devices: seq<Device>, lo: int, hi: int)
    requires forall i :: 0 <= i < |devices| && devices[i].deviceType == "thermostat" ==> lo <= Reading(devices[i]) <= hi
    ensures AverageTemperature(devices).Some? ==> lo <= AverageTemperature(devices).value <= hi
  {
    var thermostats := Lists.Filter(devices, Devices.OfType("thermostat"));
    if |thermostats| > 0 {
      Lists.SumBetween(thermostats, Reading, lo, hi);
      JsMath.RoundDivBetween(Lists.Sum(thermostats, Reading), |thermostats|, lo, hi);
    }
  }

  /** The average is the rounded mean of the readings: `Math.round(sum / count)`. */
  lemma AverageIsRoundedMean(devices: seq<Device>)
    requires AverageTemperature(devices).Some?
    ensures var n := Lists.Count(devices, Devices.OfType("thermostat"));
            var sum := Lists.Sum(Lists.Filter(devices, Devices.OfType("thermostat")), Reading);
            var avg := AverageTemperature(devices).value;
            n > 0 && 2 * n * avg <= 2 * sum + n < 2 * n * avg + 2 * n
  {
  }
}
