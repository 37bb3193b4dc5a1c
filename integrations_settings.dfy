/**
 * The integrations settings tab: the list of third-party platforms with their
 * connection status, device count and last synchronisation, the "last sync"
 * label, the search and status filter, and the connect/disconnect and refresh
 * buttons. Instants are integer milliseconds; `Math.random()` is a parameter.
 */
module IntegrationsSettings {
  import opened Wrappers
  import Lists
  import Text

  datatype Integration = Integration(
    id: string,
    name: string,
    description: string,
    status: string,
    devices: int,
    lastSync: Option<int>)

  /** The eight integrations the tab starts with (instants in ms since the epoch, UTC). */
  const InitialIntegrations: seq<Integration> := [
    Integration("philips-hue", "Philips Hue", "Control your Philips Hue smart lights", "connected", 8, Some(1697380320000)),
    Integration("nest", "Google Nest", "Manage your Nest thermostats and cameras", "connected", 3, Some(1697274900000)),
    Integration("sonos", "Sonos", "Control your Sonos speakers and audio system", "disconnected", 0, None),
    Integration("ring", "Ring", "Manage your Ring doorbells and cameras", "connected", 2, Some(1697136300000)),
    Integration("ecobee", "ecobee", "Control your ecobee thermostats and sensors", "disconnected", 0, None),
    Integration("smartthings", "Samsung SmartThings", "Connect with your SmartThings ecosystem", "connected", 5, Some(1697196000000)),
    Integration("wemo", "Belkin WeMo", "Control your WeMo smart plugs and switches", "disconnected", 0, None),
    Integration("lutron", "Lutron Caséta", "Manage your Lutron lighting and shades", "connected", 6, Some(1696951800000))
  ]

  const Minute := 60000
  const Hour := 3600000
  const Day := 86400000

  /** "N unit ago", with an 's' on the unit unless N is 1. */
  function Ago(n: nat, unit: string): string
  {
    Text.NatToString(n) + " " + unit + (if n != 1 then "s" else "") + " ago"
  }

  /**
   * `formatLastSync(lastSync)` at instant `now`: 'Never' without a sync, else
   * whole days, hours or minutes elapsed (rounded down), the first that is
   * positive, and 'Just now' when less than a minute has passed or the sync
   * lies in the future.
   */
  function FormatLastSync(lastSync: Option<int>, now: int): (text: string)
    ensures lastSync.None? ==> text == "Never"
    ensures lastSync.Some? && now - lastSync.value >= Day ==>
              (now - lastSync.value) / Day >= 1 && text == Ago((now - lastSync.value) / Day, "day")
    ensures lastSync.Some? && Hour <= now - lastSync.value < Day ==>
              1 <= (now - lastSync.value) / Hour < 24 && text == Ago((now - lastSync.value) / Hour, "hour")
    ensures lastSync.Some? && Minute <= now - lastSync.value < Hour ==>
              1 <= (now - lastSync.value) / Minute < 60 && text == Ago((now - lastSync.value) / Minute, "minute")
    ensures lastSync.Some? && now - lastSync.value < Minute ==> text == "Just now"
  {
    match lastSync
    case None => "Never"
    case Some(date) =>
      var diffMs := now - date;
      var diffDays := diffMs / Day;
      var diffHours := diffMs / Hour;
      var diffMinutes := diffMs / Minute;
      if diffDays > 0 then Ago(diffDays, "day")
      else if diffHours > 0 then Ago(diffHours, "hour")
      else if diffMinutes > 0 then Ago(diffMinutes, "minute")
      else "Just now"
  }

  /** A sync in the future reads 'Just now'. */
  lemma FutureSyncIsJustNow(date: int, now: int)
    requires date > now
    ensures FormatLastSync(Some(date), now) == "Just now"
  {
  }

  /** The singular is used exactly for one: "1 day ago" covers the second 24 hours and nothing else. */
  lemma OneDayIsSingular(date: int, now: int)
    ensures FormatLastSync(Some(date), now) == "1 day ago" <==> Day <= now - date < 2 * Day
  {
    var diff := now - date;
    if FormatLastSync(Some(date), now) == "1 day ago" {
      if diff >= Day {
        assert Ago(diff / Day, "day") == Ago(1, "day");
        AgoInjective(diff / Day, 1, "day");
      }
    }
  }

  /** Labels of one unit give the count back. */
  lemma AgoInjective(m: nat, n: nat, unit: string)
    requires Ago(m, unit) == Ago(n, unit)
    ensures m == n
  {
    var a := Text.NatToString(m);
    var b := Text.NatToString(n);
    AgoDigitsEnd(m, unit);
    AgoDigitsEnd(n, unit);
    if |a| == |b| {
      assert a == Ago(m, unit)[..|a|];
      assert b == Ago(n, unit)[..|b|];
      Text.PrintInjective(m, n);
    }
  }

  /** The number in a label ends at the first space. */
  lemma AgoDigitsEnd(n: nat, unit: string)
    ensures |Text.NatToString(n)| < |Ago(n, unit)| && Ago(n, unit)[|Text.NatToString(n)|] == ' '
    ensures Ago(n, unit)[..|Text.NatToString(n)|] == Text.NatToString(n)
  {
  }

  /** Labels with different units differ, whatever their counts. */
  lemma AgoUnitsDiffer(m: nat, u: string, n: nat, v: string)
    requires u != v && |u| > 0 && |v| > 0 && u[0] != v[0]
    ensures Ago(m, u) != Ago(n, v)
  {
    var a := Text.NatToString(m);
    var b := Text.NatToString(n);
    AgoDigitsEnd(m, u);
    AgoDigitsEnd(n, v);
    if |a| < |b| {
      assert Ago(n, v)[|a|] == b[|a|];
    } else if |b| < |a| {
      assert Ago(m, u)[|b|] == a[|b|];
    } else {
      assert Ago(m, u)[|a| + 1] == u[0];
      assert Ago(n, v)[|a| + 1] == v[0];
    }
  }

  /** The search (name only, ignoring case) and the status drop-down. */
  predicate Passes(integration: Integration, query: string, filter: string)
  {
    Text.ContainsIgnoringCase(integration.name, query) && (filter == "all" || integration.status == filter)
  }

  function PassesFn(query: string, filter: string): Integration -> bool
  {
    (integration: Integration) => Passes(integration, query, filter)
  }

  /** `filteredIntegrations`: the passing integrations, in list order. */
  function Visible(integrations: seq<Integration>, query: string, filter: string): (r: seq<Integration>)
    ensures forall x :: x in r <==> x in integrations && Passes(x, query, filter)
  {
    Lists.Filter(integrations, PassesFn(query, filter))
  }

  /**
   * With every status 'connected' or 'disconnected', the two status filters
   * split the 'all' result for the same search: nothing is in both and the two
   * lengths add up.
   */
  lemma StatusFiltersSplitAll(integrations: seq<Integration>, query: string)
    requires forall i :: 0 <= i < |integrations| ==>
               integrations[i].status == "connected" || integrations[i].status == "disconnected"
    ensures forall x :: !(x in Visible(integrations, query, "connected") && x in Visible(integrations, query, "disconnected"))
    ensures |Visible(integrations, query, "connected")| + |Visible(integrations, query, "disconnected")| ==
            |Visible(integrations, query, "all")|
  {
    var all := Visible(integrations, query, "all");
    var c := PassesFn(query, "connected");
    var d := PassesFn(query, "disconnected");
    var sc := (x: Integration) => x.status == "connected";
    var sd := (x: Integration) => x.status != "connected";
    Lists.FilterFilter(integrations, PassesFn(query, "all"), sc, c);
    Lists.FilterFilter(integrations, PassesFn(query, "all"), sd, d);
    Lists.FilterPartition(all, sc, sd);
  }

  /**
   * `toggleConnection` on one integration; `random` is the value
   * `Math.random()` returned. Disconnecting clears the device count and the
   * sync; any other status connects with between one and five devices, synced
   * now. Id, name and description are kept.
   */
  function ToggleOne(x: Integration, random: real, now: int): (y: Integration)
    requires 0.0 <= random < 1.0
    ensures x.status == "connected" ==> y == x.(status := "disconnected", devices := 0, lastSync := None)
    ensures x.status != "connected" ==> y.status == "connected" && 1 <= y.devices <= 5 && y.lastSync == Some(now)
    ensures y.id == x.id && y.name == x.name && y.description == x.description
  {
    RandomPick(random);
    var newStatus := if x.status == "connected" then "disconnected" else "connected";
    var newDevices :=
      if newStatus == "connected" then (if x.status == "connected" then x.devices else (random * 5.0).Floor + 1)
      else 0;
    var newLastSync := if newStatus == "connected" then Some(now) else None;
    x.(status := newStatus, devices := newDevices, lastSync := newLastSync)
  }

  /** `Math.floor(Math.random() * 5)` is one of 0, 1, 2, 3, 4. */
  lemma RandomPick(random: real)
    requires 0.0 <= random < 1.0
    ensures 0 <= (random * 5.0).Floor <= 4
  {
    assert 0.0 <= random * 5.0 < 5.0;
  }

  function WithId(id: string): Integration -> bool
  {
    (x: Integration) => x.id == id
  }

  function ToggleFn(random: real, now: int): Integration -> Integration
    requires 0.0 <= random < 1.0
  {
    (x: Integration) => ToggleOne(x, random, now)
  }

  function RefreshFn(now: int): Integration -> Integration
  {
    (x: Integration) => x.(lastSync := Some(now))
  }

  /**
   * A record is consistent when a disconnected integration has no devices and
   * no sync, and a connected one has a sync.
   */
  predicate Consistent(x: Integration)
  {
    (x.status == "disconnected" ==> x.devices == 0 && x.lastSync.None?) &&
    (x.status == "connected" ==> x.lastSync.Some?)
  }

  /** The list the tab starts with is consistent. */
  lemma InitialConsistent()
    ensures forall i :: 0 <= i < |InitialIntegrations| ==> Consistent(InitialIntegrations[i])
  {
  }

  /**
   * Toggling keeps every record consistent, and so does refreshing a connected
   * integration (the only kind the refresh button is offered for); refreshing a
   * disconnected one would record a sync for it.
   */
  lemma ActionsKeepConsistent(x: Integration, random: real, now: int)
    requires 0.0 <= random < 1.0
    requires Consistent(x)
    ensures Consistent(ToggleOne(x, random, now))
    ensures x.status == "connected" ==> Consistent(RefreshFn(now)(x))
    ensures x.status == "disconnected" ==> !Consistent(RefreshFn(now)(x))
  {
  }

  /** The tab's state: the integration list and the two filter inputs. */
  class IntegrationsTab {
    var integrations: seq<Integration>
    var searchQuery: string
    var filter: string

    constructor ()
      ensures integrations == InitialIntegrations && searchQuery == "" && filter == "all"
    {
      integrations, searchQuery, filter := InitialIntegrations, "", "all";
    }

    /**
     * `toggleConnection(id)`: every integration with the id is toggled, the
     * others are kept; the filters stay.
     */
    method ToggleConnection(id: string, random: real, now: int)
      requires 0.0 <= random < 1.0
      modifies this
      ensures integrations == Lists.UpdateWhere(old(integrations), WithId(id), ToggleFn(random, now))
      ensures searchQuery == old(searchQuery) && filter == old(filter)
    {
      integrations := Lists.UpdateWhere(integrations, WithId(id), ToggleFn(random, now));
    }

    /** `refreshIntegration(id)`: the integrations with the id get `lastSync` now, and nothing else changes. */
    method RefreshIntegration(id: string, now: int)
      modifies this
      ensures integrations == Lists.UpdateWhere(old(integrations), WithId(id), RefreshFn(now))
      ensures searchQuery == old(searchQuery) && filter == old(filter)
    {
      integrations := Lists.UpdateWhere(integrations, WithId(id), RefreshFn(now));
    }
  }

  /** Toggling one id changes the matching records as described and no other record. */
  lemma ToggleConnectionEffect(integrations: seq<Integration>, id: string, random: real, now: int)
    requires 0.0 <= random < 1.0
    ensures var r := Lists.UpdateWhere(integrations, WithId(id), ToggleFn(random, now));
      |r| == |integrations| &&
      (forall i :: 0 <= i < |r| && integrations[i].id != id ==> r[i] == integrations[i]) &&
      (forall i :: 0 <= i < |r| && integrations[i].id == id ==>
         r[i].id == id && (r[i].status == "connected" <==> integrations[i].status != "connected"))
  {
  }

  /** Refreshing changes only `lastSync`, and only on the matching records. */
  lemma RefreshOnlyChangesSync(integrations: seq<Integration>, id: string, now: int)
    ensures var r := Lists.UpdateWhere(integrations, WithId(id), RefreshFn(now));
      |r| == |integrations| &&
      (forall i :: 0 <= i < |r| && integrations[i].id != id ==> r[i] == integrations[i]) &&
      (forall i :: 0 <= i < |r| && integrations[i].id == id ==>
         r[i].lastSync == Some(now) && r[i].(lastSync := integrations[i].lastSync) == integrations[i])
  {
  }
}
