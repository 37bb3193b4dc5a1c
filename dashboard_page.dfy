/**
 * The dashboard page: a greeting chosen from the hour of the day, and fixed
 * demonstration data (quick statistics, recent activity and favourite
 * devices) whose favourite devices can be switched from their cards.
 */
module DashboardPage {
  import Lists

  datatype StatValue = Number(n: int) | Text(s: string)

  datatype QuickStat = QuickStat(id: string, caption: string, value: StatValue, link: string)

  datatype Activity = Activity(id: int, device: string, action: string, time: string)

  datatype FavoriteDevice = FavoriteDevice(id: string, name: string, kind: string, status: string)

  datatype DashboardData = DashboardData(
    quickStats: seq<QuickStat>,
    recentActivity: seq<Activity>,
    favoriteDevices: seq<FavoriteDevice>)

  /** The data the page starts with. */
  const MockData: DashboardData := DashboardData(
    [
      QuickStat("devices", "Active Devices", Number(12), "/devices"),
      QuickStat("rooms", "Rooms", Number(5), "/rooms"),
      QuickStat("routines", "Routines", Number(8), "/routines"),
      QuickStat("energy", "Energy Saved", Text("15%"), "/energy")
    ],
    [
      Activity(1, "Living Room Lights", "Turned On", "2 minutes ago"),
      Activity(2, "Thermostat", "Temperature set to 72°F", "15 minutes ago"),
      Activity(3, "Front Door", "Locked", "1 hour ago"),
      Activity(4, "Kitchen TV", "Turned Off", "3 hours ago")
    ],
    [
      FavoriteDevice("device-1", "Living Room Lights", "Light", "On"),
      FavoriteDevice("device-2", "Thermostat", "Climate", "On"),
      FavoriteDevice("device-3", "Front Door Lock", "Security", "Locked"),
      FavoriteDevice("device-4", "Kitchen TV", "Entertainment", "Off")
    ])

  /** The greeting for an hour of the local clock (0 to 23). */
  function Greeting(hour: int): (g: string)
    ensures hour < 12 <==> g == "Good Morning"
    ensures 12 <= hour < 18 <==> g == "Good Afternoon"
    ensures 18 <= hour <==> g == "Good Evening"
  {
    if hour < 12 then "Good Morning"
    else if hour < 18 then "Good Afternoon"
    else "Good Evening"
  }

  /** A card's switch: 'On' becomes 'Off', and every other status, 'Locked' included, becomes 'On'. */
  function NextStatus(status: string): (r: string)
    ensures r == "Off" <==> status == "On"
    ensures r == "On" || r == "Off"
  {
    if status == "On" then "Off" else "On"
  }

  /** Switching twice restores 'On' and 'Off' but turns any other status into 'Off'. */
  lemma NextStatusTwice(status: string)
    ensures status == "On" || status == "Off" ==> NextStatus(NextStatus(status)) == status
    ensures status != "On" && status != "Off" ==> NextStatus(NextStatus(status)) == "Off"
  {
  }

  function HasId(id: string): FavoriteDevice -> bool
  {
    (d: FavoriteDevice) => d.id == id
  }

  function Switch(d: FavoriteDevice): FavoriteDevice
  {
    d.(status := NextStatus(d.status))
  }

  /**
   * `toggleDeviceStatus(id)`: the favourite devices with that id switch
   * status; every other device, the statistics and the activity stay as they
   * were.
   */
  function ToggleDeviceStatus(data: DashboardData, id: string): (r: DashboardData)
    ensures r.quickStats == data.quickStats && r.recentActivity == data.recentActivity
    ensures |r.favoriteDevices| == |data.favoriteDevices|
    ensures forall i :: 0 <= i < |data.favoriteDevices| ==>
      var (d, e) := (data.favoriteDevices[i], r.favoriteDevices[i]);
      e.id == d.id && e.name == d.name && e.kind == d.kind &&
      e.status == (if d.id == id then NextStatus(d.status) else d.status)
  {
    data.(favoriteDevices := Lists.UpdateWhere(data.favoriteDevices, HasId(id), Switch))
  }

  /** A device id that no favourite has leaves the data unchanged. */
  lemma UnknownIdChangesNothing(data: DashboardData, id: string)
    requires forall i :: 0 <= i < |data.favoriteDevices| ==> data.favoriteDevices[i].id != id
    ensures ToggleDeviceStatus(data, id) == data
  {
    Lists.UpdateWhereNoMatch(data.favoriteDevices, HasId(id), Switch);
  }

  /**
   * Switching the same device twice restores the data when every favourite
   * with that id is 'On' or 'Off'.
   */
  lemma ToggleTwiceRestores(data: DashboardData, id: string)
    requires forall i :: 0 <= i < |data.favoriteDevices| && data.favoriteDevices[i].id == id ==>
      data.favoriteDevices[i].status in {"On", "Off"}
    ensures ToggleDeviceStatus(ToggleDeviceStatus(data, id), id) == data
  {
    var once := ToggleDeviceStatus(data, id);
    var twice := ToggleDeviceStatus(once, id);
    forall i | 0 <= i < |data.favoriteDevices|
      ensures twice.favoriteDevices[i] == data.favoriteDevices[i]
    {
      NextStatusTwice(data.favoriteDevices[i].status);
    }
  }

  /** On the start data the front-door lock's switch unlocks it to 'On', and a second press gives 'Off'. */
  lemma LockedDoorNeverReturns(data: DashboardData)
    requires data == MockData
    ensures ToggleDeviceStatus(data, "device-3").favoriteDevices[2].status == "On"
    ensures ToggleDeviceStatus(ToggleDeviceStatus(data, "device-3"), "device-3").favoriteDevices[2].status == "Off"
  {
  }

  /** The page's state. */
  class Dashboard {
    var data: DashboardData
    var greeting: string

    constructor ()
      ensures data == MockData && greeting == ""
    {
      data, greeting := MockData, "";
    }

    /** The mount effect, given the hour `new Date().getHours()` returns. */
    method GreetAt(hour: int)
      modifies this
      ensures greeting == Greeting(hour) && data == old(data)
    {
      if hour < 12 {
        greeting := "Good Morning";
      } else if hour < 18 {
        greeting := "Good Afternoon";
      } else {
        greeting := "Good Evening";
      }
    }

    method ToggleDevice(id: string)
      modifies this
      ensures data == ToggleDeviceStatus(old(data), id) && greeting == old(greeting)
    {
      data := ToggleDeviceStatus(data, id);
    }
  }
}
