/**
 * The device side of the integration service: the Philips Hue command payload
 * and its brightness scaling, the Hue light transform, the per-platform
 * dispatch of `controlDevice` and `fetchPlatformDevices`, and the `fetchDevices`
 * loop over a user's integrations. Every network answer is a parameter: the
 * Hue bridge's reply is carried by the integration, and whether a PUT succeeds
 * is a boolean.
 */
module IntegrationService {
  import opened Wrappers
  import Lists
  import opened JsMath

  /** The Hue `bri` for a brightness percentage: `Math.round((p / 100) * 254)`. */
  function HueBri(percent: int): (bri: int)
    ensures 200 * bri - 100 <= 508 * percent < 200 * bri + 100
  {
    RoundDiv(percent * 254, 100)
  }

  /** The brightness percentage for a Hue `bri`: `Math.round((bri / 254) * 100)`. */
  function HuePercent(bri: int): (percent: int)
    ensures 508 * percent - 254 <= 200 * bri < 508 * percent + 254
  {
    RoundDiv(bri * 100, 254)
  }

  /** A percentage between 0 and 100 becomes a `bri` between 0 and 254. */
  lemma HueBriRange(percent: int)
    requires 0 <= percent <= 100
    ensures 0 <= HueBri(percent) <= 254
  {
  }

  /**
   * Scaling a whole percentage to `bri` and back gives the percentage again. The
   * rounding error of the forward step is at most half a `bri` step, which is
   * less than half a percent, so the backward rounding lands on the start.
   */
  lemma HueRoundTrip(percent: int)
    ensures HuePercent(HueBri(percent)) == percent
  {
    var bri := HueBri(percent);
    assert 508 * percent - 100 <= 200 * bri <= 508 * percent + 100;
    var back := HuePercent(bri);
    assert 508 * back <= 200 * bri + 254 < 508 * back + 508;
  }

  /** The `command` object of `controlDevice`: each field may be absent. */
  datatype LightCommand = LightCommand(isOn: Option<bool>, brightness: Option<int>, colorTemperature: Option<int>)

  /** A JSON value of the Hue payload. */
  datatype PayloadValue = Flag(b: bool) | Number(n: int)

  /**
   * The Hue payload, filled key by key: `on` exactly when `isOn` is given,
   * `bri` exactly when `brightness` is given, `ct` exactly when
   * `colorTemperature` is given, and nothing else.
   */
  method HuePayload(command: LightCommand) returns (payload: map<string, PayloadValue>)
    ensures "on" in payload <==> command.isOn.Some?
    ensures "bri" in payload <==> command.brightness.Some?
    ensures "ct" in payload <==> command.colorTemperature.Some?
    ensures payload.Keys <= {"on", "bri", "ct"}
    ensures command.isOn.Some? ==> payload["on"] == Flag(command.isOn.value)
    ensures command.brightness.Some? ==> payload["bri"] == Number(HueBri(command.brightness.value))
    ensures command.colorTemperature.Some? ==> payload["ct"] == Number(command.colorTemperature.value)
  {
    payload := map[];
    if command.isOn.Some? {
      payload := payload["on" := Flag(command.isOn.value)];
    }
    if command.brightness.Some? {
      payload := payload["bri" := Number(HueBri(command.brightness.value))];
    }
    if command.colorTemperature.Some? {
      payload := payload["ct" := Number(command.colorTemperature.value)];
    }
  }

  /**
   * `controlPhilipsHueDevice(id, command)`: builds the payload, sends it, and
   * reports whether the bridge answered with an ok status (`responseOk`).
   */
  method ControlPhilipsHueDevice(command: LightCommand, responseOk: bool)
    returns (sent: map<string, PayloadValue>, ok: bool)
    ensures ok == responseOk
    ensures sent.Keys <= {"on", "bri", "ct"}
    ensures "bri" in sent <==> command.brightness.Some?
    ensures command.brightness.Some? ==> sent["bri"] == Number(HueBri(command.brightness.value))
  {
    sent := HuePayload(command);
    ok := responseOk;
  }

  /**
   * `controlDevice(device, command)`: only Philips Hue has a control method. The
   * Google Home and Amazon Alexa branches call methods the service does not
   * define, so they throw and the error is caught, like an unknown platform.
   */
  function ControlDevice(platform: string, hueResponseOk: bool): (ok: bool)
    ensures ok <==> platform == "philips-hue" && hueResponseOk
  {
    match platform
    case "philips-hue" => hueResponseOk
    case "google-home" => false
    case "amazon-alexa" => false
    case _ => false
  }

  /** One light of the Hue bridge's answer, under its key. */
  datatype HueLight = HueLight(
    key: string,
    name: string,
    room: Option<string>,
    on: bool,
    bri: int,
    ct: Option<int>,
    hasXy: bool,
    reachable: bool,
    modelId: string)

  datatype Features = Features(brightness: bool, colorTemperature: bool, color: bool)

  /** A device as the service returns it. */
  datatype PlatformDevice = PlatformDevice(
    id: string,
    name: string,
    deviceType: string,
    room: string,
    isOn: bool,
    brightness: Option<int>,
    colorTemperature: Option<int>,
    volume: Option<int>,
    features: Option<Features>,
    status: string,
    manufacturer: string,
    model: string,
    platform: string,
    platformDeviceId: string)

  const HuePrefix := "philips-hue-"

  /** The transform of one Hue light into a device. */
  function HueDevice(light: HueLight): (d: PlatformDevice)
    ensures d.id == HuePrefix + light.key && d.platformDeviceId == light.key
    ensures d.deviceType == "light" && d.platform == "philips-hue"
    ensures d.room == (if light.room.Some? && light.room.value != "" then light.room.value else "Unknown")
    ensures d.status == "online" <==> light.reachable
    ensures d.status == "offline" <==> !light.reachable
    ensures d.features.Some? && d.features.value.brightness
    ensures d.features.value.colorTemperature <==> light.ct.Some? && light.ct.value != 0
    ensures d.brightness == Some(HuePercent(light.bri))
  {
    PlatformDevice(
      HuePrefix + light.key, light.name, "light",
      if light.room.Some? && light.room.value != "" then light.room.value else "Unknown",
      light.on, Some(HuePercent(light.bri)), light.ct, None,
      Some(Features(true, light.ct.Some? && light.ct.value != 0, light.hasXy)),
      if light.reachable then "online" else "offline",
      "Philips Hue", light.modelId, "philips-hue", light.key)
  }

  /** Different bridge keys give different device ids. */
  lemma HueIdsDistinct(a: HueLight, b: HueLight)
    requires a.key != b.key
    ensures HueDevice(a).id != HueDevice(b).id
  {
    assert HueDevice(a).id[|HuePrefix|..] == a.key;
    assert HueDevice(b).id[|HuePrefix|..] == b.key;
  }

  /** A `bri` the bridge reports (0 to 254) is shown as a percentage from 0 to 100. */
  lemma HueBrightnessRange(light: HueLight)
    requires 0 <= light.bri <= 254
    ensures 0 <= HueDevice(light).brightness.value <= 100
  {
  }

  /**
   * `fetchPhilipsHueDevices(credentials)`: the transformed lights of the bridge's
   * answer, or nothing when the request fails (`None`).
   */
  function HueDevices(answer: Option<seq<HueLight>>): (r: seq<PlatformDevice>)
    ensures answer.None? ==> r == []
    ensures answer.Some? ==> |r| == |answer.value|
    ensures answer.Some? ==> forall i :: 0 <= i < |r| ==> r[i] == HueDevice(answer.value[i])
  {
    if answer.None? then [] else Lists.MapSeq(answer.value, HueDevice)
  }

  /** The two fixed devices `fetchGoogleHomeDevices` answers with. */
  function GoogleHomeDevices(): seq<PlatformDevice>
  {
    [
      PlatformDevice("google-home-1", "Living Room Speaker", "speaker", "Living Room", true,
        None, None, Some(50), None, "online", "Google", "Home", "google-home", "1"),
      PlatformDevice("google-home-2", "Kitchen Display", "display", "Kitchen", true,
        None, None, None, None, "online", "Google", "Nest Hub", "google-home", "2")
    ]
  }

  /**
   * A stored integration: its status, its platform record (absent when the
   * joined platform row is missing), and what the Hue bridge would answer for
   * its credentials.
   */
  datatype Integration = Integration(status: string, platformId: Option<string>, hueAnswer: Option<seq<HueLight>>)

  /** What `fetchPlatformDevices` does: give back a list, or throw to its caller. */
  datatype Fetched = Devices(devices: seq<PlatformDevice>) | Throws

  /**
   * `fetchPlatformDevices(integration)`. Failures inside a platform fetcher are
   * caught and give []; Amazon Alexa has no fetcher, so calling it throws and
   * is caught too. Without a platform record, reading its id throws, and the
   * handler reads the same id again to log it, so that second error escapes.
   */
  function PlatformDevices(integration: Integration): (r: Fetched)
    ensures r.Throws? <==> integration.platformId.None?
    ensures integration.platformId == Some("philips-hue") ==> r == Devices(HueDevices(integration.hueAnswer))
    ensures integration.platformId == Some("google-home") ==> r == Devices(GoogleHomeDevices())
    ensures integration.platformId.Some? && integration.platformId.value !in {"philips-hue", "google-home"} ==>
      r == Devices([])
  {
    match integration.platformId
    case None => Throws
    case Some(id) =>
      if id == "philips-hue" then Devices(HueDevices(integration.hueAnswer))
      else if id == "google-home" then Devices(GoogleHomeDevices())
      else if id == "amazon-alexa" then Devices([])
      else Devices([])
  }

  predicate IsConnected(integration: Integration)
  {
    integration.status == "connected"
  }

  /**
   * The devices of the connected integrations, concatenated in integration
   * order, or `None` when one of them throws: exactly when some connected
   * integration has no platform record.
   */
  function Gather(integrations: seq<Integration>): (r: Option<seq<PlatformDevice>>)
    ensures r.None? <==>
      exists i :: 0 <= i < |integrations| && IsConnected(integrations[i]) && integrations[i].platformId.None?
  {
    if integrations == [] then Some([])
    else
      var rest := Gather(integrations[1..]);
      if !IsConnected(integrations[0]) then rest
      else match PlatformDevices(integrations[0])
        case Throws => None
        case Devices(ds) => if rest.None? then None else Some(ds + rest.value)
  }

  /** Disconnected integrations contribute nothing: gathering only the connected ones gives the same. */
  lemma {:induction false} GatherIgnoresDisconnected(integrations: seq<Integration>)
    ensures Gather(integrations) == Gather(Lists.Filter(integrations, IsConnected))
  {
    if integrations != [] {
      GatherIgnoresDisconnected(integrations[1..]);
      var f := Lists.Filter(integrations, IsConnected);
      if IsConnected(integrations[0]) {
        assert f[0] == integrations[0] && f[1..] == Lists.Filter(integrations[1..], IsConnected);
      }
    }
  }

  /** With no integration connected, nothing is fetched and nothing fails. */
  lemma {:induction false} GatherNoneConnected(integrations: seq<Integration>)
    requires forall i :: 0 <= i < |integrations| ==> !IsConnected(integrations[i])
    ensures Gather(integrations) == Some([])
  {
    if integrations != [] {
      GatherNoneConnected(integrations[1..]);
    }
  }

  /** What one more integration adds to a gathering so far. */
  function Contribute(sofar: Option<seq<PlatformDevice>>, x: Integration): Option<seq<PlatformDevice>>
  {
    if sofar.None? then None
    else if !IsConnected(x) then sofar
    else match PlatformDevices(x)
      case Throws => None
      case Devices(more) => Some(sofar.value + more)
  }

  /** Gathering over a longer list first gathers over its prefix. */
  lemma {:induction false} GatherSnoc(integrations: seq<Integration>, x: Integration)
    ensures Gather(integrations + [x]) == Contribute(Gather(integrations), x)
  {
    if integrations == [] {
      assert integrations + [x] == [x];
      assert [x][1..] == [];
      if IsConnected(x) && PlatformDevices(x).Devices? {
        var more := PlatformDevices(x).devices;
        assert more + [] == [] + more;
      }
    } else {
      var y, t := integrations[0], integrations[1..];
      assert (integrations + [x])[1..] == t + [x];
      GatherSnoc(t, x);
      if IsConnected(y) && PlatformDevices(y).Devices? {
        var first := PlatformDevices(y).devices;
        var rest := Gather(t);
        if rest.Some? && IsConnected(x) && PlatformDevices(x).Devices? {
          var more := PlatformDevices(x).devices;
          assert first + (rest.value + more) == (first + rest.value) + more;
        }
      }
    }
  }

  /** Once a prefix has thrown, the whole gathering has thrown. */
  lemma {:induction false} GatherThrowsForever(a: seq<Integration>, b: seq<Integration>)
    requires Gather(a) == None
    ensures Gather(a + b) == None
  {
    if a != [] {
      assert (a + b)[1..] == a[1..] + b;
      if Gather(a[1..]) == None {
        GatherThrowsForever(a[1..], b);
      }
    }
  }

  /**
   * `fetchDevices(userId)`: walks the user's integrations (`None` when looking
   * them up fails) and appends the devices of each connected one; any error
   * that escapes makes the whole answer [].
   */
  method FetchDevices(integrations: Option<seq<Integration>>) returns (all: seq<PlatformDevice>)
    ensures integrations.None? ==> all == []
    ensures integrations.Some? ==> all == Gather(integrations.value).GetOr([])
  {
    if integrations.None? {
      return [];
    }
    var its := integrations.value;
    all := [];
    var i := 0;
    while i < |its|
      invariant 0 <= i <= |its|
      invariant Gather(its[..i]) == Some(all)
    {
      var x := its[i];
      GatherSnoc(its[..i], x);
      assert its[..i + 1] == its[..i] + [x];
      if IsConnected(x) {
        var fetched := PlatformDevices(x);
        if fetched.Throws? {
          GatherThrowsForever(its[..i + 1], its[i + 1..]);
          assert its[..i + 1] + its[i + 1..] == its;
          return [];
        }
        all := all + fetched.devices;
      }
      i := i + 1;
    }
    assert its[..i] == its;
  }
}
