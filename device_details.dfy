/**
 * The device details screen: the not-found branch, the status label, the
 * values shown with `||` defaults, the type label and the delete action.
 * Its colour helpers are the device card's, branch for branch.
 */
module DeviceDetails {
  import opened Wrappers
  import Lists
  import Text
  import Devices
  import DeviceCard

  type Device = Devices.Device

  /** `devices.find(d => d.id === deviceId)`; `None` is the "Device not found" branch. */
  function FindDevice(devices: seq<Device>, deviceId: string): (r: Option<Device>)
    ensures r.None? <==> forall i :: 0 <= i < |devices| ==> devices[i].id != deviceId
    ensures r.Some? ==> exists k :: 0 <= k < |devices| && devices[k] == r.value &&
                                  r.value.id == deviceId && forall j :: 0 <= j < k ==> devices[j].id != deviceId
  {
    match Lists.FindFirst(devices, (d: Device) => d.id == deviceId)
    case None => None
    case Some(k) => Some(devices[k])
  }

  /** The status label next to the status dot. */
  function StatusLabel(d: Device): (text: string)
    ensures text == match DeviceCard.ToneOf(d.status, d.isOn)
      case Danger => "Error"
      case Caution => "Warning"
      case Active => "Online"
      case Idle => "Offline"
  {
    if d.status == "error" then "Error"
    else if d.status == "warning" then "Warning"
    else if d.isOn then "Online"
    else "Offline"
  }

  /**
   * `value || fallback` for a number that may be missing: a missing value and a
   * stored 0 are both falsy and show the fallback.
   */
  function OrDefault(value: Option<int>, fallback: int): (shown: int)
    ensures value.None? ==> shown == fallback
    ensures value == Some(0) ==> shown == fallback
    ensures value.Some? && value.value != 0 ==> shown == value.value
  {
    if value.Some? && value.value != 0 then value.value else fallback
  }

  /** The brightness slider position. */
  function ShownBrightness(d: Device): int { OrDefault(d.brightness, 100) }

  /** The colour-temperature slider position. */
  function ShownColorTemperature(d: Device): int { OrDefault(d.colorTemperature, 4000) }

  /** The thermostat's displayed temperature. */
  function ShownTemperature(d: Device): int { OrDefault(d.currentValue, 72) }

  /** A stored 0 is displayed as the default, never as 0. */
  lemma ZeroShowsDefault(d: Device)
    requires d.brightness == Some(0) && d.colorTemperature == Some(0) && d.currentValue == Some(0)
    ensures ShownBrightness(d) == 100 && ShownColorTemperature(d) == 4000 && ShownTemperature(d) == 72
  {
  }

  /** A displayed value is the stored one or the default, and is never 0. */
  lemma ShownValueNeverZero(value: Option<int>, fallback: int)
    requires fallback != 0
    ensures OrDefault(value, fallback) != 0
    ensures OrDefault(value, fallback) == fallback || value == Some(OrDefault(value, fallback))
  {
  }

  /** The type label: `type.charAt(0).toUpperCase() + type.slice(1)`. */
  function TypeLabel(deviceType: string): (text: string)
    ensures |text| == |deviceType|
    ensures deviceType != [] ==> text[0] == Text.UpperChar(deviceType[0]) && text[1..] == deviceType[1..]
  {
    if deviceType == [] then [] else [Text.UpperChar(deviceType[0])] + deviceType[1..]
  }

  /** The label differs from the type only in the case of its first letter. */
  lemma TypeLabelKeepsLetters(deviceType: string)
    ensures Text.Lower(TypeLabel(deviceType)) == Text.Lower(deviceType)
    ensures TypeLabel(TypeLabel(deviceType)) == TypeLabel(deviceType)
  {
    var shown := TypeLabel(deviceType);
    forall i | 0 <= i < |deviceType| ensures Text.LowerChar(shown[i]) == Text.LowerChar(deviceType[i]) {
      if i > 0 {
        assert shown[i] == shown[1..][i - 1];
      }
    }
  }

  /** `handleDelete`: removes the device from the store, then goes to the device list. */
  method HandleDelete(store: Devices.DeviceStore, device: Device) returns (path: string)
    modifies store
    ensures store.devices == Devices.Remove(old(store.devices), device.id)
    ensures forall i :: 0 <= i < |store.devices| ==> store.devices[i].id != device.id
    ensures path == "/devices"
  {
    store.RemoveDevice(device.id);
    path := "/devices";
  }
}
