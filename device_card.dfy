/**
 * The device card's colour selectors and icon choice. The three colour
 * functions share one priority: an error status first, then a warning status,
 * then the power state; other status values ('online', 'offline') are ignored.
 */
module DeviceCard {
  import Devices

  type Device = Devices.Device

  /** Which of the four colour branches a device falls in. */
  datatype Tone = Danger | Caution | Active | Idle

  /** The shared priority: error over warning over power state. */
  function ToneOf(status: string, isOn: bool): Tone
  {
    if status == "error" then Danger
    else if status == "warning" then Caution
    else if isOn then Active
    else Idle
  }

  function StatusPalette(t: Tone): string
  {
    match t
    case Danger => "bg-danger-500"
    case Caution => "bg-warning-500"
    case Active => "bg-success-500"
    case Idle => "bg-secondary-300"
  }

  function IconPalette(t: Tone): string
  {
    match t
    case Danger => "text-danger-500"
    case Caution => "text-warning-500"
    case Active => "text-primary-600"
    case Idle => "text-secondary-400"
  }

  function BackgroundPalette(t: Tone): string
  {
    match t
    case Danger => "bg-danger-50"
    case Caution => "bg-warning-50"
    case Active => "bg-primary-50"
    case Idle => "bg-secondary-50"
  }

  /** `getStatusColor()`. */
  function StatusColor(d: Device): (c: string)
    ensures c == StatusPalette(ToneOf(d.status, d.isOn))
  {
    if d.status == "error" then "bg-danger-500"
    else if d.status == "warning" then "bg-warning-500"
    else if d.isOn then "bg-success-500"
    else "bg-secondary-300"
  }

  /** `getIconColor()`. */
  function IconColor(d: Device): (c: string)
    ensures c == IconPalette(ToneOf(d.status, d.isOn))
  {
    if d.status == "error" then "text-danger-500"
    else if d.status == "warning" then "text-warning-500"
    else if d.isOn then "text-primary-600"
    else "text-secondary-400"
  }

  /** `getBackgroundColor()`. */
  function BackgroundColor(d: Device): (c: string)
    ensures c == BackgroundPalette(ToneOf(d.status, d.isOn))
  {
    if d.status == "error" then "bg-danger-50"
    else if d.status == "warning" then "bg-warning-50"
    else if d.isOn then "bg-primary-50"
    else "bg-secondary-50"
  }

  /**
   * The branch a status colour comes from. Each colour names its branch, so the
   * icon and background colours, which follow the same branch, are determined
   * by the status colour.
   */
  function BranchOfStatusColor(c: string): Tone
  {
    match c
    case "bg-danger-500" => Danger
    case "bg-warning-500" => Caution
    case "bg-success-500" => Active
    case _ => Idle
  }

  /** Reading the branch back from the status colour gives the branch of all three colours. */
  lemma ColoursShareBranch(d: Device)
    ensures StatusColor(d) == StatusPalette(BranchOfStatusColor(StatusColor(d)))
    ensures IconColor(d) == IconPalette(BranchOfStatusColor(StatusColor(d)))
    ensures BackgroundColor(d) == BackgroundPalette(BranchOfStatusColor(StatusColor(d)))
  {
  }

  /**
   * An error status wins whatever the power state; apart from 'error' and
   * 'warning', the status value makes no difference and only the power state counts.
   */
  lemma PriorityOfStatus(status: string, other: string, isOn: bool)
    ensures ToneOf("error", isOn) == Danger && ToneOf("warning", isOn) == Caution
    ensures status != "error" && status != "warning" && other != "error" && other != "warning" ==>
      ToneOf(status, isOn) == ToneOf(other, isOn) && (ToneOf(status, isOn) == Active <==> isOn)
  {
  }

  /** The icons of the card. */
  datatype Icon = Bulb | Thermometer | LockClosed | LockOpen | Camera | Speaker | Bolt | Monitor

  const KnownTypes: set<string> := {"light", "thermostat", "lock", "camera", "speaker", "outlet"}

  /** `getDeviceIcon()`: the lock icon follows the power state; unknown types get the generic icon. */
  function CardIcon(deviceType: string, isOn: bool): (i: Icon)
    ensures deviceType == "lock" ==> i == (if isOn then LockClosed else LockOpen)
    ensures i == Monitor <==> deviceType !in KnownTypes
  {
    match deviceType
    case "light" => Bulb
    case "thermostat" => Thermometer
    case "lock" => if isOn then LockClosed else LockOpen
    case "camera" => Camera
    case "speaker" => Speaker
    case "outlet" => Bolt
    case _ => Monitor
  }

  /** Only the lock icon depends on the power state. */
  lemma IconIgnoresPowerExceptLocks(deviceType: string)
    requires deviceType != "lock"
    ensures CardIcon(deviceType, true) == CardIcon(deviceType, false)
  {
  }
}
