/**
 * The profile page: counts over the device, room and routine stores, and a
 * form filled from the signed-in user. Its submit hands the whole form to
 * `updateUser`, which the authentication store does not define, so the call
 * throws before `setIsEditing(false)` runs.
 */
module Profile {
  import opened Wrappers
  import Lists
  import Auth
  import Devices
  import Rooms
  import Routines

  type Device = Devices.Device
  type Room = Rooms.Room
  type Routine = Routines.Routine

  datatype Stats = Stats(
    totalDevices: nat,
    activeDevices: nat,
    totalRooms: nat,
    totalRoutines: nat,
    routineExecutions: int)

  function TimesExecuted(r: Routine): int { r.timesExecuted }

  /**
   * The page's figures: list lengths, the devices that are on, and the runs
   * of all routines added up.
   */
  function ProfileStats(devices: seq<Device>, rooms: seq<Room>, routines: seq<Routine>): (s: Stats)
    ensures s.totalDevices == |devices| && s.totalRooms == |rooms| && s.totalRoutines == |routines|
    ensures s.activeDevices <= s.totalDevices
    ensures s.activeDevices == s.totalDevices <==> forall i :: 0 <= i < |devices| ==> devices[i].isOn
    ensures s.routineExecutions == Lists.Sum(routines, TimesExecuted)
  {
    Stats(|devices|, Lists.Count(devices, Devices.IsOn), |rooms|, |routines|, Lists.Sum(routines, TimesExecuted))
  }

  /** With no negative run counts the total is at least the count of any one routine. */
  lemma ExecutionsBoundEachRoutine(routines: seq<Routine>)
    requires forall i :: 0 <= i < |routines| ==> routines[i].timesExecuted >= 0
    ensures ProfileStats([], [], routines).routineExecutions >= 0
    ensures forall i :: 0 <= i < |routines| ==> routines[i].timesExecuted <= ProfileStats([], [], routines).routineExecutions
  {
    Lists.SumNonNegative(routines, TimesExecuted);
  }

  function HasId(id: string): Routine -> bool
  {
    (r: Routine) => r.id == id
  }

  /**
   * Running a routine raises the page's execution total by the number of
   * routines with that id: by exactly one when ids are unique, by nothing for
   * an unknown id.
   */
  lemma {:induction false} ExecuteAddsRuns(routines: seq<Routine>, id: string)
    ensures Lists.Sum(Routines.Execute(routines, id), TimesExecuted) ==
            Lists.Sum(routines, TimesExecuted) + Lists.Count(routines, HasId(id))
  {
    if routines != [] {
      ExecuteAddsRuns(routines[1..], id);
      assert Routines.Execute(routines, id)[1..] == Routines.Execute(routines[1..], id);
    }
  }

  datatype Form = Form(name: string, email: string, phone: string, location: string, bio: string)

  /**
   * `user?.field || ''` for each field; the demo user has a name and an email
   * and no phone, location or bio.
   */
  function InitialForm(user: Option<Auth.User>): (f: Form)
    ensures user.None? ==> f == Form("", "", "", "", "")
    ensures user.Some? ==> f == Form(user.value.name, user.value.email, "", "", "")
  {
    match user
    case None => Form("", "", "", "", "")
    case Some(u) => Form(u.name, u.email, "", "", "")
  }

  /**
   * `handleChange` for the input called `field`. The inputs are named after
   * the five fields; another name would add a key nothing reads, so the form
   * stays as it was.
   */
  function SetField(f: Form, field: string, value: string): (g: Form)
    ensures FieldValue(f, field).Some? ==> FieldValue(g, field) == Some(value)
    ensures FieldValue(f, field).None? ==> g == f
    ensures forall other :: other != field ==> FieldValue(g, other) == FieldValue(f, other)
  {
    match field
    case "name" => f.(name := value)
    case "email" => f.(email := value)
    case "phone" => f.(phone := value)
    case "location" => f.(location := value)
    case "bio" => f.(bio := value)
    case _ => f
  }

  function FieldValue(f: Form, field: string): Option<string>
  {
    match field
    case "name" => Some(f.name)
    case "email" => Some(f.email)
    case "phone" => Some(f.phone)
    case "location" => Some(f.location)
    case "bio" => Some(f.bio)
    case _ => None
  }

  /** The page's form state. */
  class ProfileForm {
    var isEditing: bool
    var form: Form

    constructor (user: Option<Auth.User>)
      ensures !isEditing && form == InitialForm(user)
    {
      isEditing, form := false, InitialForm(user);
    }

    /** The edit button (`setIsEditing(true)`) and the form's Cancel (`setIsEditing(false)`). */
    method SetEditing(editing: bool)
      modifies this
      ensures isEditing == editing && form == old(form)
    {
      isEditing := editing;
    }

    method HandleChange(field: string, value: string)
      modifies this
      ensures form == SetField(old(form), field, value) && isEditing == old(isEditing)
    {
      form := SetField(form, field, value);
    }

    /**
     * `handleSubmit`: the call to the missing `updateUser` throws, so nothing
     * changes; the result is the object that was to be sent, the whole form.
     */
    method HandleSubmit() returns (attempted: Form)
      ensures attempted == form
    {
      attempted := form;
    }
  }
}
