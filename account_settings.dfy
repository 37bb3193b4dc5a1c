/**
 * The account settings tab: a form filled from the signed-in user, an edit
 * switch, and a submit that checks the new password against its confirmation
 * before handing name, email and phone to `updateUser`. The authentication
 * store defines no `updateUser`, so that call always fails with a TypeError,
 * which leaves the handler before it can leave edit mode.
 */
module AccountSettings {
  import opened Wrappers
  import Auth

  datatype Form = Form(
    name: string,
    email: string,
    phone: string,
    currentPassword: string,
    newPassword: string,
    confirmPassword: string)

  /**
   * The form's first contents: `user?.field || ''` for name, email and phone
   * (the demo user has no phone) and empty password fields.
   */
  function InitialForm(user: Option<Auth.User>): (f: Form)
    ensures user.None? ==> f == Form("", "", "", "", "", "")
    ensures user.Some? ==> f.name == user.value.name && f.email == user.value.email
    ensures f.phone == "" && f.currentPassword == "" && f.newPassword == "" && f.confirmPassword == ""
  {
    match user
    case None => Form("", "", "", "", "", "")
    case Some(u) => Form(u.name, u.email, "", "", "", "")
  }

  /**
   * `handleChange` for the input called `field`: that field takes `value`. The
   * inputs are named after the six fields; another name would add a key that
   * nothing reads, so it is modelled as leaving the form as it was.
   */
  function SetField(f: Form, field: string, value: string): (g: Form)
    ensures FieldValue(f, field).Some? ==> FieldValue(g, field) == Some(value)
    ensures FieldValue(f, field).None? ==> g == f
    ensures forall other :: other != field ==> FieldValue(g, other) == FieldValue(f, other)
  {
    match field
    case "name" => f.(name := value)
    case "email" => f.(email := value)
    case "phone" => f.(phone := value)
    case "currentPassword" => f.(currentPassword := value)
    case "newPassword" => f.(newPassword := value)
    case "confirmPassword" => f.(confirmPassword := value)
    case _ => f
  }

  /** The value an input shows for `field`. */
  function FieldValue(f: Form, field: string): Option<string>
  {
    match field
    case "name" => Some(f.name)
    case "email" => Some(f.email)
    case "phone" => Some(f.phone)
    case "currentPassword" => Some(f.currentPassword)
    case "newPassword" => Some(f.newPassword)
    case "confirmPassword" => Some(f.confirmPassword)
    case _ => None
  }

  /** The object handed to `updateUser`: name, email and phone only. */
  datatype UserUpdate = UserUpdate(name: string, email: string, phone: string)

  /** How a submit ends. */
  datatype SubmitOutcome =
    | PasswordsDiffer                      // alert('Passwords do not match') and return
    | UpdateFailed(request: UserUpdate)    // `updateUser` is undefined: the call throws

  /**
   * `handleSubmit`: a non-empty new password that differs from its
   * confirmation stops the submit; otherwise the update is built and the call
   * to the missing `updateUser` throws.
   */
  function Submit(f: Form): (o: SubmitOutcome)
    ensures o.PasswordsDiffer? <==> f.newPassword != "" && f.newPassword != f.confirmPassword
    ensures o.UpdateFailed? ==> o.request == UserUpdate(f.name, f.email, f.phone)
  {
    if f.newPassword != "" && f.newPassword != f.confirmPassword then PasswordsDiffer
    else UpdateFailed(UserUpdate(f.name, f.email, f.phone))
  }

  /** An empty new password skips the check, whatever the confirmation holds. */
  lemma EmptyNewPasswordSkipsCheck(f: Form, confirmation: string)
    requires f.newPassword == ""
    ensures Submit(f.(confirmPassword := confirmation)) == Submit(f)
    ensures Submit(f).UpdateFailed?
  {
  }

  /** The password fields never reach the update: forms differing only there send the same update. */
  lemma PasswordsNeverForwarded(f: Form, g: Form)
    requires f.name == g.name && f.email == g.email && f.phone == g.phone
    requires Submit(f).UpdateFailed? && Submit(g).UpdateFailed?
    ensures Submit(f) == Submit(g)
  {
  }

  /** The tab's state. */
  class AccountTab {
    var isEditing: bool
    var form: Form

    constructor (user: Option<Auth.User>)
      ensures !isEditing && form == InitialForm(user)
    {
      isEditing, form := false, InitialForm(user);
    }

    /** The edit button: `setIsEditing(!isEditing)`. */
    method ToggleEditing()
      modifies this
      ensures isEditing == !old(isEditing) && form == old(form)
    {
      isEditing := !isEditing;
    }

    /** `handleChange` for one input. */
    method HandleChange(field: string, value: string)
      modifies this
      ensures form == SetField(old(form), field, value) && isEditing == old(isEditing)
    {
      form := SetField(form, field, value);
    }

    /**
     * `handleSubmit`: neither ending reaches `setIsEditing(false)`, so the
     * method modifies nothing: the tab stays in edit mode and the form is kept.
     */
    method HandleSubmit() returns (outcome: SubmitOutcome)
      ensures outcome == Submit(form)
    {
      outcome := Submit(form);
    }
  }
}
