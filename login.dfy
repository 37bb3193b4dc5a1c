/**
 * The login page: two controlled inputs and a submit handler that validates
 * them, awaits the store's `login`, and reports the outcome. The call to
 * `login` is outside the page, so its outcome is a parameter; the demo
 * store's own `login` always succeeds.
 */
module Login {
  import opened Wrappers
  import Auth

  const MissingFields := "Please enter both email and password"
  const InvalidCredentials := "Invalid email or password"
  const Failure := "An error occurred. Please try again."

  /** What the awaited `login(email, password)` does: resolve true, resolve false, or throw. */
  datatype LoginOutcome = Resolved(success: bool) | Threw

  /** What one submit leaves behind: the error shown, the loading flag, and whether it went to '/'. */
  datatype Attempt = Attempt(error: string, isLoading: bool, toHome: bool, calledLogin: bool)

  /**
   * `handleSubmit`: an empty input stops it before `login` is called;
   * otherwise the outcome decides between going home and one of two errors.
   * The error set before the submit never survives it, and the loading flag
   * is always off at the end.
   */
  function Submit(email: string, password: string, outcome: LoginOutcome): (a: Attempt)
    ensures !a.isLoading
    ensures a.calledLogin <==> email != "" && password != ""
    ensures !a.calledLogin ==> a.error == MissingFields && !a.toHome
    ensures a.calledLogin && outcome == Resolved(true) ==> a.error == "" && a.toHome
    ensures a.calledLogin && outcome == Resolved(false) ==> a.error == InvalidCredentials && !a.toHome
    ensures a.calledLogin && outcome.Threw? ==> a.error == Failure && !a.toHome
  {
    if email == "" || password == "" then Attempt(MissingFields, false, false, false)
    else
      match outcome
      case Resolved(true) => Attempt("", false, true, true)
      case Resolved(false) => Attempt(InvalidCredentials, false, false, true)
      case Threw => Attempt(Failure, false, false, true)
  }

  /** The page goes home exactly when both inputs are filled and `login` resolves true, and then shows no error. */
  lemma HomeOnlyOnSuccess(email: string, password: string, outcome: LoginOutcome)
    ensures Submit(email, password, outcome).toHome <==> email != "" && password != "" && outcome == Resolved(true)
    ensures Submit(email, password, outcome).toHome <==> Submit(email, password, outcome).error == ""
  {
  }

  /** With the demo store, whose `login` always resolves true, filled inputs always lead home. */
  method SubmitToDemoStore(store: Auth.AuthStore, email: string, password: string) returns (a: Attempt)
    requires email != "" && password != ""
    modifies store
    ensures a.toHome && a.error == "" && !a.isLoading
    ensures store.isAuthenticated && store.user == Some(Auth.LoginUser(email))
  {
    var ok := store.Login(email, password);
    a := Submit(email, password, Resolved(ok));
  }

  /** The page's state. */
  class LoginPage {
    var email: string
    var password: string
    var isLoading: bool
    var error: string
    var toHome: bool

    constructor ()
      ensures email == "" && password == "" && !isLoading && error == "" && !toHome
    {
      email, password, isLoading, error, toHome := "", "", false, "", false;
    }

    method SetEmail(value: string)
      modifies this
      ensures email == value && password == old(password) && error == old(error)
      ensures isLoading == old(isLoading) && toHome == old(toHome)
    {
      email := value;
    }

    method SetPassword(value: string)
      modifies this
      ensures password == value && email == old(email) && error == old(error)
      ensures isLoading == old(isLoading) && toHome == old(toHome)
    {
      password := value;
    }

    /**
     * `handleSubmit`, step by step: clear the error, check the inputs, raise
     * the loading flag, take the outcome of `login`, and lower the flag in
     * `finally`. It returns whether `login` was called. The submit button is
     * disabled while loading, so a submit starts with the flag off.
     */
    method HandleSubmit(outcome: LoginOutcome) returns (calledLogin: bool)
      requires !isLoading
      modifies this
      ensures Attempt(error, isLoading, toHome, calledLogin) == Submit(email, password, outcome)
      ensures email == old(email) && password == old(password)
    {
      error := "";
      toHome := false;
      calledLogin := false;
      if email == "" || password == "" {
        error := MissingFields;
        return;
      }
      isLoading := true;
      calledLogin := true;
      match outcome {
        case Resolved(success) =>
          if success {
            toHome := true;
          } else {
            error := InvalidCredentials;
          }
        case Threw =>
          error := Failure;
      }
      isLoading := false;
    }
  }
}
