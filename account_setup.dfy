/**
 * The account set-up page that connects a smart-home platform in three
 * steps: choose a platform (step 1), sign in to it (step 2), see the result
 * (step 3). The sign-in is simulated by two chained timers: the first ends
 * the "Connecting..." phase and marks success, the second moves to step 3.
 * The timers are modelled as events that may fire only once scheduled; their
 * delays are not modelled.
 */
module AccountSetup {
  import opened Wrappers
  import Lists

  datatype Platform = Platform(id: string, name: string, description: string, popular: bool)

  /** The twelve platforms the page offers, the first four marked popular. */
  const Platforms: seq<Platform> := [
    Platform("philips-hue", "Philips Hue", "Control your Philips Hue smart lights", true),
    Platform("google-home", "Google Home", "Manage your Google Home devices", true),
    Platform("amazon-alexa", "Amazon Alexa", "Connect with your Alexa-enabled devices", true),
    Platform("apple-homekit", "Apple HomeKit", "Integrate with your Apple HomeKit accessories", true),
    Platform("samsung-smartthings", "Samsung SmartThings", "Connect with your SmartThings ecosystem", false),
    Platform("nest", "Google Nest", "Manage your Nest thermostats and cameras", false),
    Platform("sonos", "Sonos", "Control your Sonos speakers and audio system", false),
    Platform("ring", "Ring", "Manage your Ring doorbells and cameras", false),
    Platform("ecobee", "ecobee", "Control your ecobee thermostats and sensors", false),
    Platform("lutron", "Lutron Caséta", "Manage your Lutron lighting and shades", false),
    Platform("wemo", "Belkin WeMo", "Control your WeMo smart plugs and switches", false),
    Platform("tplink", "TP-Link Kasa", "Manage your Kasa smart home devices", false)
  ]

  predicate IsPopular(p: Platform) { p.popular }

  predicate IsOther(p: Platform) { !p.popular }

  /** The "Popular Platforms" grid: the popular platforms in the page's order. */
  function PopularPlatforms(ps: seq<Platform>): (r: seq<Platform>)
    ensures forall p :: p in r <==> p in ps && p.popular
  {
    Lists.Filter(ps, IsPopular)
  }

  /** The "Other Platforms" list: the rest, in the page's order. */
  function OtherPlatforms(ps: seq<Platform>): (r: seq<Platform>)
    ensures forall p :: p in r <==> p in ps && !p.popular
  {
    Lists.Filter(ps, IsOther)
  }

  /** The two lists split the platforms: together they hold each one exactly once, each in order. */
  lemma PlatformsPartition(ps: seq<Platform>)
    ensures |PopularPlatforms(ps)| + |OtherPlatforms(ps)| == |ps|
    ensures multiset(PopularPlatforms(ps)) + multiset(OtherPlatforms(ps)) == multiset(ps)
    ensures Lists.IsSubsequence(PopularPlatforms(ps), ps) && Lists.IsSubsequence(OtherPlatforms(ps), ps)
  {
    Lists.FilterPartition(ps, IsPopular, IsOther);
    Lists.FilterIsSubsequence(ps, IsPopular);
    Lists.FilterIsSubsequence(ps, IsOther);
  }

  /**
   * A list whose first `k` platforms are the popular ones shows exactly those
   * as popular and the rest below.
   */
  lemma PopularPrefix(ps: seq<Platform>, k: nat)
    requires k <= |ps|
    requires forall i :: 0 <= i < k ==> ps[i].popular
    requires forall i :: k <= i < |ps| ==> !ps[i].popular
    ensures PopularPlatforms(ps) == ps[..k] && OtherPlatforms(ps) == ps[k..]
    ensures |PopularPlatforms(ps)| == k && |OtherPlatforms(ps)| == |ps| - k
  {
    var front, back := ps[..k], ps[k..];
    assert ps == front + back;
    Lists.FilterAppend(front, back, IsPopular);
    Lists.FilterAppend(front, back, IsOther);
    Lists.FilterAll(front, IsPopular);
    Lists.FilterNone(back, IsPopular);
    Lists.FilterNone(front, IsOther);
    Lists.FilterAll(back, IsOther);
  }

  /** The page's own list shows its first four platforms as popular and the other eight below. */
  lemma PlatformListCounts(ps: seq<Platform>)
    requires ps == Platforms
    ensures PopularPlatforms(ps) == ps[..4] && |PopularPlatforms(ps)| == 4
    ensures OtherPlatforms(ps) == ps[4..] && |OtherPlatforms(ps)| == 8
  {
    assert |ps| == 12;
    PopularPrefix(ps, 4);
  }

  /**
   * The page's state: the step, the chosen platform, the two flags, and the
   * timers scheduled but not yet fired (`pendingAuth` ends the connecting
   * phase, `pendingStep` moves to step 3).
   */
  datatype SetupState = SetupState(
    step: int,
    selected: Option<Platform>,
    isAuthenticating: bool,
    isSuccess: bool,
    pendingAuth: nat,
    pendingStep: nat)

  const Start: SetupState := SetupState(1, None, false, false, 0, 0)

  /**
   * What every reachable state satisfies: the step is 1, 2 or 3; at most one
   * timer is pending, the first exactly while connecting and the second only
   * after success; step 3 has none pending; and a platform is chosen whenever
   * the page is past step 1.
   */
  predicate Valid(s: SetupState)
  {
    1 <= s.step <= 3 &&
    s.pendingAuth + s.pendingStep <= 1 &&
    (s.isAuthenticating <==> s.pendingAuth == 1) &&
    (s.pendingStep == 1 ==> s.isSuccess) &&
    (s.step == 3 ==> s.pendingAuth + s.pendingStep == 0) &&
    (s.selected.None? ==> s.step == 1 && s.pendingAuth + s.pendingStep == 0)
  }

  lemma StartValid()
    ensures Valid(Start)
  {
  }

  /** The header title for each step. */
  function Title(s: SetupState): (t: string)
    requires Valid(s)
    ensures s.step == 1 ==> t == "Connect Smart Home Platform"
    ensures s.step == 2 ==> t == "Connect to " + s.selected.value.name
    ensures s.step == 3 ==> t == "Connection Successful"
  {
    if s.step == 1 then "Connect Smart Home Platform"
    else if s.step == 2 then "Connect to " + s.selected.value.name
    else "Connection Successful"
  }

  /** The submit button is disabled while connecting and once connected. */
  predicate SubmitDisabled(s: SetupState)
  {
    s.isAuthenticating || s.isSuccess
  }

  /** The submit button's label. */
  function ButtonLabel(s: SetupState): (text: string)
    ensures s.isAuthenticating ==> text == "Connecting..."
    ensures !s.isAuthenticating && s.isSuccess ==> text == "Connected"
    ensures text == "Connect" <==> !SubmitDisabled(s)
  {
    if s.isAuthenticating then "Connecting..." else if s.isSuccess then "Connected" else "Connect"
  }

  /** `handleSelectPlatform(p)`, offered on step 1: record the platform and go to step 2. */
  function SelectPlatform(s: SetupState, p: Platform): (r: SetupState)
    requires s.step == 1
    ensures r.step == 2 && r.selected == Some(p)
    ensures r.isAuthenticating == s.isAuthenticating && r.isSuccess == s.isSuccess
    ensures r.pendingAuth == s.pendingAuth && r.pendingStep == s.pendingStep
  {
    s.(step := 2, selected := Some(p))
  }

  /**
   * The header's back arrow: on step 1 it leaves the page (`None`), on a
   * later step it goes back one step.
   */
  function HeaderBack(s: SetupState): (r: Option<SetupState>)
    ensures r.None? <==> s.step == 1
    ensures r.Some? ==> r.value.step == s.step - 1 && r.value.(step := s.step) == s
  {
    if s.step == 1 then None else Some(s.(step := s.step - 1))
  }

  /** The form's Back button, offered on step 2: straight to step 1, keeping the platform. */
  function FormBack(s: SetupState): (r: SetupState)
    requires s.step == 2
    ensures r.step == 1 && r.(step := s.step) == s
  {
    s.(step := 1)
  }

  /**
   * Submitting the sign-in form, offered on step 2. Nothing happens unless
   * both required inputs are `filled` and the button is enabled; otherwise
   * `handleAuthenticate` sets the connecting flag and schedules the first
   * timer.
   */
  function Submit(s: SetupState, filled: bool): (r: SetupState)
    requires s.step == 2
    ensures !filled || SubmitDisabled(s) ==> r == s
    ensures filled && !SubmitDisabled(s) ==>
      r.isAuthenticating && !r.isSuccess && r.pendingAuth == s.pendingAuth + 1 && r.step == 2
  {
    if !filled || SubmitDisabled(s) then s
    else s.(isAuthenticating := true, pendingAuth := s.pendingAuth + 1)
  }

  /** The first timer: connecting ends in success and the second timer is scheduled. */
  function AuthTimerFires(s: SetupState): (r: SetupState)
    requires s.pendingAuth > 0
    ensures !r.isAuthenticating && r.isSuccess && r.step == s.step
    ensures r.pendingAuth == s.pendingAuth - 1 && r.pendingStep == s.pendingStep + 1
  {
    s.(isAuthenticating := false, isSuccess := true,
       pendingAuth := s.pendingAuth - 1, pendingStep := s.pendingStep + 1)
  }

  /** The second timer: whatever the page shows, it moves to step 3. */
  function StepTimerFires(s: SetupState): (r: SetupState)
    requires s.pendingStep > 0
    ensures r.step == 3 && r.pendingStep == s.pendingStep - 1
    ensures r.isSuccess == s.isSuccess && r.selected == s.selected
  {
    s.(step := 3, pendingStep := s.pendingStep - 1)
  }

  /**
   * "Connect Another Platform", offered on step 3, as written: the platform is
   * cleared and the page returns to step 1, but `isSuccess` stays set.
   */
  function ConnectAnother(s: SetupState): (r: SetupState)
    requires s.step == 3
    ensures r.step == 1 && r.selected.None? && r.isSuccess == s.isSuccess
  {
    s.(selected := None, step := 1)
  }

  /** "Connect Another Platform" as evidently intended: the success flag is cleared as well. */
  function ConnectAnotherReset(s: SetupState): (r: SetupState)
    requires s.step == 3
    ensures r.step == 1 && r.selected.None? && !r.isSuccess
  {
    s.(selected := None, step := 1, isSuccess := false)
  }

  /** Every handler and timer keeps the page in a valid state, so the step stays in 1..3. */
  lemma EventsKeepValid(s: SetupState, p: Platform, filled: bool)
    requires Valid(s)
    ensures s.step == 1 ==> Valid(SelectPlatform(s, p))
    ensures HeaderBack(s).Some? ==> Valid(HeaderBack(s).value)
    ensures s.step == 2 ==> Valid(FormBack(s)) && Valid(Submit(s, filled))
    ensures s.pendingAuth > 0 ==> Valid(AuthTimerFires(s))
    ensures s.pendingStep > 0 ==> Valid(StepTimerFires(s))
    ensures s.step == 3 ==> Valid(ConnectAnother(s)) && Valid(ConnectAnotherReset(s))
  {
  }

  /**
   * A submit with the button enabled runs in this order: connecting, then
   * connected while still on step 2 with the button disabled, then step 3.
   */
  lemma AuthenticationOrder(s: SetupState)
    requires Valid(s) && s.step == 2 && !SubmitDisabled(s)
    ensures var a := Submit(s, true);
      a.isAuthenticating && !a.isSuccess && a.step == 2 && SubmitDisabled(a) &&
      var b := AuthTimerFires(a);
      !b.isAuthenticating && b.isSuccess && b.step == 2 && SubmitDisabled(b) &&
      var c := StepTimerFires(b);
      c.step == 3 && c.isSuccess && c.pendingAuth + c.pendingStep == 0 && c.selected == s.selected
  {
  }

  /** A full connection of platform `p` from the page's start, ending on step 3. */
  function Connected(p: Platform): (s: SetupState)
    ensures Valid(s) && s.step == 3 && s.selected == Some(p) && s.isSuccess
  {
    StepTimerFires(AuthTimerFires(Submit(SelectPlatform(Start, p), true)))
  }

  /**
   * As written, once set `isSuccess` is never cleared by any handler or timer,
   * so the Connect button stays disabled for the rest of the page's life.
   */
  lemma SuccessNeverCleared(s: SetupState, p: Platform, filled: bool)
    requires s.isSuccess
    ensures s.step == 1 ==> SelectPlatform(s, p).isSuccess
    ensures HeaderBack(s).Some? ==> HeaderBack(s).value.isSuccess
    ensures s.step == 2 ==> FormBack(s).isSuccess && Submit(s, filled) == s
    ensures s.pendingAuth > 0 ==> AuthTimerFires(s).isSuccess
    ensures s.pendingStep > 0 ==> StepTimerFires(s).isSuccess
    ensures s.step == 3 ==> ConnectAnother(s).isSuccess
  {
  }

  /**
   * As written: after connecting one platform and choosing "Connect Another
   * Platform", the second platform's Connect button is disabled and
   * submitting it does nothing.
   */
  lemma SecondConnectBlocked(p: Platform, q: Platform)
    ensures var s := SelectPlatform(ConnectAnother(Connected(p)), q);
      s.step == 2 && SubmitDisabled(s) && Submit(s, true) == s && ButtonLabel(s) == "Connected"
  {
  }

  /** With the flag reset, the second platform can be connected like the first. */
  lemma SecondConnectAllowed(p: Platform, q: Platform)
    ensures var s := SelectPlatform(ConnectAnotherReset(Connected(p)), q);
      s.step == 2 && !SubmitDisabled(s) && ButtonLabel(s) == "Connect" &&
      Valid(s) && Submit(s, true).isAuthenticating
  {
  }

  /** The page's state. */
  class SetupPage {
    var step: int
    var selected: Option<Platform>
    var isAuthenticating: bool
    var isSuccess: bool
    var pendingAuth: nat
    var pendingStep: nat

    function State(): SetupState
      reads this
    {
      SetupState(step, selected, isAuthenticating, isSuccess, pendingAuth, pendingStep)
    }

    constructor ()
      ensures State() == Start
    {
      step, selected, isAuthenticating, isSuccess, pendingAuth, pendingStep := 1, None, false, false, 0, 0;
    }

    method Assign(s: SetupState)
      modifies this
      ensures State() == s
    {
      step, selected, isAuthenticating, isSuccess, pendingAuth, pendingStep :=
        s.step, s.selected, s.isAuthenticating, s.isSuccess, s.pendingAuth, s.pendingStep;
    }

    method HandleSelectPlatform(p: Platform)
      requires step == 1
      modifies this
      ensures State() == SelectPlatform(old(State()), p)
    {
      Assign(SelectPlatform(State(), p));
    }

    /** The header's back arrow; `leaves` when it navigates away from the page instead. */
    method HandleHeaderBack() returns (leaves: bool)
      modifies this
      ensures leaves <==> old(step) == 1
      ensures leaves ==> State() == old(State())
      ensures !leaves ==> State() == HeaderBack(old(State())).value
    {
      leaves := step == 1;
      if !leaves {
        step := step - 1;
      }
    }

    method HandleFormBack()
      requires step == 2
      modifies this
      ensures State() == FormBack(old(State()))
    {
      step := 1;
    }

    method HandleAuthenticate(filled: bool)
      requires step == 2
      modifies this
      ensures State() == Submit(old(State()), filled)
    {
      Assign(Submit(State(), filled));
    }

    method AuthTimer()
      requires pendingAuth > 0
      modifies this
      ensures State() == AuthTimerFires(old(State()))
    {
      Assign(AuthTimerFires(State()));
    }

    method StepTimer()
      requires pendingStep > 0
      modifies this
      ensures State() == StepTimerFires(old(State()))
    {
      Assign(StepTimerFires(State()));
    }

    method HandleConnectAnother()
      requires step == 3
      modifies this
      ensures State() == ConnectAnother(old(State()))
    {
      selected, step := None, 1;
    }

    method HandleConnectAnotherReset()
      requires step == 3
      modifies this
      ensures State() == ConnectAnotherReset(old(State()))
    {
      selected, step, isSuccess := None, 1, false;
    }
  }
}
