/**
 * The security settings tab: a settings object of switches and one timeout
 * choice, and the list of signed-in sessions with per-session and
 * "all other devices" sign-out.
 */
module SecuritySettings {
  import Lists
  import Records

  type Record = Records.Record

  /** The settings the tab starts with. */
  const InitialSettings: Record := map[
    "twoFactorAuth" := Records.Bool(false),
    "loginNotifications" := Records.Bool(true),
    "deviceHistory" := Records.Bool(true),
    "sessionTimeout" := Records.Str("30m"),
    "autoLock" := Records.Bool(true),
    "biometricAuth" := Records.Bool(true),
    "guestAccess" := Records.Bool(false)
  ]

  /** The keys the tab's switches toggle. */
  const SwitchKeys: set<string> :=
    {"twoFactorAuth", "loginNotifications", "deviceHistory", "autoLock", "biometricAuth", "guestAccess"}

  /** The settings keep the keys they started with, switches holding booleans and the timeout a string. */
  ghost predicate WellShaped(settings: Record)
  {
    settings.Keys == InitialSettings.Keys &&
    (forall k :: k in SwitchKeys ==> k in settings && settings[k].Bool?) &&
    settings["sessionTimeout"].Str?
  }

  lemma InitialWellShaped()
    ensures WellShaped(InitialSettings)
  {
  }

  /**
   * `handleToggle(k)` on a switch key keeps the shape, and toggling the same
   * switch twice restores the settings.
   */
  lemma ToggleSwitch(settings: Record, k: string)
    requires WellShaped(settings) && k in SwitchKeys
    ensures WellShaped(Records.Toggle(settings, k))
    ensures Records.Toggle(Records.Toggle(settings, k), k) == settings
  {
    Records.ToggleTwice(settings, k);
  }

  /** `handleChange('sessionTimeout', v)` with the drop-down's string keeps the shape and sets only the timeout. */
  lemma ChangeTimeout(settings: Record, v: string)
    requires WellShaped(settings)
    ensures WellShaped(Records.Set(settings, "sessionTimeout", Records.Str(v)))
    ensures forall k :: k in settings && k != "sessionTimeout" ==>
              Records.Set(settings, "sessionTimeout", Records.Str(v))[k] == settings[k]
  {
  }

  datatype Session = Session(
    id: int,
    device: string,
    browser: string,
    location: string,
    ip: string,
    lastActive: string,
    current: bool)

  /** The sessions the tab starts with; the first is the current one. */
  const InitialSessions: seq<Session> := [
    Session(1, "iPhone 13", "Safari", "San Francisco, CA", "192.168.1.1", "Active now", true),
    Session(2, "MacBook Pro", "Chrome", "San Francisco, CA", "192.168.1.2", "2 hours ago", false),
    Session(3, "iPad Air", "Safari", "New York, NY", "192.168.1.3", "3 days ago", false)
  ]

  function NotId(id: int): Session -> bool
  {
    (s: Session) => s.id != id
  }

  function WithId(id: int): Session -> bool
  {
    (s: Session) => s.id == id
  }

  predicate IsCurrent(s: Session) { s.current }

  /**
   * `terminateSession(id)`: every session with that id is removed and the
   * rest keep their order; the current session is not protected here.
   */
  function WithoutSession(sessions: seq<Session>, id: int): (r: seq<Session>)
    ensures forall s :: s in r <==> s in sessions && s.id != id
    ensures |r| == |sessions| - Lists.Count(sessions, WithId(id))
  {
    Lists.FilterPartition(sessions, NotId(id), WithId(id));
    Lists.Filter(sessions, NotId(id))
  }

  /** `terminateAllSessions()`: exactly the current sessions remain, in order. */
  function CurrentOnly(sessions: seq<Session>): (r: seq<Session>)
    ensures forall s :: s in r <==> s in sessions && s.current
    ensures |r| == Lists.Count(sessions, IsCurrent)
  {
    Lists.Filter(sessions, IsCurrent)
  }

  /** Both sign-outs keep the remaining sessions in their order. */
  lemma SignOutsKeepOrder(sessions: seq<Session>, id: int)
    ensures Lists.IsSubsequence(WithoutSession(sessions, id), sessions)
    ensures Lists.IsSubsequence(CurrentOnly(sessions), sessions)
  {
    Lists.FilterIsSubsequence(sessions, NotId(id));
    Lists.FilterIsSubsequence(sessions, IsCurrent);
  }

  /** Signing out all other devices a second time changes nothing. */
  lemma TerminateAllIdempotent(sessions: seq<Session>)
    ensures CurrentOnly(CurrentOnly(sessions)) == CurrentOnly(sessions)
  {
    Lists.FilterIdempotent(sessions, IsCurrent);
  }

  /** "Sign Out All Other Devices" is disabled with at most one session. */
  predicate SignOutAllDisabled(sessions: seq<Session>) { |sessions| <= 1 }

  /** A session gets its own "Sign Out" button only when it is not the current one. */
  predicate SignOutOffered(s: Session) { !s.current }

  /**
   * Signing out through a session's own button (a non-current session) never
   * removes a current session when ids are unique.
   */
  lemma OfferedSignOutKeepsCurrent(sessions: seq<Session>, i: nat)
    requires i < |sessions| && SignOutOffered(sessions[i])
    requires forall j, k :: 0 <= j < k < |sessions| ==> sessions[j].id != sessions[k].id
    ensures forall s :: s in sessions && s.current ==> s in WithoutSession(sessions, sessions[i].id)
  {
    forall s | s in sessions && s.current ensures s.id != sessions[i].id {
      var j :| 0 <= j < |sessions| && sessions[j] == s;
      assert j != i;
    }
  }

  /** From the start, signing out all other devices leaves the current session alone and disables the button. */
  lemma SignOutAllFromStart()
    ensures CurrentOnly(InitialSessions) == [InitialSessions[0]]
    ensures SignOutAllDisabled(CurrentOnly(InitialSessions))
    ensures !SignOutAllDisabled(InitialSessions)
  {
    var s := InitialSessions;
    assert s[1..][1..][1..] == [];
    assert Lists.Filter(s[2..], IsCurrent) == [] by { assert s[2..][1..] == []; }
    assert Lists.Filter(s[1..], IsCurrent) == [] by { assert s[1..][1..] == s[2..]; }
  }

  /** The tab's state. */
  class SecurityTab {
    var settings: Record
    var sessions: seq<Session>

    constructor ()
      ensures settings == InitialSettings && sessions == InitialSessions
    {
      settings, sessions := InitialSettings, InitialSessions;
    }

    /** `handleToggle(k)`: key `k` becomes the negation of its truthiness. */
    method HandleToggle(k: string)
      modifies this
      ensures settings == Records.Toggle(old(settings), k) && sessions == old(sessions)
    {
      settings := Records.Toggle(settings, k);
    }

    /** `handleChange(k, v)`: key `k` becomes `v`. */
    method HandleChange(k: string, v: Records.Value)
      modifies this
      ensures settings == Records.Set(old(settings), k, v) && sessions == old(sessions)
    {
      settings := Records.Set(settings, k, v);
    }

    /** `terminateSession(id)`. */
    method TerminateSession(id: int)
      modifies this
      ensures sessions == WithoutSession(old(sessions), id) && settings == old(settings)
    {
      sessions := WithoutSession(sessions, id);
    }

    /** `terminateAllSessions()`. */
    method TerminateAllSessions()
      modifies this
      ensures sessions == CurrentOnly(old(sessions)) && settings == old(settings)
    {
      sessions := CurrentOnly(sessions);
    }
  }
}
