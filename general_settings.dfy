/**
 * The general settings tab: appearance, language, unit and time-format
 * choices set with `handleChange`, and five switches flipped with
 * `handleToggle`.
 */
module GeneralSettings {
  import Records

  type Record = Records.Record

  /** The settings the tab starts with. */
  const InitialSettings: Record := map[
    "theme" := Records.Str("light"),
    "language" := Records.Str("en"),
    "temperatureUnit" := Records.Str("fahrenheit"),
    "timeFormat" := Records.Str("12h"),
    "notifications" := Records.Bool(true),
    "soundEffects" := Records.Bool(true),
    "autoUpdates" := Records.Bool(true),
    "dataCollection" := Records.Bool(true),
    "locationServices" := Records.Bool(true)
  ]

  /** The keys the tab's buttons and drop-down set to strings. */
  const ChoiceKeys: set<string> := {"theme", "language", "temperatureUnit", "timeFormat"}

  /** The keys the tab's switches toggle. */
  const SwitchKeys: set<string> := {"notifications", "soundEffects", "autoUpdates", "dataCollection", "locationServices"}

  /** The settings keep their keys, the choices holding strings and the switches booleans. */
  ghost predicate WellShaped(settings: Record)
  {
    settings.Keys == ChoiceKeys + SwitchKeys &&
    (forall k :: k in ChoiceKeys ==> k in settings && settings[k].Str?) &&
    (forall k :: k in SwitchKeys ==> k in settings && settings[k].Bool?)
  }

  /** The start: light theme, English, Fahrenheit, 12-hour clock, every switch on. */
  lemma InitialSettingsShape()
    ensures WellShaped(InitialSettings)
    ensures forall k :: k in SwitchKeys ==> InitialSettings[k] == Records.Bool(true)
    ensures Records.Truthy(InitialSettings, "theme")
  {
  }

  /**
   * `handleChange(k, v)` for a choice key and a string keeps the shape and
   * changes no other key.
   */
  lemma ChangeChoice(settings: Record, k: string, v: string)
    requires WellShaped(settings) && k in ChoiceKeys
    ensures WellShaped(Records.Set(settings, k, Records.Str(v)))
    ensures forall other :: other in settings && other != k ==> Records.Set(settings, k, Records.Str(v))[other] == settings[other]
  {
  }

  /**
   * `handleToggle(k)` on a switch keeps the shape, negates only that switch,
   * and a second toggle restores the settings.
   */
  lemma ToggleSwitch(settings: Record, k: string)
    requires WellShaped(settings) && k in SwitchKeys
    ensures WellShaped(Records.Toggle(settings, k))
    ensures Records.Toggle(settings, k)[k] == Records.Bool(!settings[k].b)
    ensures Records.Toggle(Records.Toggle(settings, k), k) == settings
  {
    Records.ToggleTwice(settings, k);
  }

  /** The tab's state. */
  class GeneralTab {
    var settings: Record

    constructor ()
      ensures settings == InitialSettings
    {
      settings := InitialSettings;
    }

    /** `handleChange(k, v)`: key `k` becomes `v`. */
    method HandleChange(k: string, v: Records.Value)
      modifies this
      ensures settings == Records.Set(old(settings), k, v)
    {
      settings := Records.Set(settings, k, v);
    }

    /** `handleToggle(k)`: key `k` becomes the negation of its truthiness. */
    method HandleToggle(k: string)
      modifies this
      ensures settings == Records.Toggle(old(settings), k)
    {
      settings := Records.Toggle(settings, k);
    }
  }
}
