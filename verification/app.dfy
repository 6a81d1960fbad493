/** The site-wide dark/light theme and its persisted preference. */
module AppTheme {
  import opened Wrappers

  /** The value `toggleDarkMode` stores under the `theme` key. */
  function ThemeText(dark: bool): (s: string)
    ensures s != []
    ensures s == "dark" <==> dark
  {
    if dark then "dark" else "light"
  }

  /** The restore effect: a stored non-empty value decides the mode, dark only
      for `"dark"`; no value, or an empty one, keeps the current mode. */
  function Restore(current: bool, saved: Option<string>): (dark: bool)
    ensures (saved.None? || saved == Some("")) ==> dark == current
    ensures saved.Some? && saved.value != "" ==> (dark <==> saved.value == "dark")
  {
    if saved.Some? && saved.value != "" then saved.value == "dark" else current
  }

  /** Restoring what a toggle stored gives back the mode it stored. */
  lemma RestoreRoundTrip(current: bool, mode: bool)
    ensures Restore(current, Some(ThemeText(mode))) == mode
  {
  }

  class ThemeState {
    var isDarkMode: bool
    /** The `theme` entry of `localStorage`. */
    var savedTheme: Option<string>

    /** Dark is the initial mode, whatever is stored. */
    constructor(saved: Option<string>)
      ensures isDarkMode && savedTheme == saved
    {
      isDarkMode := true;
      savedTheme := saved;
    }

    /** The mount effect. */
    method RestoreSaved()
      modifies this
      ensures isDarkMode == Restore(old(isDarkMode), savedTheme) && savedTheme == old(savedTheme)
    {
      isDarkMode := Restore(isDarkMode, savedTheme);
    }

    /** `toggleDarkMode`: flip the mode and store it. */
    method ToggleDarkMode()
      modifies this
      ensures isDarkMode == !old(isDarkMode)
      ensures savedTheme == Some(ThemeText(isDarkMode))
      ensures Restore(!isDarkMode, savedTheme) == isDarkMode
    {
      isDarkMode := !isDarkMode;
      savedTheme := Some(ThemeText(isDarkMode));
      RestoreRoundTrip(!isDarkMode, isDarkMode);
    }
  }
}
