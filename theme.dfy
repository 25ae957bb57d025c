/**
 * The application-wide light/dark theme: chosen on mount from the saved
 * setting or the system preference, then kept in step with the saved
 * setting and the document's `dark` class whenever it changes.
 */
module Theme {
  import opened Wrappers

  /** The name the theme is saved and published under. */
  function ThemeName(dark: bool): (name: string)
    ensures name == "dark" || name == "light"
    ensures name == "dark" <==> dark
  {
    if dark then "dark" else "light"
  }

  /**
   * The mode chosen on mount: dark when the saved setting says "dark", or
   * when nothing (or an empty string) is saved and the system prefers dark.
   */
  function InitialDark(saved: Option<string>, prefersDark: bool): (dark: bool)
    ensures saved == Some("dark") ==> dark
    ensures saved.Some? && saved.value != "" && saved.value != "dark" ==> !dark
    ensures (saved.None? || saved == Some("")) ==> (dark <==> prefersDark)
  {
    match saved
    case Some(s) => s == "dark" || (s == "" && prefersDark)
    case None => prefersDark
  }

  /** A saved theme wins over the system preference: saving and reloading restores the mode. */
  lemma SavedThemeRestored(dark: bool, prefersDark: bool)
    ensures InitialDark(Some(ThemeName(dark)), prefersDark) == dark
  {
  }

  /**
   * The provider's state. `stored` is the `theme` entry of the browser's
   * local storage, `darkClass` the `dark` class on the document's root.
   */
  class ThemeProvider {
    var isDarkMode: bool
    var mounted: bool
    var stored: Option<string>
    var darkClass: bool

    /** After mounting, the saved setting and the document's class agree with the mode. */
    predicate Valid()
      reads this
    {
      mounted ==> stored == Some(ThemeName(isDarkMode)) && darkClass == isDarkMode
    }

    /** The first render: light and not yet mounted; storage and document as they were. */
    constructor(saved: Option<string>, documentDark: bool)
      ensures !isDarkMode && !mounted
      ensures stored == saved && darkClass == documentDark
      ensures Valid()
    {
      isDarkMode := false;
      mounted := false;
      stored := saved;
      darkClass := documentDark;
    }

    /** `theme`: the published name of the current mode. */
    function Theme(): (name: string)
      reads this
      ensures name == "dark" <==> isDarkMode
    {
      ThemeName(isDarkMode)
    }

    /** The synchronising effect, which runs whenever the mode or the mounted flag changes. */
    method Sync()
      modifies this
      ensures isDarkMode == old(isDarkMode) && mounted == old(mounted)
      ensures mounted ==> stored == Some(ThemeName(isDarkMode)) && darkClass == isDarkMode
      ensures !mounted ==> stored == old(stored) && darkClass == old(darkClass)
    {
      if !mounted {
        return;
      }
      stored := Some(ThemeName(isDarkMode));
      if isDarkMode {
        darkClass := true;
      } else {
        darkClass := false;
      }
    }

    /**
     * The mount effect (reading the saved setting and the system
     * preference), followed by the synchronising effect it triggers.
     */
    method Mount(prefersDark: bool)
      requires !mounted
      modifies this
      ensures mounted && Valid()
      ensures isDarkMode == (old(isDarkMode) || InitialDark(old(stored), prefersDark))
    {
      if InitialDark(stored, prefersDark) {
        isDarkMode := true;
        darkClass := true;
      }
      mounted := true;
      Sync();
    }

    /** `toggleTheme`: the mode flips, and the effect saves and applies it. */
    method ToggleTheme()
      requires Valid()
      modifies this
      ensures isDarkMode == !old(isDarkMode) && mounted == old(mounted)
      ensures Valid()
      ensures !mounted ==> stored == old(stored) && darkClass == old(darkClass)
    {
      isDarkMode := !isDarkMode;
      Sync();
    }

    /** `setTheme`: dark exactly for "dark"; the effect runs only when the mode actually changes. */
    method SetTheme(theme: string)
      requires Valid()
      modifies this
      ensures isDarkMode == (theme == "dark") && mounted == old(mounted)
      ensures Valid()
      ensures old(isDarkMode) == isDarkMode ==> stored == old(stored) && darkClass == old(darkClass)
      ensures !mounted ==> stored == old(stored) && darkClass == old(darkClass)
    {
      var next := theme == "dark";
      if next != isDarkMode {
        isDarkMode := next;
        Sync();
      }
    }
  }

  /** A freshly mounted provider starts in the mode the saved setting and the system preference select. */
  method MountFresh(saved: Option<string>, documentDark: bool, prefersDark: bool) returns (p: ThemeProvider)
    ensures p.isDarkMode == InitialDark(saved, prefersDark)
    ensures p.mounted && p.Valid()
    ensures p.stored == Some(ThemeName(InitialDark(saved, prefersDark)))
  {
    p := new ThemeProvider(saved, documentDark);
    p.Mount(prefersDark);
  }

  /** Toggling twice returns to the same mode, the same saved setting and the same document class, mounted or not. */
  method ToggleTwice(p: ThemeProvider)
    requires p.Valid()
    modifies p
    ensures p.isDarkMode == old(p.isDarkMode) && p.stored == old(p.stored) && p.darkClass == old(p.darkClass)
  {
    p.ToggleTheme();
    p.ToggleTheme();
  }
}
