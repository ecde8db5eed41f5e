/**
 * The theme service: a dark-mode flag kept in the `darkMode` storage entry as
 * `'true'`/`'false'` and shown as exactly one of the body classes
 * `dark-theme`/`light-theme`.
 */
module Theme {
  import opened Wrappers
  import opened BrowserState

  const DarkModeKey := "darkMode"
  const DarkThemeClass := "dark-theme"
  const LightThemeClass := "light-theme"

  /** `isDark.toString()`. */
  function BoolText(b: bool): (t: string)
    ensures t == "true" <==> b
  {
    if b then "true" else "false"
  }

  /** The mode `initializeTheme` picks: a saved `'true'` is dark, any other saved
      text light, and with nothing saved the system preference decides. */
  function InitialMode(saved: Option<string>, prefersDark: bool): (dark: bool)
    ensures saved == Some("true") ==> dark
    ensures saved.Some? && saved.value != "true" ==> !dark
    ensures saved.None? ==> dark == prefersDark
  {
    if saved.Some? then saved.value == "true" else prefersDark
  }

  /** The body classes after `setDarkMode(dark)`: one of the two theme classes is
      added and the other removed; no other class is touched. */
  function ThemedClasses(classes: set<string>, dark: bool): (r: set<string>)
    ensures DarkThemeClass in r <==> dark
    ensures LightThemeClass in r <==> !dark
    ensures r - {DarkThemeClass, LightThemeClass} == classes - {DarkThemeClass, LightThemeClass}
  {
    if dark then classes + {DarkThemeClass} - {LightThemeClass}
    else classes + {LightThemeClass} - {DarkThemeClass}
  }

  /** What the service's state is made of: the subject's value, the storage and the
      body classes. */
  datatype ThemeState = ThemeState(dark: bool, storage: map<string, string>, classes: set<string>)

  /** The state `setDarkMode(isDark)` leaves. */
  function AfterSetDarkMode(s: ThemeState, isDark: bool): (t: ThemeState)
    ensures t.dark == isDark
    ensures GetItem(t.storage, DarkModeKey) == Some(BoolText(isDark))
    ensures forall k :: k != DarkModeKey ==> GetItem(t.storage, k) == GetItem(s.storage, k)
    ensures t.classes == ThemedClasses(s.classes, isDark)
  {
    ThemeState(isDark, s.storage[DarkModeKey := BoolText(isDark)], ThemedClasses(s.classes, isDark))
  }

  /** The flag, the stored text and the classes agree. */
  predicate Consistent(s: ThemeState) {
    && GetItem(s.storage, DarkModeKey) == Some(BoolText(s.dark))
    && (DarkThemeClass in s.classes <==> s.dark)
    && (LightThemeClass in s.classes <==> !s.dark)
  }

  /** `setDarkMode` always leaves the state consistent. */
  lemma SetDarkModeIsConsistent(s: ThemeState, isDark: bool)
    ensures Consistent(AfterSetDarkMode(s, isDark))
  {
  }

  /** Setting the mode the state already has changes nothing; in particular
      `setDarkMode(b)` twice is `setDarkMode(b)` once. */
  lemma SetDarkModeIdempotent(s: ThemeState, isDark: bool)
    ensures Consistent(s) && s.dark == isDark ==> AfterSetDarkMode(s, isDark) == s
    ensures AfterSetDarkMode(AfterSetDarkMode(s, isDark), isDark) == AfterSetDarkMode(s, isDark)
  {
    if Consistent(s) && s.dark == isDark {
      assert s.storage[DarkModeKey := BoolText(isDark)] == s.storage;
      assert ThemedClasses(s.classes, isDark) == s.classes;
    }
    var t := AfterSetDarkMode(s, isDark);
    assert t.storage[DarkModeKey := BoolText(isDark)] == t.storage;
    assert ThemedClasses(t.classes, isDark) == t.classes;
  }

  /** Toggling twice from a consistent state gives the same state back. */
  lemma ToggleTwiceRestores(s: ThemeState)
    requires Consistent(s)
    ensures AfterSetDarkMode(AfterSetDarkMode(s, !s.dark), s.dark) == s
  {
    var t := AfterSetDarkMode(AfterSetDarkMode(s, !s.dark), s.dark);
    assert t.storage == s.storage;
    assert t.classes == s.classes;
  }

  /** What `setDarkMode(b)` stores, `initializeTheme` reads back as `b`, whatever the
      system prefers. */
  lemma StoredModeRoundTrip(s: ThemeState, b: bool, prefersDark: bool)
    ensures InitialMode(GetItem(AfterSetDarkMode(s, b).storage, DarkModeKey), prefersDark) == b
  {
  }

  class ThemeService {
    /** The value of the `darkMode` subject. */
    var darkMode: bool
    const browser: Browser

    function State(): ThemeState
      reads this, browser
    {
      ThemeState(darkMode, browser.storage, browser.bodyClasses)
    }

    /** The constructor runs `initializeTheme`. */
    constructor (browser: Browser)
      modifies browser
      ensures this.browser == browser
      ensures State() == AfterSetDarkMode(ThemeState(false, old(browser.storage), old(browser.bodyClasses)),
                                          InitialMode(GetItem(old(browser.storage), DarkModeKey), browser.prefersDark))
      ensures Consistent(State())
    {
      this.browser := browser;
      darkMode := false;
      new;
      InitializeTheme();
    }

    /** `initializeTheme`: the saved mode, else the system preference. */
    method InitializeTheme()
      modifies this`darkMode, browser
      ensures State() == AfterSetDarkMode(old(State()), InitialMode(GetItem(old(browser.storage), DarkModeKey), browser.prefersDark))
    {
      var saved := GetItem(browser.storage, DarkModeKey);
      if saved.Some? {
        SetDarkMode(saved.value == "true");
      } else {
        SetDarkMode(browser.prefersDark);
      }
    }

    /** `setDarkMode`: publishes the flag, stores it, then swaps the body classes. */
    method SetDarkMode(isDark: bool)
      modifies this`darkMode, browser
      ensures State() == AfterSetDarkMode(old(State()), isDark)
      ensures Consistent(State())
    {
      darkMode := isDark;
      browser.storage := browser.storage[DarkModeKey := BoolText(isDark)];
      if isDark {
        browser.bodyClasses := browser.bodyClasses + {DarkThemeClass};
        browser.bodyClasses := browser.bodyClasses - {LightThemeClass};
      } else {
        browser.bodyClasses := browser.bodyClasses + {LightThemeClass};
        browser.bodyClasses := browser.bodyClasses - {DarkThemeClass};
      }
      SetDarkModeIsConsistent(old(State()), isDark);
    }

    /** `toggleDarkMode`. */
    method ToggleDarkMode()
      modifies this`darkMode, browser
      ensures State() == AfterSetDarkMode(old(State()), !old(darkMode))
      ensures darkMode == !old(darkMode)
    {
      SetDarkMode(!darkMode);
    }

    /** `isDarkMode`. */
    method IsDarkMode() returns (dark: bool)
      ensures dark == darkMode
    {
      dark := darkMode;
    }
  }
}
