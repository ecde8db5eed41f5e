/**
 * The root component's own theme switch: the `theme` storage entry
 * (`'dark'`/`'light'`) and the body class `dark`. It shares the browser with
 * the theme service but none of its keys or classes.
 */
module App {
  import opened Wrappers
  import opened BrowserState
  import Theme

  const ThemeKey := "theme"
  const DarkClass := "dark"

  /** The decision of `setInitialTheme`: a stored `'dark'` is dark, any other
      non-empty stored text light, and a missing or empty entry follows the
      system preference. */
  function InitialDark(stored: Option<string>, prefersDark: bool): (dark: bool)
    ensures stored == Some("dark") ==> dark
    ensures stored.Some? && stored.value != "" && stored.value != "dark" ==> !dark
    ensures stored.None? || stored == Some("") ==> dark == prefersDark
  {
    stored == Some("dark") || ((stored.None? || stored == Some("")) && prefersDark)
  }

  /** `classList.toggle('dark', on)`. */
  function ToggledClasses(classes: set<string>, on: bool): (r: set<string>)
    ensures DarkClass in r <==> on
    ensures r - {DarkClass} == classes - {DarkClass}
  {
    if on then classes + {DarkClass} else classes - {DarkClass}
  }

  /** The text `onThemeToggle` stores. */
  function ThemeText(dark: bool): (t: string)
    ensures t == "dark" <==> dark
    ensures t != ""
  {
    if dark then "dark" else "light"
  }

  /** What `onThemeToggle(b)` stores, `setInitialTheme` reads back as `b`. */
  lemma ToggleThenInitialRoundTrip(storage: map<string, string>, b: bool, prefersDark: bool)
    ensures InitialDark(GetItem(storage[ThemeKey := ThemeText(b)], ThemeKey), prefersDark) == b
  {
  }

  /** The component's writes leave the theme service's entry and classes alone, and
      the service's writes leave the component's entry and class alone. */
  lemma ThemesAreIndependent(storage: map<string, string>, classes: set<string>, b: bool, v: string)
    ensures GetItem(storage[ThemeKey := v], Theme.DarkModeKey) == GetItem(storage, Theme.DarkModeKey)
    ensures (Theme.DarkThemeClass in ToggledClasses(classes, b)) == (Theme.DarkThemeClass in classes)
    ensures (Theme.LightThemeClass in ToggledClasses(classes, b)) == (Theme.LightThemeClass in classes)
    ensures GetItem(storage[Theme.DarkModeKey := v], ThemeKey) == GetItem(storage, ThemeKey)
    ensures (DarkClass in Theme.ThemedClasses(classes, b)) == (DarkClass in classes)
  {
  }

  class AppComponent {
    const browser: Browser

    /** The constructor runs `setInitialTheme`. */
    constructor (browser: Browser)
      modifies browser
      ensures this.browser == browser
      ensures browser.storage == old(browser.storage)
      ensures browser.bodyClasses == ToggledClasses(old(browser.bodyClasses), InitialDark(GetItem(old(browser.storage), ThemeKey), browser.prefersDark))
    {
      this.browser := browser;
      new;
      SetInitialTheme();
    }

    /** `setInitialTheme`: only the `dark` class changes. */
    method SetInitialTheme()
      modifies browser`bodyClasses
      ensures browser.bodyClasses == ToggledClasses(old(browser.bodyClasses), InitialDark(GetItem(browser.storage, ThemeKey), browser.prefersDark))
    {
      var stored := GetItem(browser.storage, ThemeKey);
      var darkMode := stored == Some("dark") || ((stored.None? || stored == Some("")) && browser.prefersDark);
      browser.bodyClasses := ToggledClasses(browser.bodyClasses, darkMode);
    }

    /** `onThemeToggle`: sets the class and stores the choice. */
    method OnThemeToggle(darkMode: bool)
      modifies browser
      ensures browser.bodyClasses == ToggledClasses(old(browser.bodyClasses), darkMode)
      ensures browser.storage == old(browser.storage)[ThemeKey := ThemeText(darkMode)]
    {
      browser.bodyClasses := ToggledClasses(browser.bodyClasses, darkMode);
      browser.storage := browser.storage[ThemeKey := ThemeText(darkMode)];
    }
  }
}
