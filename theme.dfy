/** `ThemeManager`: a light/dark theme kept in `this.theme`, shown through the
    class of `document.body` and the `theme-color` meta tag, and persisted in
    `localStorage` under one key. */
module Theme {
  import opened Wrappers
  import opened Dom

  /** The `localStorage` key the theme is persisted under. */
  const ThemeKey: string := "Davex-theme"
  const Light: string := "light"
  const Dark: string := "dark"
  /** `theme-color` for the dark theme and for every other theme. */
  const DarkColor: string := "#0f172a"
  const LightColor: string := "#6366f1"

  /** `this.theme === 'light' ? 'dark' : 'light'` */
  function Toggled(theme: string): (r: string)
    ensures r == Light || r == Dark
    ensures r == Dark <==> theme == Light
  {
    if theme == Light then Dark else Light
  }

  /** From either of the two themes, toggling twice restores it. */
  lemma ToggleTwiceRestores(theme: string)
    requires theme == Light || theme == Dark
    ensures Toggled(Toggled(theme)) == theme
  {
  }

  /** From any other stored value, the first toggle goes to light, so two
      toggles end on dark. */
  lemma ToggleTwiceFromOtherValue(theme: string)
    requires theme != Light && theme != Dark
    ensures Toggled(theme) == Light && Toggled(Toggled(theme)) == Dark
  {
  }

  /** `k` toggles in a row. */
  function ToggledTimes(theme: string, k: nat): string {
    if k == 0 then theme else Toggled(ToggledTimes(theme, k - 1))
  }

  /** From light or dark, an even number of toggles restores the theme and an
      odd number gives the other one. */
  lemma {:induction false} ToggledTimesParity(theme: string, k: nat)
    requires theme == Light || theme == Dark
    ensures ToggledTimes(theme, k) == if k % 2 == 0 then theme else Toggled(theme)
  {
    if k > 0 {
      ToggledTimesParity(theme, k - 1);
    }
  }

  /** The `theme-color` written for a theme. */
  function MetaColor(theme: string): (c: string)
    ensures c == DarkColor <==> theme == Dark
    ensures c == DarkColor || c == LightColor
  {
    if theme == Dark then DarkColor else LightColor
  }

  /** `localStorage.getItem('Davex-theme') || (prefersDark ? 'dark' : 'light')`:
      a stored non-empty string wins; a missing or empty one gives the system
      preference. */
  function InitialTheme(storage: map<string, string>, prefersDark: bool): (r: string)
    ensures ThemeKey in storage && storage[ThemeKey] != "" ==> r == storage[ThemeKey]
    ensures (ThemeKey !in storage || storage[ThemeKey] == "") ==> (r == Dark <==> prefersDark)
    ensures (ThemeKey !in storage || storage[ThemeKey] == "") ==> (r == Light || r == Dark)
  {
    if ThemeKey in storage && storage[ThemeKey] != "" then storage[ThemeKey]
    else if prefersDark then Dark else Light
  }

  class ThemeManager {
    var theme: string
    const browser: Browser

    /** `new ThemeManager()`: the initial theme, applied at once.
        `prefersDark` is the answer of `matchMedia('(prefers-color-scheme: dark)')`. */
    constructor (browser: Browser, prefersDark: bool)
      modifies browser
      ensures this.browser == browser
      ensures theme == InitialTheme(old(browser.localStorage), prefersDark)
      ensures browser.bodyClass == theme + "-theme"
      ensures browser.localStorage == old(browser.localStorage)[ThemeKey := theme]
      ensures browser.metaThemeColor == if old(browser.metaThemeColor).Some? then Some(MetaColor(theme)) else None
      ensures browser.elements == old(browser.elements)
    {
      this.browser := browser;
      theme := InitialTheme(browser.localStorage, prefersDark);
      new;
      ApplyTheme();
    }

    /** `applyTheme()`: the body class, the persisted value and, when the page
        has the meta tag, its colour. */
    method ApplyTheme()
      modifies browser`bodyClass, browser`localStorage, browser`metaThemeColor
      ensures browser.bodyClass == theme + "-theme"
      ensures browser.localStorage == old(browser.localStorage)[ThemeKey := theme]
      ensures browser.metaThemeColor ==
        if old(browser.metaThemeColor).Some? then Some(MetaColor(theme)) else None
    {
      browser.bodyClass := theme + "-theme";
      browser.localStorage := browser.localStorage[ThemeKey := theme];
      if browser.metaThemeColor.Some? {
        browser.metaThemeColor := Some(if theme == Dark then DarkColor else LightColor);
      }
    }

    /** `toggle()`: flip the theme, then apply and persist it. */
    method Toggle()
      modifies this`theme, browser`bodyClass, browser`localStorage, browser`metaThemeColor
      ensures theme == Toggled(old(theme))
      ensures browser.bodyClass == theme + "-theme"
      ensures browser.localStorage == old(browser.localStorage)[ThemeKey := theme]
      ensures browser.metaThemeColor ==
        if old(browser.metaThemeColor).Some? then Some(MetaColor(theme)) else None
    {
      theme := if theme == Light then Dark else Light;
      ApplyTheme();
    }
  }
}
