/** The application's dark/light theme: the initial resolution, the toggle,
    the effect that persists the theme, and the system colour-scheme
    handler. */
module Theme {
  import opened Wrappers
  import opened Storage

  /** The string the persist effect stores for a theme. */
  function ThemeName(dark: bool): (name: string)
    ensures name == "dark" <==> dark
    ensures name == "light" <==> !dark
    ensures name != ""
  {
    if dark then "dark" else "light"
  }

  /** The initial `isDarkMode`: without a window it is light; otherwise a
      non-empty stored string decides (only "dark" means dark), and failing
      that the system preference does. */
  function InitialDarkMode(hasWindow: bool, stored: Option<string>, systemDark: bool): (dark: bool)
    ensures !hasWindow ==> !dark
    ensures hasWindow && stored.Some? && stored.value != "" ==> (dark <==> stored.value == "dark")
    ensures hasWindow && (stored.None? || stored.value == "") ==> dark == systemDark
  {
    if hasWindow then
      if stored.Some? && stored.value != "" then stored.value == "dark" else systemDark
    else
      false
  }

  /** `toggleTheme`. */
  function ToggleTheme(dark: bool): (r: bool)
    ensures r != dark
  {
    !dark
  }

  /** The persist effect: always writes a theme, so the key is set
      afterwards, and it holds "dark" exactly when the theme is dark. */
  function PersistTheme(dark: bool, s: Store): (s': Store)
    ensures ThemeIsSet(s')
    ensures s'.theme == Some("dark") <==> dark
    ensures s'.theme == Some("light") <==> !dark
    ensures s'.history == s.history
  {
    WriteTheme(s, ThemeName(dark))
  }

  /** The `change` handler of the colour-scheme query: follow the system only
      while no theme is stored. */
  function OnSystemChange(dark: bool, s: Store, matches: bool): (r: bool)
    ensures ThemeIsSet(s) ==> r == dark
    ensures !ThemeIsSet(s) ==> r == matches
  {
    if !ThemeIsSet(s) then matches else dark
  }

  /** Any stored theme other than "dark" (including "light" and garbage)
      resolves to light; only an empty string counts as absent. */
  lemma OtherStoredValuesAreLight(stored: string, systemDark: bool)
    requires stored != "" && stored != "dark"
    ensures !InitialDarkMode(true, Some(stored), systemDark)
  {
  }

  /** Toggling twice restores the theme. */
  lemma ToggleTwice(dark: bool)
    ensures ToggleTheme(ToggleTheme(dark)) == dark
  {
  }

  /** Reloading the page after the persist effect restores the same theme,
      whatever the system preference is then. */
  lemma PersistThenResolve(dark: bool, s: Store, systemDark: bool)
    ensures InitialDarkMode(true, PersistTheme(dark, s).theme, systemDark) == dark
  {
  }

  /** The theme together with the storage area. */
  datatype App = App(isDarkMode: bool, store: Store)

  /** The events that can change the theme after mount. */
  datatype ThemeEvent = ToggleClicked | SystemChanged(matches: bool)

  /** The stored theme is the persisted form of the current one. */
  predicate Pinned(a: App) {
    a.store.theme == Some(ThemeName(a.isDarkMode))
  }

  /** Mounting in a browser: resolve the initial theme, then the persist
      effect runs once. */
  function MountApp(s: Store, systemDark: bool): (a: App)
    ensures Pinned(a)
    ensures a.isDarkMode == InitialDarkMode(true, s.theme, systemDark)
    ensures a.store.history == s.history
  {
    var dark := InitialDarkMode(true, s.theme, systemDark);
    App(dark, PersistTheme(dark, s))
  }

  /** One event; the persist effect runs again only when `isDarkMode`
      changed. */
  function Step(a: App, e: ThemeEvent): (r: App)
    ensures Pinned(a) ==> Pinned(r)
    ensures r.store.history == a.store.history
    ensures e == ToggleClicked ==> r.isDarkMode == !a.isDarkMode
    ensures e.SystemChanged? ==> r.isDarkMode == OnSystemChange(a.isDarkMode, a.store, e.matches)
    ensures e.SystemChanged? && ThemeIsSet(a.store) ==> r == a
  {
    var dark := match e
      case ToggleClicked => ToggleTheme(a.isDarkMode)
      case SystemChanged(m) => OnSystemChange(a.isDarkMode, a.store, m);
    if dark != a.isDarkMode then App(dark, PersistTheme(dark, a.store)) else a
  }

  function Run(a: App, es: seq<ThemeEvent>): App
    decreases |es|
  {
    if es == [] then a else Run(Step(a, es[0]), es[1..])
  }

  /** How many toggle clicks a run of events contains. */
  function Toggles(es: seq<ThemeEvent>): nat
    decreases |es|
  {
    if es == [] then 0 else (if es[0] == ToggleClicked then 1 else 0) + Toggles(es[1..])
  }

  /** From a pinned state, a run of events keeps the state pinned, leaves
      the history alone, and ends dark exactly when the start was dark and
      the toggles were even, or light and odd: system changes count for
      nothing. */
  lemma {:induction false} RunFromPinned(a: App, es: seq<ThemeEvent>)
    requires Pinned(a)
    ensures Pinned(Run(a, es))
    ensures Run(a, es).store.history == a.store.history
    ensures Run(a, es).isDarkMode == (a.isDarkMode == (Toggles(es) % 2 == 0))
    decreases |es|
  {
    if es != [] {
      var a1 := Step(a, es[0]);
      assert ThemeIsSet(a.store);
      RunFromPinned(a1, es[1..]);
    }
  }

  /** Because the persist effect runs on mount, the system-change handler
      can never alter the theme afterwards, whatever happened since. */
  lemma SystemChangeIgnoredAfterMount(s: Store, systemDark: bool, es: seq<ThemeEvent>, matches: bool)
    ensures var a := Run(MountApp(s, systemDark), es);
      Step(a, SystemChanged(matches)) == a
  {
    RunFromPinned(MountApp(s, systemDark), es);
  }
}
