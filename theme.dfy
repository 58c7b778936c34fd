/**
 * src/context/ThemeContext.jsx: the light/dark theme. The initial choice and the toggle are
 * pure; the provider keeps the theme, the saved preference in `localStorage` and the
 * document's `data-theme` attribute, which its effect updates after every theme change.
 */
module Theme {
  import opened Wrappers

  const ThemeKey := "theme"
  const OutsideProvider := "useTheme must be used within a ThemeProvider"

  /** The `useState` initialiser (ThemeContext.jsx:6-16): the saved theme, else the system preference. */
  function InitialTheme(saved: Option<string>, prefersDark: bool): (t: string)
    ensures saved.Some? && saved.value != "" ==> t == saved.value
    ensures !(saved.Some? && saved.value != "") ==> t == (if prefersDark then "dark" else "light")
    ensures t != ""
  {
    if saved.Some? && saved.value != "" then saved.value
    else if prefersDark then "dark"
    else "light"
  }

  /** `toggleTheme`'s updater (ThemeContext.jsx:50-52). */
  function Toggle(theme: string): (next: string)
    ensures next != theme && (next == "light" || next == "dark")
  {
    if theme == "light" then "dark" else "light"
  }

  /** Toggling always changes the theme and lands on light or dark; twice is the identity on those two. */
  lemma ToggleProperties(theme: string)
    ensures Toggle(theme) != theme
    ensures Toggle(theme) == "light" || Toggle(theme) == "dark"
    ensures Toggle(theme) == "dark" <==> theme == "light"
    ensures theme == "light" || theme == "dark" ==> Toggle(Toggle(theme)) == theme
    ensures theme != "light" && theme != "dark" ==> Toggle(Toggle(theme)) == "dark"
  {
  }

  /** What the context hands out: the theme (the toggle is the provider's method). */
  datatype Context = Context(theme: string)

  /** `useTheme()` (ThemeContext.jsx:61-67): outside a provider it throws. */
  function UseTheme(context: Option<Context>): (r: Result<Context, string>)
    ensures context.None? <==> r == Failure(OutsideProvider)
    ensures context.Some? ==> r == Success(context.value)
  {
    match context
    case None => Failure(OutsideProvider)
    case Some(c) => Success(c)
  }

  /** `ThemeProvider` with the browser state it touches. */
  class ThemeProvider {
    var theme: string
    var storage: map<string, string>
    var dataTheme: Option<string>

    /** The theme is saved and shown: what the first effect establishes and every later run keeps. */
    predicate Synced()
      reads this
    {
      ThemeKey in storage && storage[ThemeKey] == theme && dataTheme == Some(theme) && theme != ""
    }

    /** The theme effect (ThemeContext.jsx:18-33): show the theme and save it. */
    method ApplyTheme()
      modifies this
      ensures theme == old(theme) && dataTheme == Some(theme) && storage == old(storage)[ThemeKey := theme]
    {
      dataTheme := Some(theme);
      storage := storage[ThemeKey := theme];
    }

    /** Mounting: the initial choice, then the first run of the effect. */
    constructor(storage: map<string, string>, prefersDark: bool)
      ensures theme == InitialTheme(if ThemeKey in storage then Some(storage[ThemeKey]) else None, prefersDark)
      ensures this.storage == storage[ThemeKey := theme] && dataTheme == Some(theme)
      ensures Synced()
    {
      var initial := InitialTheme(if ThemeKey in storage then Some(storage[ThemeKey]) else None, prefersDark);
      theme := initial;
      this.storage := storage[ThemeKey := initial];
      dataTheme := Some(initial);
    }

    /** `toggleTheme()`: the theme flips, and since it changed the effect saves and shows it. */
    method ToggleTheme()
      modifies this
      requires Synced()
      ensures theme == Toggle(old(theme))
      ensures storage == old(storage)[ThemeKey := theme] && dataTheme == Some(theme)
      ensures Synced()
    {
      theme := Toggle(theme);
      ApplyTheme();
    }

    /**
     * The system-preference listener (ThemeContext.jsx:36-48). It only acts when nothing is
     * saved; but the effect has saved the non-empty theme since mounting, so once synced the
     * listener never changes anything. A state update to the current theme does not re-run
     * the effect.
     */
    method SystemChange(matches: bool)
      modifies this
      ensures !old(ThemeKey in storage && storage[ThemeKey] != "") ==> theme == (if matches then "dark" else "light")
      ensures !old(ThemeKey in storage && storage[ThemeKey] != "") && theme != old(theme) ==>
        dataTheme == Some(theme) && storage == old(storage)[ThemeKey := theme]
      ensures theme == old(theme) ==> storage == old(storage) && dataTheme == old(dataTheme)
      ensures old(Synced()) ==> theme == old(theme) && storage == old(storage) && dataTheme == old(dataTheme)
    {
      if !(ThemeKey in storage && storage[ThemeKey] != "") {
        var next := if matches then "dark" else "light";
        if next != theme {
          theme := next;
          ApplyTheme();
        }
      }
    }
  }
}
