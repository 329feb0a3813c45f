/**
 * The two-state theme context: light or dark, dark by default, restored from
 * and saved to the "theme" storage entry, and shown as a class and styles on
 * the document body.
 */
module ThemeContext {
  import opened Wrappers
  import opened Css

  datatype Theme = Light | Dark

  function ThemeName(t: Theme): string {
    if t == Light then "light" else "dark"
  }

  const StorageKey: string := "theme"

  /** The mount-time read: only "light" and "dark" are taken; anything else, or nothing, is dark. */
  function LoadTheme(saved: Option<string>): (r: Theme)
    ensures saved == Some("light") ==> r == Light
    ensures saved != Some("light") ==> r == Dark
  {
    match saved
    case Some(s) => if s != "" && (s == "light" || s == "dark") then (if s == "light" then Light else Dark) else Dark
    case None => Dark
  }

  /** A saved theme is restored as it was. */
  lemma LoadSavedTheme(t: Theme)
    ensures LoadTheme(Some(ThemeName(t))) == t
  {
  }

  /** toggleTheme's update function. */
  function Toggle(t: Theme): (r: Theme)
    ensures r != t
  {
    if t == Light then Dark else Light
  }

  lemma ToggleTwice(t: Theme)
    ensures Toggle(Toggle(t)) == t
  {
  }

  function BodyBackground(t: Theme): Gradient {
    if t == Dark then LinearGradient(135, [ColorStop(Hex(0x02, 0x06, 0x17), 0), ColorStop(Hex(0x0f, 0x17, 0x2a), 100)])
    else LinearGradient(135, [ColorStop(Hex(0xfe, 0xfc, 0xe8), 0), ColorStop(Hex(0xff, 0xfd, 0xe7), 100)])
  }

  function BodyColor(t: Theme): Color {
    if t == Dark then Hex(0xff, 0xff, 0xff) else Hex(0x1e, 0x29, 0x3b)
  }

  /** Each theme has its own background and text colour, and the text never matches the background's first stop. */
  lemma BodyStylesPerTheme()
    ensures BodyBackground(Light) != BodyBackground(Dark)
    ensures BodyColor(Light) != BodyColor(Dark)
    ensures forall t :: BodyColor(t) != BodyBackground(t).stops[0].color
  {
  }

  /** What a component reading the context gets. */
  datatype ThemeContextValue = ThemeContextValue(theme: Theme)

  const OutsideProviderError: string := "useTheme must be used within a ThemeProvider"

  /** useTheme: the value of the nearest provider, or an error when there is none. */
  function UseTheme(context: Option<ThemeContextValue>): (r: Result<ThemeContextValue, string>)
    ensures r.Success? <==> context.Some?
    ensures r.Success? ==> r.value == context.value
    ensures r.Failure? ==> r.error == OutsideProviderError
  {
    match context
    case None => Failure(OutsideProviderError)
    case Some(v) => Success(v)
  }

  /** A mounted provider with the storage and the body it writes. */
  class Provider {
    var theme: Theme
    var storage: map<string, string>
    var bodyClasses: set<string>
    var bodyBackground: Gradient
    var bodyColor: Color
    var bodyTransition: seq<TransitionItem>

    /** The body shows the current theme and storage holds it. */
    ghost predicate Valid()
      reads this
    {
      bodyClasses * {"light", "dark"} == {ThemeName(theme)} &&
      StorageKey in storage && storage[StorageKey] == ThemeName(theme) &&
      bodyBackground == BodyBackground(theme) &&
      bodyColor == BodyColor(theme) &&
      bodyTransition == BodyTransition
    }

    function Context(): (v: ThemeContextValue)
      reads this
      ensures v.theme == theme
    {
      ThemeContextValue(theme)
    }

    /**
     * Mounting: the state starts dark; the load effect reads the saved
     * theme, the apply effect then runs for dark (saving "dark"), and runs
     * again when the loaded theme is light.
     */
    constructor (storage: map<string, string>, bodyClasses: set<string>)
      ensures Valid()
      ensures theme == LoadTheme(if StorageKey in storage then Some(storage[StorageKey]) else None)
      ensures this.storage == storage[StorageKey := ThemeName(theme)]
      ensures this.bodyClasses == bodyClasses - {"light", "dark"} + {ThemeName(theme)}
    {
      theme := Dark;
      this.storage := storage;
      this.bodyClasses := bodyClasses;
      bodyBackground := LinearGradient(0, []);
      bodyColor := Hex(0, 0, 0);
      bodyTransition := [];
      new;
      var loaded := LoadTheme(if StorageKey in storage then Some(storage[StorageKey]) else None);
      ApplyTheme();
      if loaded != theme {
        theme := loaded;
        ApplyTheme();
        assert this.storage == storage[StorageKey := ThemeName(theme)];
      }
    }

    /** The effect on every theme change: the body class, the saved entry and the body styles. */
    method ApplyTheme()
      modifies this`bodyClasses, this`storage, this`bodyBackground, this`bodyColor, this`bodyTransition
      ensures Valid()
      ensures bodyClasses == old(bodyClasses) - {"light", "dark"} + {ThemeName(theme)}
      ensures storage == old(storage)[StorageKey := ThemeName(theme)]
    {
      bodyClasses := bodyClasses - {"light", "dark"} + {ThemeName(theme)};
      storage := storage[StorageKey := ThemeName(theme)];
      bodyBackground := BodyBackground(theme);
      bodyColor := BodyColor(theme);
      bodyTransition := BodyTransition;
    }

    /** toggleTheme: the other theme, applied and saved. */
    method ToggleTheme()
      requires Valid()
      modifies this
      ensures Valid() && theme == Toggle(old(theme))
      ensures storage == old(storage)[StorageKey := ThemeName(theme)]
      ensures bodyClasses == old(bodyClasses) - {"light", "dark"} + {ThemeName(theme)}
      ensures bodyBackground == BodyBackground(theme) && bodyColor == BodyColor(theme)
      ensures bodyTransition == BodyTransition
      ensures LoadTheme(Some(storage[StorageKey])) == theme
    {
      theme := Toggle(theme);
      ApplyTheme();
      LoadSavedTheme(theme);
    }
  }
}
