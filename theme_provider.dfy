/**
 * The tri-state theme provider: the user picks light, dark or "system"; the
 * choice is resolved against the ambient colour-scheme preference, persisted
 * under a storage key, and written into the document as a class, a
 * `data-theme` attribute, a table of CSS custom properties, body styles and
 * the mobile theme-colour meta tag.
 */
module ThemeProvider {
  import opened Wrappers
  import opened Css

  datatype Theme = Light | Dark | System

  /** What a theme resolves to: never "system". */
  type Resolved = t: Theme | t != System witness Light

  function ThemeName(t: Theme): string {
    match t
    case Light => "light"
    case Dark => "dark"
    case System => "system"
  }

  /** Accepts exactly the three theme names. */
  function ParseTheme(s: string): (r: Option<Theme>)
    ensures r.Some? ==> ThemeName(r.value) == s
  {
    if s == "light" then Some(Light)
    else if s == "dark" then Some(Dark)
    else if s == "system" then Some(System)
    else None
  }

  lemma ParseThemeName(t: Theme)
    ensures ParseTheme(ThemeName(t)) == Some(t)
  {
  }

  lemma ParseThemeAcceptsOnlyNames(s: string)
    ensures ParseTheme(s).Some? <==> s in {"light", "dark", "system"}
  {
  }

  const DefaultStorageKey: string := "portfolio-theme"
  const DefaultTheme: Theme := System

  /** `getItem`: a missing key reads as null. */
  function Lookup(storage: map<string, string>, key: string): (r: Option<string>)
    ensures r.Some? <==> key in storage
    ensures r.Some? ==> r.value == storage[key]
  {
    if key in storage then Some(storage[key]) else None
  }

  /**
   * The theme after the mount-time read: a stored value replaces the default
   * only when it is one of the three names; a missing value, any other text
   * and a failing read all leave the default.
   */
  function InitialTheme(defaultTheme: Theme, stored: Option<string>, readFails: bool): (r: Theme)
    ensures !readFails && stored.Some? && ParseTheme(stored.value).Some? ==> r == ParseTheme(stored.value).value
    ensures readFails || stored.None? || ParseTheme(stored.value).None? ==> r == defaultTheme
  {
    if readFails then defaultTheme
    else match stored
      case None => defaultTheme
      case Some(s) => if s != "" && ParseTheme(s).Some? then ParseTheme(s).value else defaultTheme
  }

  /** getSystemTheme: the colour-scheme query when there is a window, dark otherwise. */
  function SystemTheme(window: Option<bool>): (r: Resolved)
    ensures window.None? ==> r == Dark
    ensures window.Some? ==> (r == Dark <==> window.value)
  {
    match window
    case None => Dark
    case Some(prefersDark) => if prefersDark then Dark else Light
  }

  /** The resolve rule of updateResolvedTheme, in a browser whose query reports `ambientDark`. */
  function Resolve(theme: Theme, ambientDark: bool): (r: Resolved)
    ensures theme != System ==> r == theme
    ensures theme == System ==> r == SystemTheme(Some(ambientDark))
  {
    if theme == System then SystemTheme(Some(ambientDark)) else theme
  }

  /** A resolved theme is a fixed point: resolving it again, under any preference, changes nothing. */
  lemma ResolveIdempotent(theme: Theme, a: bool, b: bool)
    ensures Resolve(Resolve(theme, a), b) == Resolve(theme, a)
    ensures Resolve(theme, a) != Resolve(theme, b) ==> theme == System
  {
  }

  function BodyBackground(mode: Resolved): Gradient {
    if mode == Light then
      LinearGradient(135, [ColorStop(Hex(0xf8, 0xfa, 0xfc), 0), ColorStop(Hex(0xe2, 0xe8, 0xf0), 50), ColorStop(Hex(0xcb, 0xd5, 0xe1), 100)])
    else
      LinearGradient(135, [ColorStop(Hex(0x02, 0x06, 0x17), 0), ColorStop(Hex(0x0f, 0x17, 0x2a), 50), ColorStop(Hex(0x1e, 0x29, 0x3b), 100)])
  }

  function BodyColor(mode: Resolved): Color {
    if mode == Light then Hex(0x1e, 0x29, 0x3b) else Hex(0xff, 0xff, 0xff)
  }

  function MetaColor(mode: Resolved): Color {
    if mode == Light then Hex(0xf8, 0xfa, 0xfc) else Hex(0x02, 0x06, 0x17)
  }

  /** The meta theme colour is "#f8fafc" in light mode and "#020617" in dark mode. */
  lemma MetaColorText()
    ensures HexText(MetaColor(Light)) == "#f8fafc"
    ensures HexText(MetaColor(Dark)) == "#020617"
  {
  }

  /** The CSS custom properties the provider sets on the document root. */
  datatype Token =
    | BgPrimary | BgSecondary | BgTertiary
    | TextPrimary | TextSecondary | TextAccent
    | BorderColor | ShadowColor
    | BluePrimary | BlueSecondary
    | GradientFrom | GradientTo

  const AllTokens: seq<Token> := [
    BgPrimary, BgSecondary, BgTertiary, TextPrimary, TextSecondary, TextAccent,
    BorderColor, ShadowColor, BluePrimary, BlueSecondary, GradientFrom, GradientTo]

  function TokenName(t: Token): string {
    match t
    case BgPrimary => "--bg-primary"
    case BgSecondary => "--bg-secondary"
    case BgTertiary => "--bg-tertiary"
    case TextPrimary => "--text-primary"
    case TextSecondary => "--text-secondary"
    case TextAccent => "--text-accent"
    case BorderColor => "--border-color"
    case ShadowColor => "--shadow-color"
    case BluePrimary => "--blue-primary"
    case BlueSecondary => "--blue-secondary"
    case GradientFrom => "--gradient-from"
    case GradientTo => "--gradient-to"
  }

  /** The value each mode gives each property. */
  function TokenValue(mode: Resolved, t: Token): Color {
    if mode == Light then
      match t
      case BgPrimary => Hex(0xff, 0xff, 0xff)
      case BgSecondary => Hex(0xf8, 0xfa, 0xfc)
      case BgTertiary => Hex(0xe2, 0xe8, 0xf0)
      case TextPrimary => Hex(0x1e, 0x29, 0x3b)
      case TextSecondary => Hex(0x47, 0x55, 0x69)
      case TextAccent => Hex(0x3b, 0x82, 0xf6)
      case BorderColor => Hex(0xe2, 0xe8, 0xf0)
      case ShadowColor => Rgba(148, 163, 184, 15)
      case BluePrimary => Hex(0x3b, 0x82, 0xf6)
      case BlueSecondary => Hex(0x60, 0xa5, 0xfa)
      case GradientFrom => Hex(0xf8, 0xfa, 0xfc)
      case GradientTo => Hex(0xe2, 0xe8, 0xf0)
    else
      match t
      case BgPrimary => Hex(0x02, 0x06, 0x17)
      case BgSecondary => Hex(0x0f, 0x17, 0x2a)
      case BgTertiary => Hex(0x1e, 0x29, 0x3b)
      case TextPrimary => Hex(0xff, 0xff, 0xff)
      case TextSecondary => Hex(0xcb, 0xd5, 0xe1)
      case TextAccent => Hex(0x60, 0xa5, 0xfa)
      case BorderColor => Hex(0x1e, 0x29, 0x3b)
      case ShadowColor => Rgba(0, 0, 0, 30)
      case BluePrimary => Hex(0x3b, 0x82, 0xf6)
      case BlueSecondary => Hex(0x60, 0xa5, 0xfa)
      case GradientFrom => Hex(0x02, 0x06, 0x17)
      case GradientTo => Hex(0x0f, 0x17, 0x2a)
  }

  lemma TokenListed(t: Token)
    ensures t in AllTokens
  {
    match t
    case BgPrimary => assert AllTokens[0] == t;
    case BgSecondary => assert AllTokens[1] == t;
    case BgTertiary => assert AllTokens[2] == t;
    case TextPrimary => assert AllTokens[3] == t;
    case TextSecondary => assert AllTokens[4] == t;
    case TextAccent => assert AllTokens[5] == t;
    case BorderColor => assert AllTokens[6] == t;
    case ShadowColor => assert AllTokens[7] == t;
    case BluePrimary => assert AllTokens[8] == t;
    case BlueSecondary => assert AllTokens[9] == t;
    case GradientFrom => assert AllTokens[10] == t;
    case GradientTo => assert AllTokens[11] == t;
  }

  /** The twelve properties as the root's style holds them after a mode was applied. */
  function Tokens(mode: Resolved): (r: map<Token, Color>)
    ensures forall t :: t in r && r[t] == TokenValue(mode, t)
  {
    assert forall t :: t in AllTokens by {
      forall t ensures t in AllTokens {
        TokenListed(t);
      }
    }
    map t | t in AllTokens :: TokenValue(mode, t)
  }

  /** Twelve properties, each listed once, each with its own CSS name. */
  lemma TokenNamesDistinct()
    ensures |AllTokens| == 12
    ensures forall t: Token :: t in AllTokens
    ensures forall i, j :: 0 <= i < j < |AllTokens| ==> AllTokens[i] != AllTokens[j]
    ensures forall a: Token, b: Token :: a != b ==> TokenName(a) != TokenName(b)
  {
    forall t: Token ensures t in AllTokens {
      TokenListed(t);
    }
  }

  /** Both modes write the same twelve properties; the two blue accents are shared and every other value differs. */
  lemma TokenTable(a: Resolved, b: Resolved)
    ensures Tokens(a).Keys == Tokens(b).Keys
    ensures TokenValue(a, BluePrimary) == TokenValue(b, BluePrimary) == Hex(0x3b, 0x82, 0xf6)
    ensures TokenValue(a, BlueSecondary) == TokenValue(b, BlueSecondary) == Hex(0x60, 0xa5, 0xfa)
    ensures a != b ==> forall t :: t != BluePrimary && t != BlueSecondary ==> TokenValue(a, t) != TokenValue(b, t)
  {
  }

  /** The meta theme colour is the first stop of the mode's gradient, and differs between the modes. */
  lemma MetaColorIsGradientStart(mode: Resolved)
    ensures MetaColor(mode) == TokenValue(mode, GradientFrom) == BodyBackground(mode).stops[0].color
    ensures MetaColor(Light) != MetaColor(Dark)
  {
  }

  /** What a component reading the context gets. */
  datatype ThemeContextValue = ThemeContextValue(theme: Theme, resolvedTheme: Resolved)

  const OutsideProviderError: string := "useTheme must be used within a ThemeProvider"

  /** useTheme: the value of the nearest provider, or an error when there is none. */
  function UseTheme(context: Option<ThemeContextValue>): (r: Result<ThemeContextValue, string>)
    ensures r.Success? <==> context.Some?
    ensures r.Success? ==> r.value == context.value
    ensures r.Failure? ==> r.error == OutsideProviderError
  {
    match context
    case None => Failure(OutsideProviderError)
    case Some(v) => Success(v)
  }

  /**
   * A mounted provider together with the page state it writes. Storage
   * failures arrive as flags on the operations that touch storage; the
   * colour-scheme query's answer is `ambientDark`.
   */
  class Provider {
    const defaultTheme: Theme
    const storageKey: string
    var theme: Theme
    var resolvedTheme: Resolved
    var ambientDark: bool
    var storage: map<string, string>
    var rootClasses: set<string>
    var rootAttributes: map<string, string>
    var rootTokens: map<Token, Color>
    var bodyTransition: seq<TransitionItem>
    var bodyBackground: Gradient
    var bodyColor: Color
    const metaPresent: bool
    var metaContent: Color
    var mediaListenerAttached: bool

    /** The document shows the resolved mode, and the resolved mode is the current rule applied to the current choice. */
    ghost predicate Valid()
      reads this
    {
      resolvedTheme == Resolve(theme, ambientDark) &&
      rootClasses * {"light", "dark"} == {ThemeName(resolvedTheme)} &&
      "data-theme" in rootAttributes && rootAttributes["data-theme"] == ThemeName(resolvedTheme) &&
      rootTokens == Tokens(resolvedTheme) &&
      bodyTransition == BodyTransition &&
      bodyBackground == BodyBackground(resolvedTheme) &&
      bodyColor == BodyColor(resolvedTheme) &&
      (metaPresent ==> metaContent == MetaColor(resolvedTheme)) &&
      mediaListenerAttached
    }

    function Context(): (v: ThemeContextValue)
      reads this
      ensures v.theme == theme && v.resolvedTheme == resolvedTheme
    {
      ThemeContextValue(theme, resolvedTheme)
    }

    /**
     * Mounting: the state starts at the default theme with "dark" resolved;
     * the read effect schedules the stored theme, the resolve effect runs
     * once for the default, and then again if the stored theme differs.
     * Mounting never writes storage.
     */
    constructor (defaultTheme: Theme, storageKey: string, storage: map<string, string>, readFails: bool,
                 ambientDark: bool, rootClasses: set<string>, rootAttributes: map<string, string>,
                 rootTokens: map<Token, Color>, metaPresent: bool, metaContent: Color)
      ensures Valid()
      ensures theme == InitialTheme(defaultTheme, Lookup(storage, storageKey), readFails)
      ensures this.storage == storage && this.ambientDark == ambientDark
      ensures this.defaultTheme == defaultTheme && this.storageKey == storageKey
      ensures this.rootClasses == rootClasses - {"light", "dark"} + {ThemeName(resolvedTheme)}
    {
      this.defaultTheme := defaultTheme;
      this.storageKey := storageKey;
      theme := defaultTheme;
      resolvedTheme := Dark;
      this.ambientDark := ambientDark;
      this.storage := storage;
      this.rootClasses := rootClasses;
      this.rootAttributes := rootAttributes;
      this.rootTokens := rootTokens;
      bodyTransition := [];
      bodyBackground := LinearGradient(0, []);
      bodyColor := Hex(0, 0, 0);
      this.metaPresent := metaPresent;
      this.metaContent := metaContent;
      mediaListenerAttached := false;
      new;
      var next := InitialTheme(defaultTheme, Lookup(storage, storageKey), readFails);
      ThemeEffect();
      if next != theme {
        ghost var first := ThemeName(resolvedTheme);
        theme := next;
        ThemeEffect();
        RootClassesReapplied(rootClasses, first, ThemeName(resolvedTheme));
      }
    }

    /**
     * updateResolvedTheme: resolve the current choice and write it into the
     * root classes (other classes kept), the `data-theme` attribute, the body
     * styles, the twelve custom properties and the meta tag when there is one.
     */
    method UpdateResolvedTheme()
      modifies this`resolvedTheme, this`rootClasses, this`rootAttributes, this`rootTokens,
               this`bodyTransition, this`bodyBackground, this`bodyColor, this`metaContent
      ensures resolvedTheme == Resolve(theme, ambientDark)
      ensures rootClasses == old(rootClasses) - {"light", "dark"} + {ThemeName(resolvedTheme)}
      ensures rootClasses * {"light", "dark"} == {ThemeName(resolvedTheme)}
      ensures rootAttributes == old(rootAttributes)["data-theme" := ThemeName(resolvedTheme)]
      ensures rootTokens == old(rootTokens) + Tokens(resolvedTheme) == Tokens(resolvedTheme)
      ensures bodyTransition == BodyTransition
      ensures bodyBackground == BodyBackground(resolvedTheme) && bodyColor == BodyColor(resolvedTheme)
      ensures metaContent == if metaPresent then MetaColor(resolvedTheme) else old(metaContent)
    {
      var mode := Resolve(theme, ambientDark);
      resolvedTheme := mode;
      MarkRoot(mode);
      StyleBody(mode);
      SetTokens(mode);
      if metaPresent {
        metaContent := MetaColor(mode);
      }
    }

    /** `classList.remove('light', 'dark')`, `classList.add(mode)` and the `data-theme` attribute. */
    method MarkRoot(mode: Resolved)
      modifies this`rootClasses, this`rootAttributes
      ensures rootClasses == old(rootClasses) - {"light", "dark"} + {ThemeName(mode)}
      ensures rootClasses * {"light", "dark"} == {ThemeName(mode)}
      ensures rootAttributes == old(rootAttributes)["data-theme" := ThemeName(mode)]
    {
      rootClasses := rootClasses - {"light", "dark"} + {ThemeName(mode)};
      rootAttributes := rootAttributes["data-theme" := ThemeName(mode)];
    }

    /** The body's transition, background and text colour. */
    method StyleBody(mode: Resolved)
      modifies this`bodyTransition, this`bodyBackground, this`bodyColor
      ensures bodyTransition == BodyTransition
      ensures bodyBackground == BodyBackground(mode) && bodyColor == BodyColor(mode)
    {
      bodyTransition := BodyTransition;
      bodyBackground := BodyBackground(mode);
      bodyColor := BodyColor(mode);
    }

    /** The twelve `setProperty` calls: every property is overwritten, so no value of another mode remains. */
    method SetTokens(mode: Resolved)
      modifies this`rootTokens
      ensures rootTokens == old(rootTokens) + Tokens(mode) == Tokens(mode)
    {
      rootTokens := rootTokens + Tokens(mode);
      assert rootTokens == Tokens(mode);
    }

    /** The resolve effect re-running after `theme` changed: unsubscribe, resolve, subscribe again. */
    method ThemeEffect()
      modifies this`resolvedTheme, this`rootClasses, this`rootAttributes, this`rootTokens,
               this`bodyTransition, this`bodyBackground, this`bodyColor, this`metaContent,
               this`mediaListenerAttached
      ensures Valid()
      ensures rootClasses == old(rootClasses) - {"light", "dark"} + {ThemeName(resolvedTheme)}
      ensures rootAttributes == old(rootAttributes)["data-theme" := ThemeName(resolvedTheme)]
    {
      mediaListenerAttached := false;
      UpdateResolvedTheme();
      mediaListenerAttached := true;
    }

    /** updateTheme: the choice becomes `t` even when the storage write fails. */
    method SetTheme(t: Theme, writeFails: bool)
      requires Valid()
      modifies this
      ensures Valid() && theme == t && ambientDark == old(ambientDark)
      ensures storage == if writeFails then old(storage) else old(storage)[storageKey := ThemeName(t)]
      ensures resolvedTheme == Resolve(t, ambientDark)
      ensures rootClasses == old(rootClasses) - {"light", "dark"} + {ThemeName(resolvedTheme)}
      ensures rootAttributes == old(rootAttributes)["data-theme" := ThemeName(resolvedTheme)]
      ensures t == old(theme) ==>
        resolvedTheme == old(resolvedTheme) && rootClasses == old(rootClasses) &&
        rootAttributes == old(rootAttributes) && rootTokens == old(rootTokens) &&
        bodyTransition == old(bodyTransition) && bodyBackground == old(bodyBackground) &&
        bodyColor == old(bodyColor) && metaContent == old(metaContent)
    {
      var changed := t != theme;
      theme := t;
      if !writeFails {
        storage := storage[storageKey := ThemeName(t)];
      }
      if changed {
        ThemeEffect();
      } else {
        ThemeClassesStable(rootClasses, ThemeName(resolvedTheme));
        assert rootAttributes["data-theme" := ThemeName(resolvedTheme)] == rootAttributes;
      }
    }

    /**
     * The colour-scheme preference changes. The listener re-resolves only
     * while the choice is "system"; otherwise the document is left as it is.
     */
    method AmbientChange(prefersDark: bool)
      requires Valid()
      modifies this
      ensures Valid() && ambientDark == prefersDark
      ensures theme == old(theme) && storage == old(storage) && mediaListenerAttached == old(mediaListenerAttached)
      ensures rootClasses == old(rootClasses) - {"light", "dark"} + {ThemeName(resolvedTheme)}
      ensures rootAttributes == old(rootAttributes)["data-theme" := ThemeName(resolvedTheme)]
      ensures old(theme) != System ==>
        resolvedTheme == old(resolvedTheme) && rootClasses == old(rootClasses) &&
        rootAttributes == old(rootAttributes) && rootTokens == old(rootTokens) &&
        bodyTransition == old(bodyTransition) && bodyBackground == old(bodyBackground) &&
        bodyColor == old(bodyColor) && metaContent == old(metaContent)
    {
      ambientDark := prefersDark;
      if theme == System {
        UpdateResolvedTheme();
      } else {
        ThemeClassesStable(rootClasses, ThemeName(resolvedTheme));
        assert rootAttributes["data-theme" := ThemeName(resolvedTheme)] == rootAttributes;
      }
    }
  }

  /** Applying a second mode after a first one leaves the same classes as applying only the second. */
  lemma RootClassesReapplied(classes: set<string>, first: string, second: string)
    requires first in {"light", "dark"}
    ensures classes - {"light", "dark"} + {first} - {"light", "dark"} + {second} ==
            classes - {"light", "dark"} + {second}
  {
  }

  /** When the root already carries exactly one theme class, applying that class again changes nothing. */
  lemma ThemeClassesStable(classes: set<string>, name: string)
    requires classes * {"light", "dark"} == {name}
    ensures classes - {"light", "dark"} + {name} == classes
  {
    assert name in classes;
  }

  /**
   * A provider mounted without props uses the theme "system" and the storage
   * key "portfolio-theme": it keeps "system" unless that key holds a valid
   * name, and then follows the browser's preference.
   */
  lemma DefaultMount(storage: map<string, string>, readFails: bool, ambientDark: bool)
    ensures var t := InitialTheme(DefaultTheme, Lookup(storage, DefaultStorageKey), readFails);
            (readFails || DefaultStorageKey !in storage || ParseTheme(storage[DefaultStorageKey]).None? ==>
               t == System && Resolve(t, ambientDark) == (if ambientDark then Dark else Light)) &&
            (!readFails && DefaultStorageKey in storage && ParseTheme(storage[DefaultStorageKey]).Some? ==>
               t == ParseTheme(storage[DefaultStorageKey]).value)
  {
  }

  /** A choice persisted by updateTheme is what the next mount with working storage starts from. */
  lemma PersistedThemeReloads(defaultTheme: Theme, storage: map<string, string>, key: string, t: Theme)
    ensures InitialTheme(defaultTheme, Lookup(storage[key := ThemeName(t)], key), false) == t
  {
    ParseThemeName(t);
  }
}
