/**
 * Theme preferences: the three stored values, their whitelist when read back
 * from storage, how `system` resolves to light or dark, and the class the
 * root element carries for the resolved theme.
 */
module Themes {
  import opened Wrappers
  import opened Globals

  datatype Theme = Light | Dark | System

  const ThemeStorageKey := "theme"
  const LightClass := "light"
  const DarkClass := "dark"

  function ThemeName(t: Theme): string {
    match t
    case Light => LightClass
    case Dark => DarkClass
    case System => "system"
  }

  /** The stored-value whitelist: only the three names are themes. */
  function ParseTheme(s: string): (t: Option<Theme>)
    ensures t.Some? <==> s == "light" || s == "dark" || s == "system"
    ensures t.Some? ==> ThemeName(t.value) == s
  {
    if s == "light" then Some(Light)
    else if s == "dark" then Some(Dark)
    else if s == "system" then Some(System)
    else None
  }

  /** Every theme reads back as itself from its name. */
  lemma ParseThemeName(t: Theme)
    ensures ParseTheme(ThemeName(t)) == Some(t)
  {
  }

  /** `getSystemTheme`: light without a window, otherwise what the colour-scheme query reports. */
  function GetSystemTheme(b: Browser): (r: Theme)
    reads b
    ensures r != System
    ensures !b.hasWindow ==> r == Light
    ensures b.hasWindow ==> (r == Dark <==> b.prefersDark)
  {
    if !b.hasWindow then Light
    else if b.prefersDark then Dark else Light
  }

  /** `getStoredTheme`: the stored value when it is one of the three names, otherwise nothing. */
  function GetStoredTheme(b: Browser): (r: Option<Theme>)
    reads b
    ensures r.Some? <==> b.hasWindow && ThemeStorageKey in b.storage && ParseTheme(b.storage[ThemeStorageKey]).Some?
    ensures r.Some? ==> ThemeName(r.value) == b.storage[ThemeStorageKey]
  {
    if b.hasWindow && ThemeStorageKey in b.storage then ParseTheme(b.storage[ThemeStorageKey]) else None
  }

  /** `storeTheme`: writes the name under the theme key; without a window nothing happens. */
  method StoreTheme(b: Browser, t: Theme)
    modifies b`storage
    ensures b.storage == if b.hasWindow then old(b.storage)[ThemeStorageKey := ThemeName(t)] else old(b.storage)
    ensures GetStoredTheme(b) == if b.hasWindow then Some(t) else None
  {
    if !b.hasWindow {
      return;
    }
    b.storage := b.storage[ThemeStorageKey := ThemeName(t)];
    ParseThemeName(t);
  }

  /** `resolveTheme`: never `system`; the identity on light and dark. */
  function ResolveTheme(b: Browser, t: Theme): (r: Theme)
    reads b
    ensures r != System
    ensures t != System ==> r == t
    ensures t == System ==> r == GetSystemTheme(b)
  {
    if t == System then GetSystemTheme(b) else t
  }

  /** Resolving a resolved theme changes nothing. */
  lemma ResolveIsIdempotent(b: Browser, t: Theme)
    ensures ResolveTheme(b, ResolveTheme(b, t)) == ResolveTheme(b, t)
  {
  }

  /** The root classes show `t` and not the other of light and dark. */
  predicate Applied(classes: set<string>, t: Theme)
    requires t != System
  {
    ThemeName(t) in classes && (if t == Light then DarkClass else LightClass) !in classes
  }

  /** `applyTheme`: removes both theme classes, then adds the given one; other classes stay. */
  method ApplyTheme(b: Browser, t: Theme)
    requires t != System
    modifies b`rootClasses
    ensures b.rootClasses == if b.hasWindow then (old(b.rootClasses) - {LightClass, DarkClass}) + {ThemeName(t)} else old(b.rootClasses)
    ensures b.hasWindow ==> Applied(b.rootClasses, t)
  {
    if !b.hasWindow {
      return;
    }
    b.rootClasses := (b.rootClasses - {LightClass, DarkClass}) + {ThemeName(t)};
  }
}
