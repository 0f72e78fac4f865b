/**
 * The theme provider: the chosen theme, the light or dark theme it resolves
 * to, and whether the mount effect has run, kept in step with storage and
 * the root element's classes.
 */
module ThemeProvider {
  import opened Wrappers
  import opened Globals
  import opened Themes

  const TransitioningClass := "transitioning"

  /** The theme `toggleTheme` chooses: the opposite of the resolved one, never `system`. */
  function Opposite(resolved: Theme): (t: Theme)
    ensures t != System
    ensures resolved != System ==> t != resolved
    ensures t == Dark <==> resolved == Light
  {
    if resolved == Light then Dark else Light
  }

  /** Toggling twice from a resolved theme comes back to it. */
  lemma OppositeTwice(resolved: Theme)
    requires resolved != System
    ensures Opposite(Opposite(resolved)) == resolved
  {
  }

  class Provider {
    const browser: Browser
    /** The `defaultTheme` prop (`system` unless given). */
    const defaultTheme: Theme
    var theme: Theme
    var resolvedTheme: Theme
    var mounted: bool

    /** The first render: the default theme, resolved shown as light, not yet mounted. */
    constructor (browser: Browser, defaultTheme: Theme)
      ensures this.browser == browser && this.defaultTheme == defaultTheme
      ensures theme == defaultTheme && resolvedTheme == Light && !mounted
    {
      this.browser := browser;
      this.defaultTheme := defaultTheme;
      theme := defaultTheme;
      resolvedTheme := Light;
      mounted := false;
    }

    /**
     * The resolved theme is what the chosen theme resolves to now, and with a
     * window the root element shows it.
     */
    ghost predicate Consistent()
      reads this, browser
    {
      && resolvedTheme == ResolveTheme(browser, theme)
      && (browser.hasWindow ==> Applied(browser.rootClasses, resolvedTheme))
    }

    /** The mount effect: the stored theme if valid, else the default; resolved and applied. */
    method Mount()
      modifies this`theme, this`resolvedTheme, this`mounted, browser`rootClasses
      ensures theme == (if GetStoredTheme(browser).Some? then GetStoredTheme(browser).value else defaultTheme)
      ensures mounted && Consistent()
      ensures browser.storage == old(browser.storage)
      ensures browser.rootClasses ==
                if browser.hasWindow then (old(browser.rootClasses) - {LightClass, DarkClass}) + {ThemeName(resolvedTheme)}
                else old(browser.rootClasses)
    {
      var stored := GetStoredTheme(browser);
      var initial := if stored.Some? then stored.value else defaultTheme;
      var resolved := ResolveTheme(browser, initial);
      theme := initial;
      resolvedTheme := resolved;
      ApplyTheme(browser, resolved);
      mounted := true;
    }

    /**
     * `setTheme`: marks the root as transitioning, then records, stores and
     * applies the new theme. It touches `document`, so it needs a window.
     */
    method SetTheme(newTheme: Theme)
      requires browser.hasWindow
      modifies this`theme, this`resolvedTheme, browser`storage, browser`rootClasses
      ensures theme == newTheme && resolvedTheme == ResolveTheme(browser, newTheme)
      ensures browser.storage == old(browser.storage)[ThemeStorageKey := ThemeName(newTheme)]
      ensures GetStoredTheme(browser) == Some(newTheme)
      ensures browser.rootClasses ==
                (old(browser.rootClasses) + {TransitioningClass} - {LightClass, DarkClass}) + {ThemeName(resolvedTheme)}
      ensures TransitioningClass in browser.rootClasses
      ensures Consistent()
    {
      browser.rootClasses := browser.rootClasses + {TransitioningClass};
      var resolved := ResolveTheme(browser, newTheme);
      theme := newTheme;
      resolvedTheme := resolved;
      StoreTheme(browser, newTheme);
      ApplyTheme(browser, resolved);
    }

    /** The timer `setTheme` starts: it removes the transitioning mark and nothing else. */
    method FinishTransition()
      modifies browser`rootClasses
      ensures browser.rootClasses == old(browser.rootClasses) - {TransitioningClass}
      ensures old(Consistent()) ==> Consistent()
    {
      browser.rootClasses := browser.rootClasses - {TransitioningClass};
    }

    /** `toggleTheme`: always an explicit theme, the opposite of the resolved one. */
    method ToggleTheme()
      requires browser.hasWindow
      modifies this`theme, this`resolvedTheme, browser`storage, browser`rootClasses
      ensures theme == Opposite(old(resolvedTheme)) && theme != System
      ensures resolvedTheme == theme
      ensures browser.storage == old(browser.storage)[ThemeStorageKey := ThemeName(theme)]
      ensures GetStoredTheme(browser) == Some(theme)
      ensures browser.rootClasses ==
                (old(browser.rootClasses) + {TransitioningClass} - {LightClass, DarkClass}) + {ThemeName(theme)}
      ensures Consistent()
    {
      SetTheme(Opposite(resolvedTheme));
    }

    /**
     * The colour-scheme listener, registered only while the chosen theme is
     * `system`: the preference changes either way, the resolved theme follows
     * it only then.
     */
    method SystemPreferenceChanged(matches: bool)
      requires browser.hasWindow
      modifies browser`prefersDark, this`resolvedTheme, browser`rootClasses
      ensures browser.prefersDark == matches
      ensures theme == System ==> resolvedTheme == (if matches then Dark else Light)
      ensures theme == System ==>
                browser.rootClasses == (old(browser.rootClasses) - {LightClass, DarkClass}) + {ThemeName(resolvedTheme)}
      ensures theme == System ==> Consistent()
      ensures theme != System ==> resolvedTheme == old(resolvedTheme) && browser.rootClasses == old(browser.rootClasses)
      ensures old(Consistent()) ==> Consistent()
    {
      browser.prefersDark := matches;
      if theme != System {
        return;
      }
      var resolved := if matches then Dark else Light;
      resolvedTheme := resolved;
      ApplyTheme(browser, resolved);
    }
  }
}
