/**
 * The colour theme (frontend/components/ThemeProvider.tsx): the initial theme from storage or the
 * system preference, toggling, and what applying a theme does to the document and to storage.
 * `localStorage` and `matchMedia` are part of the page state; either may be unavailable, in which
 * case calling it throws.
 */
module Theme {
  import opened Wrappers

  datatype Theme = Light | Dark

  function Name(t: Theme): (r: string)
    ensures r == "light" || r == "dark"
  {
    match t
    case Light => "light"
    case Dark => "dark"
  }

  /**
   * `getPreferredTheme`: a stored "light" or "dark" wins; otherwise dark exactly when the system
   * prefers dark; "light" when reading storage or the media query throws.
   */
  function PreferredTheme(stored: Outcome<Option<string>>, prefersDark: Outcome<bool>): (t: Theme)
    ensures stored == Returns(Some("light")) ==> t == Light
    ensures stored == Returns(Some("dark")) ==> t == Dark
    ensures stored.Throws? ==> t == Light
    ensures stored.Returns? && stored.value != Some("light") && stored.value != Some("dark") ==>
      t == (if prefersDark == Returns(true) then Dark else Light)
  {
    match stored
    case Throws => Light
    case Returns(s) =>
      if s == Some("light") then Light
      else if s == Some("dark") then Dark
      else
        match prefersDark
        case Throws => Light
        case Returns(dark) => if dark then Dark else Light
  }

  /** What a stored theme reads back as: itself, whatever the system prefers. */
  lemma StoredThemeReadsBack(t: Theme, prefersDark: Outcome<bool>)
    ensures PreferredTheme(Returns(Some(Name(t))), prefersDark) == t
  {
  }

  /** The `toggleTheme` updater: light becomes dark, anything else light. */
  function Toggled(prev: Theme): (next: Theme)
    ensures next != prev
  {
    if prev == Light then Dark else Light
  }

  lemma ToggleTwice(t: Theme)
    ensures Toggled(Toggled(t)) == t
  {
  }

  /** What `useTheme` hands out: the theme and its toggle, as provided. */
  datatype Context = Context(theme: Theme)

  /** `useTheme`: the nearest provider's context, or an error outside any provider. */
  function UseTheme(context: Option<Context>): (r: Outcome<Context>)
    ensures r.Throws? <==> context.None?
    ensures r.Returns? ==> r.value == context.value
  {
    match context
    case None => Throws
    case Some(c) => Returns(c)
  }

  /** The page the provider runs in, and the provider's own `theme` state. */
  class Page {
    const storageAvailable: bool
    const mediaQuery: Outcome<bool>
    var storedTheme: Option<string>
    var darkClass: bool
    var colorScheme: string
    var theme: Option<Theme>

    constructor (storageAvailable: bool, storedTheme: Option<string>, mediaQuery: Outcome<bool>)
      ensures this.storageAvailable == storageAvailable && this.mediaQuery == mediaQuery
      ensures this.storedTheme == storedTheme && !darkClass && colorScheme == "" && theme.None?
    {
      this.storageAvailable := storageAvailable;
      this.mediaQuery := mediaQuery;
      this.storedTheme := storedTheme;
      darkClass := false;
      colorScheme := "";
      theme := None;
    }

    /** `localStorage.getItem("theme")`. */
    function ReadStorage(): Outcome<Option<string>>
      reads this
    {
      if storageAvailable then Returns(storedTheme) else Throws
    }

    /** The provider renders its children only once a theme is chosen. */
    predicate RendersChildren()
      reads this
    {
      theme.Some?
    }

    /** `applyTheme`: the `dark` class and colour scheme follow the theme, which is saved when storage works. */
    method ApplyTheme(t: Theme)
      modifies this
      ensures darkClass == (t == Dark) && colorScheme == Name(t)
      ensures storedTheme == if storageAvailable then Some(Name(t)) else old(storedTheme)
      ensures theme == old(theme)
    {
      darkClass := t == Dark;
      colorScheme := Name(t);
      if storageAvailable {
        storedTheme := Some(Name(t));
      }
    }

    /** The mount effect: choose the preferred theme, hold it, and apply it. */
    method Mount()
      modifies this
      ensures theme == Some(PreferredTheme(old(ReadStorage()), mediaQuery))
      ensures RendersChildren()
      ensures darkClass == (theme.value == Dark) && colorScheme == Name(theme.value)
      ensures storageAvailable ==> storedTheme == Some(Name(theme.value))
    {
      var initial := PreferredTheme(ReadStorage(), mediaQuery);
      theme := Some(initial);
      ApplyTheme(initial);
    }

    /** A click on the toggle, then the `[theme]` effect that applies the new theme. */
    method ToggleTheme()
      requires RendersChildren()
      modifies this
      ensures theme == Some(Toggled(old(theme).value))
      ensures darkClass == (theme.value == Dark) && colorScheme == Name(theme.value)
      ensures storedTheme == if storageAvailable then Some(Name(theme.value)) else old(storedTheme)
    {
      var next := Toggled(theme.value);
      theme := Some(next);
      ApplyTheme(next);
    }
  }

  /** A theme chosen by toggling is the one a later visit starts with, when storage works. */
  method ToggleSurvivesReload(page: Page) returns (reloaded: Page)
    requires page.storageAvailable && page.RendersChildren()
    modifies page
    ensures fresh(reloaded) && reloaded.theme == page.theme
  {
    page.ToggleTheme();
    reloaded := new Page(true, page.storedTheme, page.mediaQuery);
    reloaded.Mount();
    StoredThemeReadsBack(page.theme.value, page.mediaQuery);
  }
}
