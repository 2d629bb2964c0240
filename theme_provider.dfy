/** src/Components/Themes/ThemeProvider.tsx: the theme state, its first
    choice, the toggle, and the effects that mirror the theme into
    `localStorage['theme']` and the document element's class list. */
module ThemeProvider {
  import opened Wrappers

  const ThemeClasses: set<string> := {"light", "dark"}

  /** `savedTheme || (prefersDark ? 'dark' : 'light')`: any non-empty stored
      value wins as it is; otherwise the system preference decides. */
  function InitialTheme(saved: Option<string>, prefersDark: bool): (t: string)
    ensures t != ""
    ensures saved.Some? && saved.value != "" ==> t == saved.value
    ensures (saved.None? || saved.value == "") ==> (t == "dark" <==> prefersDark) && t in ThemeClasses
  {
    if saved.Some? && saved.value != "" then saved.value
    else if prefersDark then "dark" else "light"
  }

  /** `prev === 'light' ? 'dark' : 'light'`. */
  function NextTheme(t: string): (r: string)
    ensures r in ThemeClasses && r != t
    // only 'light' leads to dark: any other value, a custom stored theme included, goes to light
    ensures r == "dark" <==> t == "light"
  {
    if t == "light" then "dark" else "light"
  }

  /** Toggling twice from light or dark comes back to the start. */
  lemma ToggleTwice(t: string)
    requires t in ThemeClasses
    ensures NextTheme(NextTheme(t)) == t
  {
  }

  /** ASCII white space, which a `DOMTokenList` token may not contain. */
  predicate IsAsciiSpace(c: char) {
    c == '\t' || c == '\n' || c == '\U{C}' || c == '\r' || c == ' '
  }

  /** A token `classList.add` accepts: an empty one throws a SyntaxError, one
      holding ASCII white space an InvalidCharacterError. */
  predicate ValidToken(t: string) {
    t != "" && forall i :: 0 <= i < |t| ==> !IsAsciiSpace(t[i])
  }

  /** Every theme the toggle or the system preference produces is a valid token. */
  lemma ThemeClassesAreTokens(t: string)
    requires t in ThemeClasses
    ensures ValidToken(t)
  {
    assert t == "light" || t == "dark";
  }

  /** `classList.remove('light', 'dark'); classList.add(theme)`: the class list
      afterwards.  When `add` throws, only the removal has happened. */
  function WithThemeClass(classes: set<string>, theme: string): (c: set<string>)
    ensures ValidToken(theme) ==> theme in c
    ensures c * ThemeClasses <= {theme}
    ensures c - ThemeClasses - {theme} == classes - ThemeClasses - {theme}
    ensures !ValidToken(theme) ==> c == classes - ThemeClasses
  {
    classes - ThemeClasses + if ValidToken(theme) then {theme} else {}
  }

  /** What `useTheme` reads from the context. */
  datatype ThemeContext = ThemeContext(theme: string, mounted: bool)

  const OutsideProvider := "useTheme must be used within ThemeProvider"

  /** `useTheme`: the context when inside a provider, the error otherwise. */
  function UseTheme(context: Option<ThemeContext>): (r: Result<ThemeContext, string>)
    ensures context.None? ==> r == Failure(OutsideProvider)
    ensures context.Some? ==> r == Success(context.value)
  {
    match context
    case None => Failure(OutsideProvider)
    case Some(c) => Success(c)
  }

  class Provider {
    var theme: string
    var mounted: bool
    /** `localStorage.getItem('theme')`. */
    var stored: Option<string>
    /** `document.documentElement.classList`. */
    var classes: set<string>

    /** Once mounted, storage and the document mirror the current theme. */
    ghost predicate Valid()
      reads this
    {
      mounted ==> stored == Some(theme) && theme in classes && classes * ThemeClasses <= {theme}
    }

    /** The first render: light and not mounted; storage and document as the page left them. */
    constructor (stored: Option<string>, classes: set<string>)
      ensures Valid()
      ensures theme == "light" && !mounted && this.stored == stored && this.classes == classes
    {
      theme := "light";
      mounted := false;
      this.stored := stored;
      this.classes := classes;
    }

    /** The mount effect (and the mirror effect it triggers): choose the
        initial theme, write it to the document and to storage, mark mounted.
        A stored value `classList.add` refuses makes the effect throw after
        the removal, before `setTheme`, `setItem` and `setMounted`. */
    method Mount(prefersDark: bool) returns (threw: bool)
      requires Valid() && !mounted
      modifies this
      ensures Valid()
      ensures threw <==> !ValidToken(InitialTheme(old(stored), prefersDark))
      ensures classes == WithThemeClass(old(classes), InitialTheme(old(stored), prefersDark))
      ensures !threw ==> mounted && theme == InitialTheme(old(stored), prefersDark) && stored == Some(theme)
      ensures threw ==> !mounted && theme == old(theme) && stored == old(stored)
    {
      var initial := InitialTheme(stored, prefersDark);
      classes := WithThemeClass(classes, initial);
      threw := !ValidToken(initial);
      if !threw {
        theme := initial;
        stored := Some(initial);
        mounted := true;
      }
    }

    /** `toggleTheme`, followed by the mirror effect, which only acts once mounted. */
    method ToggleTheme()
      requires Valid()
      modifies this
      ensures Valid() && mounted == old(mounted)
      ensures theme == NextTheme(old(theme))
      ensures mounted ==> stored == Some(theme) && classes == WithThemeClass(old(classes), theme)
      ensures !mounted ==> stored == old(stored) && classes == old(classes)
    {
      theme := NextTheme(theme);
      ThemeClassesAreTokens(theme);
      if mounted {
        classes := WithThemeClass(classes, theme);
        stored := Some(theme);
      }
    }
  }
}
