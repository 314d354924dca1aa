/**
 * The light/dark theme switch: the theme it starts in, from the saved
 * choice or the system preference, and the toggle that keeps the
 * document's 'dark' class and the saved theme in step with it.
 *
 * The document element's class list and the saved 'theme' entry are held as
 * fields next to the component's own `darkMode`.
 */
module ThemeToggle {
  import opened Text

  datatype ThemeState = ThemeState(darkMode: bool, classes: set<string>, storedTheme: Option<string>)

  /** The effect's test: saved 'dark', or nothing saved while the system prefers dark. */
  predicate StartsDark(savedTheme: Option<string>, prefersDark: bool) {
    savedTheme == Some("dark") || (!Truthy(savedTheme) && prefersDark)
  }

  /** A saved choice decides on its own; 'light' wins over a dark system preference. */
  lemma SavedThemeOverridesSystem(savedTheme: string, prefersDark: bool)
    requires savedTheme != ""
    ensures StartsDark(Some(savedTheme), prefersDark) <==> savedTheme == "dark"
    ensures StartsDark(Some("light"), true) == false
  {
  }

  /** The effect run on mount; `darkMode` starts false. */
  function Mounted(s: ThemeState, prefersDark: bool): (r: ThemeState)
    requires !s.darkMode
    ensures r.darkMode == StartsDark(s.storedTheme, prefersDark)
    ensures r.classes == if r.darkMode then s.classes + {"dark"} else s.classes
    ensures r.storedTheme == s.storedTheme
  {
    if StartsDark(s.storedTheme, prefersDark) then s.(darkMode := true, classes := s.classes + {"dark"})
    else s
  }

  /** The class list and the saved theme agree with `darkMode`. */
  predicate InStep(s: ThemeState) {
    ("dark" in s.classes <==> s.darkMode) && s.storedTheme == Some(if s.darkMode then "dark" else "light")
  }

  /** `toggleDarkMode`. */
  function Toggled(s: ThemeState): (r: ThemeState)
    ensures r.darkMode == !s.darkMode
    ensures InStep(r)
    ensures r.classes - {"dark"} == s.classes - {"dark"}
  {
    if s.darkMode then ThemeState(false, s.classes - {"dark"}, Some("light"))
    else ThemeState(true, s.classes + {"dark"}, Some("dark"))
  }

  /**
   * Two toggles restore the mode and the class list, and leave the saved
   * theme naming the original mode even when nothing was saved before.
   */
  lemma ToggleTwice(s: ThemeState)
    requires "dark" in s.classes <==> s.darkMode
    ensures Toggled(Toggled(s)).darkMode == s.darkMode
    ensures Toggled(Toggled(s)).classes == s.classes
    ensures Toggled(Toggled(s)).storedTheme == Some(if s.darkMode then "dark" else "light")
  {
    var t := Toggled(Toggled(s));
    if s.darkMode {
      assert t.classes == s.classes - {"dark"} + {"dark"};
    } else {
      assert t.classes == s.classes + {"dark"} - {"dark"};
    }
  }

  /** Once mounted on a page without the class, the page is in step after any toggle and stays so. */
  lemma MountThenToggleInStep(s: ThemeState, prefersDark: bool)
    requires !s.darkMode && "dark" !in s.classes
    ensures "dark" in Mounted(s, prefersDark).classes <==> Mounted(s, prefersDark).darkMode
    ensures InStep(Toggled(Mounted(s, prefersDark)))
    ensures InStep(Toggled(Toggled(Mounted(s, prefersDark))))
  {
  }

  class ThemeSwitch {
    var darkMode: bool
    /** `document.documentElement.classList`. */
    var classes: set<string>
    /** `localStorage.getItem('theme')`. */
    var storedTheme: Option<string>

    function State(): ThemeState
      reads this
    {
      ThemeState(darkMode, classes, storedTheme)
    }

    constructor (pageClasses: set<string>, saved: Option<string>)
      ensures State() == ThemeState(false, pageClasses, saved)
    {
      darkMode := false;
      classes := pageClasses;
      storedTheme := saved;
    }

    /** The mount effect. */
    method Mount(prefersDark: bool)
      requires !darkMode
      modifies this`darkMode, this`classes
      ensures State() == Mounted(old(State()), prefersDark)
    {
      if storedTheme == Some("dark") || (!Truthy(storedTheme) && prefersDark) {
        darkMode := true;
        classes := classes + {"dark"};
      }
    }

    /** `toggleDarkMode`. */
    method ToggleDarkMode()
      modifies this
      ensures State() == Toggled(old(State()))
    {
      if darkMode {
        classes := classes - {"dark"};
        storedTheme := Some("light");
        darkMode := false;
      } else {
        classes := classes + {"dark"};
        storedTheme := Some("dark");
        darkMode := true;
      }
    }
  }
}
