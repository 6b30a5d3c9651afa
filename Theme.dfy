/** ThemeToggleController (app.js:605-938): the page theme, the guard that
    ignores toggles while the 300 ms toggle animation runs, and the value
    kept in localStorage under 'portfolio-theme'. The storage is modelled
    by the value it holds; the timer's expiry is an explicit event. */
module Theme {
  import opened Common

  datatype Theme = Light | Dark

  /** The theme as the source spells it in `data-theme` and in storage. */
  function ThemeName(t: Theme): (r: string)
    ensures ParseTheme(r) == Some(t)
  {
    match t
    case Light => "light"
    case Dark => "dark"
  }

  /** The only two strings accepted as a theme (app.js:652, 933). */
  function ParseTheme(s: string): (r: Option<Theme>)
    ensures r == Some(Light) <==> s == "light"
    ensures r == Some(Dark) <==> s == "dark"
    ensures r == None <==> s != "light" && s != "dark"
  {
    if s == "light" then Some(Light)
    else if s == "dark" then Some(Dark)
    else None
  }

  function Flip(t: Theme): (u: Theme)
    ensures u != t
  {
    if t == Dark then Light else Dark
  }

  /** loadThemePreference (app.js:649-666). `saved` is what
      `localStorage.getItem` returned, `None` when there was no entry or
      reading the storage threw. Only a saved "dark" gives the dark theme;
      everything else falls back to light. */
  function LoadThemePreference(saved: Option<string>): (t: Theme)
    ensures t == Dark <==> saved == Some("dark")
    ensures saved.Some? && ParseTheme(saved.value).Some? ==> t == ParseTheme(saved.value).value
  {
    if saved.Some? && ParseTheme(saved.value).Some? then ParseTheme(saved.value).value else Light
  }

  /** The controller's observable state: `currentTheme`, `isToggling` and
      the stored preference. */
  datatype ThemeState = ThemeState(theme: Theme, toggling: bool, stored: Option<string>)

  /** A click or Enter/Space on the button, the expiry of the toggle
      animation timer, and a call of `setTheme`. */
  datatype ThemeEvent = Toggle | TimerFires | SetTheme(value: string)

  /** One event. toggleTheme (app.js:708-738) does nothing while a toggle
      is running; otherwise it flips the theme, saves it and starts the
      guard. The timer (app.js:733-738) only lifts the guard. setTheme
      (app.js:932-938) ignores any value but "light" and "dark", and does
      not look at the guard. */
  function Next(s: ThemeState, e: ThemeEvent): (r: ThemeState)
    ensures e == Toggle && s.toggling ==> r == s
    ensures e == Toggle && !s.toggling ==>
              r.theme != s.theme && r.toggling && r.stored == Some(ThemeName(r.theme))
    ensures e == TimerFires ==> r.theme == s.theme && !r.toggling && r.stored == s.stored
    ensures e.SetTheme? && ParseTheme(e.value).None? ==> r == s
    ensures e.SetTheme? && ParseTheme(e.value).Some? ==>
              r.theme == ParseTheme(e.value).value && r.toggling == s.toggling && r.stored == Some(e.value)
  {
    match e
    case Toggle =>
      if s.toggling then s
      else
        var t := Flip(s.theme);
        ThemeState(t, true, Some(ThemeName(t)))
    case TimerFires => s.(toggling := false)
    case SetTheme(v) =>
      match ParseTheme(v)
      case None => s
      case Some(t) => s.(theme := t, stored := Some(v))
  }

  function Run(s: ThemeState, es: seq<ThemeEvent>): ThemeState
    decreases |es|
  {
    if es == [] then s else Run(Next(s, es[0]), es[1..])
  }

  function Toggles(n: nat): (es: seq<ThemeEvent>)
    ensures |es| == n && forall e <- es :: e == Toggle
  {
    if n == 0 then [] else [Toggle] + Toggles(n - 1)
  }

  /** While the guard is up, any number of toggles changes nothing. */
  lemma {:induction false} GuardedTogglesIgnored(s: ThemeState, n: nat)
    requires s.toggling
    ensures Run(s, Toggles(n)) == s
    decreases n
  {
    if n > 0 {
      assert Toggles(n)[1..] == Toggles(n - 1);
      GuardedTogglesIgnored(s, n - 1);
    }
  }

  /** A burst of clicks before the timer fires flips the theme once. */
  lemma BurstFlipsOnce(s: ThemeState, n: nat)
    requires !s.toggling && n >= 1
    ensures Run(s, Toggles(n)).theme == Flip(s.theme)
    ensures Run(s, Toggles(n)).toggling
  {
    assert Toggles(n)[1..] == Toggles(n - 1);
    GuardedTogglesIgnored(Next(s, Toggle), n - 1);
  }

  /** Toggle, let the animation finish, toggle again: the theme is back. */
  lemma ToggleTwiceRestores(s: ThemeState)
    requires !s.toggling
    ensures Run(s, [Toggle, TimerFires, Toggle]).theme == s.theme
  {
    assert [Toggle, TimerFires, Toggle][1..] == [TimerFires, Toggle];
    assert [TimerFires, Toggle][1..] == [Toggle];
  }

  /** Reloading the page would restore the current theme. */
  predicate Persisted(s: ThemeState)
  {
    LoadThemePreference(s.stored) == s.theme
  }

  /** Every event keeps the stored preference in step with the theme. */
  lemma {:induction false} RunKeepsPersisted(s: ThemeState, es: seq<ThemeEvent>)
    requires Persisted(s)
    ensures Persisted(Run(s, es))
    decreases |es|
  {
    if es != [] {
      var r := Next(s, es[0]);
      assert Persisted(r) by {
        if es[0].SetTheme? && ParseTheme(es[0].value).Some? {
          assert r.stored == Some(es[0].value);
        }
      }
      RunKeepsPersisted(r, es[1..]);
    }
  }

  /** The state init (app.js:616-637) leaves: light when the button is
      missing (nothing loaded, no listeners); otherwise the saved
      preference, no toggle running. */
  function Initial(buttonFound: bool, saved: Option<string>): (s: ThemeState)
    ensures !s.toggling && s.stored == saved
    ensures !buttonFound ==> s.theme == Light
    ensures buttonFound ==> Persisted(s)
  {
    ThemeState(if buttonFound then LoadThemePreference(saved) else Light, false, saved)
  }

  /** The controller object, its fields updated in place. */
  class ThemeToggle {
    var currentTheme: Theme
    var isToggling: bool
    var stored: Option<string>

    function State(): ThemeState
      reads this
    {
      ThemeState(currentTheme, isToggling, stored)
    }

    constructor (buttonFound: bool, saved: Option<string>)
      ensures State() == Initial(buttonFound, saved)
    {
      currentTheme := Light;
      isToggling := false;
      stored := saved;
      if buttonFound {
        currentTheme := LoadThemePreference(saved);
      }
    }

    method ToggleTheme()
      modifies this
      ensures State() == Next(old(State()), Toggle)
    {
      if isToggling {
        return;
      }
      isToggling := true;
      currentTheme := if currentTheme == Dark then Light else Dark;
      stored := Some(ThemeName(currentTheme));
    }

    /** The body of the 300 ms timeout. */
    method FinishToggle()
      modifies this
      ensures State() == Next(old(State()), TimerFires)
    {
      isToggling := false;
    }

    method SetTheme(theme: string)
      modifies this
      ensures State() == Next(old(State()), ThemeEvent.SetTheme(theme))
    {
      if theme == "light" || theme == "dark" {
        currentTheme := if theme == "dark" then Dark else Light;
        stored := Some(theme);
      }
    }
  }
}
