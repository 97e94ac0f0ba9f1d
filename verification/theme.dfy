/**
 The colour theme of the dashboard page. At mount the theme is taken from
 the `theme` URL parameter, else from the saved preference under
 `finora.theme`, else from the operating system's dark-mode setting; the
 URL is then made to name the theme. Afterwards every change of `dark`
 persists the preference and rewrites the URL, and an operating-system
 change is followed only while no preference is saved.

 The browser's storage and media query are explicit state and parameters
 here: the saved preference is an `Option` (absent, or the stored string)
 and the system setting is a boolean handed to each operation.
 */
module Theme {
  import opened UrlParams

  datatype Option<T> = None | Some(value: T)

  const ThemeParam: string := "theme"

  /** A theme name the page accepts from the URL or from storage. */
  predicate IsMode(s: string)
  {
    s == "dark" || s == "light"
  }

  /** `dark ? "dark" : "light"`. */
  function ModeName(dark: bool): (s: string)
    ensures IsMode(s)
    ensures s == "dark" <==> dark
  {
    if dark then "dark" else "light"
  }

  /** JavaScript truthiness of `localStorage.getItem(...)`: a stored non-empty string. */
  predicate HasPreference(saved: Option<string>)
  {
    saved.Some? && saved.value != ""
  }

  /** The theme chosen at mount from the URL value, the saved preference and
      the system setting (true when the system prefers dark). */
  function ResolveTheme(urlTheme: string, saved: Option<string>, prefersDark: bool): (dark: bool)
    ensures IsMode(urlTheme) ==> (dark <==> urlTheme == "dark")
    ensures !IsMode(urlTheme) && saved.Some? && IsMode(saved.value) ==> (dark <==> saved.value == "dark")
    ensures !IsMode(urlTheme) && !(saved.Some? && IsMode(saved.value)) ==> dark == prefersDark
  {
    var modeFromUrl := if IsMode(urlTheme) then Some(urlTheme) else None;
    var next :=
      if modeFromUrl.Some? then modeFromUrl.value
      else if saved.Some? && IsMode(saved.value) then saved.value
      else ModeName(prefersDark);
    next == "dark"
  }

  /** Reference reading of the priority order: the first candidate that is a
      theme name decides. */
  function FirstMode(candidates: seq<string>): (m: Option<string>)
    ensures m.Some? ==> IsMode(m.value) && m.value in candidates
    ensures m.None? ==> forall i :: 0 <= i < |candidates| ==> !IsMode(candidates[i])
  {
    if candidates == [] then None
    else if IsMode(candidates[0]) then Some(candidates[0])
    else FirstMode(candidates[1..])
  }

  /** The page state the theme rules touch: the `dark` flag, the URL
      parameters, the saved preference, and whether the system-change
      handler was registered at mount. */
  datatype ThemeState = ThemeState(dark: bool, params: Params, saved: Option<string>, listening: bool)

  /** The URL names the current theme. */
  predicate Synced(st: ThemeState)
  {
    ReadParam(st.params, ThemeParam, "") == ModeName(st.dark)
  }

  /** The mount-time effect that resolves the theme: the URL is rewritten
      only when its value was not a theme name. */
  function InitTheme(params: Params, saved: Option<string>, prefersDark: bool): (r: (bool, Params))
    ensures r.0 == ResolveTheme(ReadParam(params, ThemeParam, ""), saved, prefersDark)
    ensures ReadParam(r.1, ThemeParam, "") == ModeName(r.0)
    ensures IsMode(ReadParam(params, ThemeParam, "")) ==> r.1 == params
    ensures forall k :: k != ThemeParam ==> (k in r.1 <==> k in params)
    ensures forall k :: k != ThemeParam && k in params ==> r.1[k] == params[k]
  {
    var initialTheme := ReadParam(params, ThemeParam, "");
    var isDark := ResolveTheme(initialTheme, saved, prefersDark);
    if IsMode(initialTheme) then (isDark, params)
    else (isDark, WriteParam(params, ThemeParam, ModeName(isDark)))
  }

  /** The system-change handler is registered when the URL it reads has no
      `theme` value. */
  predicate RegistersListener(urlAtEffect: Params)
  {
    ReadParam(urlAtEffect, ThemeParam, "") == ""
  }

  /** Mount: the theme is resolved and the URL synced; the registration
      rule is applied to the URL the page was loaded with. */
  function Mount(params: Params, saved: Option<string>, prefersDark: bool): (st: ThemeState)
    ensures Synced(st) && st.saved == saved
    ensures st.dark == ResolveTheme(ReadParam(params, ThemeParam, ""), saved, prefersDark)
    ensures st.listening <==> ThemeParam !in params || params[ThemeParam] == ""
  {
    var (dark, params') := InitTheme(params, saved, prefersDark);
    ThemeState(dark, params', saved, RegistersListener(params))
  }

  /** A change of `dark` after mount. React skips an update to the same
      value; a real change runs the effect that saves the preference and
      rewrites the URL. */
  function SetDark(st: ThemeState, d: bool): (r: ThemeState)
    ensures r.dark == d && r.listening == st.listening
    ensures d == st.dark ==> r == st
    ensures d != st.dark ==> r.saved == Some(ModeName(d)) && r.params == WriteParam(st.params, ThemeParam, ModeName(d))
  {
    if d == st.dark then st
    else st.(dark := d, saved := Some(ModeName(d)), params := WriteParam(st.params, ThemeParam, ModeName(d)))
  }

  /** The header button: flip `dark`. */
  function Toggle(st: ThemeState): (r: ThemeState)
    ensures r.dark == !st.dark
    ensures r.saved == Some(ModeName(r.dark))
    ensures ReadParam(r.params, ThemeParam, "") == ModeName(r.dark)
    ensures forall k :: k != ThemeParam ==> (k in r.params <==> k in st.params)
    ensures forall k :: k != ThemeParam && k in st.params ==> r.params[k] == st.params[k]
  {
    SetDark(st, !st.dark)
  }

  /** A system dark-mode change reaching the page: ignored unless the
      handler was registered and no preference is saved. */
  function OnSystemChange(st: ThemeState, matches: bool): (r: ThemeState)
    ensures !st.listening || HasPreference(st.saved) ==> r == st
    ensures st.listening && !HasPreference(st.saved) ==> r.dark == matches
  {
    if !st.listening then st
    else if HasPreference(st.saved) then st
    else SetDark(st, matches)
  }

  /** The priority order is "first theme name among URL value, saved value,
      system setting". */
  lemma ResolveIsFirstMode(urlTheme: string, saved: Option<string>, prefersDark: bool)
    ensures var stored := if saved.Some? then saved.value else "";
      FirstMode([urlTheme, stored, ModeName(prefersDark)]) == Some(ModeName(ResolveTheme(urlTheme, saved, prefersDark)))
  {
    var stored := if saved.Some? then saved.value else "";
    var c := [urlTheme, stored, ModeName(prefersDark)];
    assert c[1..] == [stored, ModeName(prefersDark)];
    assert c[1..][1..] == [ModeName(prefersDark)];
    if !IsMode(urlTheme) {
      assert FirstMode(c) == FirstMode(c[1..]);
      if !IsMode(stored) {
        assert FirstMode(c[1..]) == FirstMode(c[1..][1..]);
      }
    }
  }

  /** A theme name in the URL decides the theme whatever is saved or preferred. */
  lemma UrlWins(params: Params, saved: Option<string>, prefersDark: bool)
    requires ThemeParam in params && IsMode(params[ThemeParam])
    ensures Mount(params, saved, prefersDark).dark <==> params[ThemeParam] == "dark"
    ensures Mount(params, saved, prefersDark).params == params
    ensures !Mount(params, saved, prefersDark).listening
  {
  }

  /** Mount leaves a state whose reload resolves to the same theme and
      rewrites nothing, whatever the system now prefers. */
  lemma MountStable(params: Params, saved: Option<string>, prefersDark: bool, laterDark: bool)
    ensures var st := Mount(params, saved, prefersDark);
      var again := Mount(st.params, st.saved, laterDark);
      again.dark == st.dark && again.params == st.params
  {
  }

  /** Once the resolving effect has synced the URL, the registration rule
      no longer fires: the URL then always names a theme. */
  lemma NoListenerAfterResolve(params: Params, saved: Option<string>, prefersDark: bool)
    ensures !RegistersListener(InitTheme(params, saved, prefersDark).1)
  {
  }

  /** With nothing saved, a page loaded without a `theme` value follows the
      first system change. */
  lemma FollowsSystemWhenUnset(params: Params, prefersDark: bool, matches: bool)
    requires ThemeParam !in params
    ensures OnSystemChange(Mount(params, None, prefersDark), matches).dark == matches
  {
  }

  /** Every operation after mount keeps the URL naming the theme. */
  lemma SyncedPreserved(st: ThemeState, d: bool, matches: bool)
    requires Synced(st)
    ensures Synced(SetDark(st, d))
    ensures Synced(Toggle(st))
    ensures Synced(OnSystemChange(st, matches))
  {
  }

  /** Two toggles restore the theme and the URL value; the saved preference
      then names that theme. */
  lemma ToggleTwice(st: ThemeState)
    requires Synced(st)
    ensures Toggle(Toggle(st)).dark == st.dark
    ensures ReadParam(Toggle(Toggle(st)).params, ThemeParam, "") == ReadParam(st.params, ThemeParam, "")
    ensures Toggle(Toggle(st)).saved == Some(ModeName(st.dark))
  {
  }

  /** After a toggle the saved preference overrides the system: every later
      system change is ignored. */
  lemma SystemIgnoredAfterToggle(st: ThemeState, matches: bool)
    ensures OnSystemChange(Toggle(st), matches) == Toggle(st)
  {
  }

  /** A system change that is followed also saves the preference, so it is
      the last one followed. */
  lemma SystemFollowedOnce(st: ThemeState, m1: bool, m2: bool)
    requires st.listening && !HasPreference(st.saved) && m1 != st.dark
    ensures OnSystemChange(OnSystemChange(st, m1), m2) == OnSystemChange(st, m1)
  {
  }

  /** Reloading after a toggle keeps the toggled theme, whatever the system
      prefers, and registers no handler. */
  lemma ReloadAfterToggle(st: ThemeState, prefersDark: bool)
    ensures Mount(Toggle(st).params, Toggle(st).saved, prefersDark).dark == Toggle(st).dark
    ensures !Mount(Toggle(st).params, Toggle(st).saved, prefersDark).listening
  {
  }
}
