/** The theme preference and resolved theme names shared by the web runtime
    and the DOM sink (src/theme/types.ts). */
module ThemeTypes {

  import opened Wrappers

  /** What the user asked for: follow the system, or force one theme. */
  datatype ThemePreference = PreferSystem | PreferLight | PreferDark

  /** What is actually shown: never 'system'. */
  datatype ResolvedTheme = Light | Dark

  /** The string a preference is persisted as. */
  function PreferenceName(p: ThemePreference): string {
    match p
    case PreferSystem => "system"
    case PreferLight => "light"
    case PreferDark => "dark"
  }

  /** The three strings the runtime accepts back from storage. */
  predicate IsPreferenceName(s: string) {
    s == "light" || s == "dark" || s == "system"
  }

  /** Reads a stored string back; anything but the three exact names is rejected. */
  function ParsePreference(s: string): (r: Option<ThemePreference>)
    ensures r.Some? <==> IsPreferenceName(s)
    ensures r.Some? ==> PreferenceName(r.value) == s
  {
    if s == "light" then Some(PreferLight)
    else if s == "dark" then Some(PreferDark)
    else if s == "system" then Some(PreferSystem)
    else None
  }

  /** Persisting a preference and reading it back gives the same preference. */
  lemma PreferenceNameRoundTrip(p: ThemePreference)
    ensures ParsePreference(PreferenceName(p)) == Some(p)
  {
  }

  /** Distinct preferences are persisted as distinct strings. */
  lemma PreferenceNameInjective(p: ThemePreference, q: ThemePreference)
    ensures PreferenceName(p) == PreferenceName(q) <==> p == q
  {
  }
}
