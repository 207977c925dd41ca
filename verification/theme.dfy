/**
 * Theme settings of lib/theme.ts: the configured default mode and the
 * resolution of a stored preference. The system colour-scheme query is a
 * parameter.
 */
module Theme {
  import opened Outcomes

  datatype ThemeMode = Dark | Light

  datatype ThemeConfig = ThemeConfig(
    productName: string, defaultMode: ThemeMode, primaryColor: string, secondaryColor: string, borderRadius: string)

  /** `themeConfig`. */
  const Config := ThemeConfig("PantyHub", Dark, "#660033", "#330033", "0.3")

  /**
   * `resolveMode(stored)`: a stored mode wins; without one the result is
   * dark whether or not the system prefers dark, since both remaining
   * branches return dark.
   */
  function ResolveMode(stored: Option<ThemeMode>, systemPrefersDark: bool): (m: ThemeMode)
    ensures stored.Some? ==> m == stored.value
    ensures stored.None? ==> m == Dark
  {
    if stored.Some? then stored.value
    else if systemPrefersDark then Dark
    else Dark
  }

  /** The system preference never matters, resolution is idempotent, and an unset mode agrees with the default. */
  lemma ResolveModeFacts(stored: Option<ThemeMode>, a: bool, b: bool)
    ensures ResolveMode(stored, a) == ResolveMode(stored, b)
    ensures ResolveMode(Some(ResolveMode(stored, a)), b) == ResolveMode(stored, a)
    ensures ResolveMode(None, a) == Config.defaultMode
  {
  }
}
