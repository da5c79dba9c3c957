/**
 * The app-wide light/dark scheme (context/ColorSchemeContext.tsx): the
 * provider starts from the system's scheme and `toggleScheme` flips it;
 * without a provider the context's default reports 'dark' and its toggle
 * does nothing. `Appearance.getColorScheme()` is the parameter `system`.
 */
module ColorSchemeContext {
  import opened Options

  /** `ColorScheme = 'light' | 'dark'`: the scheme can be nothing else. */
  datatype ColorScheme = Light | Dark

  /** The provider's initial scheme: 'dark' when the system says 'dark', 'light' for anything else. */
  function SystemScheme(system: Option<string>): (s: ColorScheme)
    ensures s == Dark <==> system == Some("dark")
  {
    if system == Some("dark") then Dark else Light
  }

  /** The updater `toggleScheme` passes to `setScheme`. */
  function Toggled(s: ColorScheme): (t: ColorScheme)
    ensures t != s
  {
    if s == Dark then Light else Dark
  }

  /** Toggling twice gives back the scheme one started from. */
  lemma ToggleTwice(s: ColorScheme)
    ensures Toggled(Toggled(s)) == s
  {
  }

  /** What `useAppColorScheme` gives a component: the scheme and its toggle. */
  class ColorSchemeState {
    /** Whether a `ColorSchemeProvider` is above the component. */
    const hasProvider: bool
    var scheme: ColorScheme

    /** The context's default value, seen without a provider. */
    constructor Default()
      ensures !hasProvider && scheme == Dark
    {
      hasProvider := false;
      scheme := Dark;
    }

    /** `ColorSchemeProvider`'s state at mount. */
    constructor Provider(system: Option<string>)
      ensures hasProvider && scheme == SystemScheme(system)
    {
      hasProvider := true;
      scheme := SystemScheme(system);
    }

    /** `toggleScheme`: flips the scheme under a provider; the default's toggle is a no-op. */
    method ToggleScheme()
      modifies this
      ensures scheme == if hasProvider then Toggled(old(scheme)) else old(scheme)
    {
      if hasProvider {
        scheme := Toggled(scheme);
      }
    }
  }
}
