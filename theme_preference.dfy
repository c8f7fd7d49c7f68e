/** The theme preference: a light/dark switch kept in the platform's store
    under `userTheme` and in the browser's `localStorage` under `theme`,
    read back through a three-level fallback. */
module ThemePreference {
  import opened Common
  import opened Records
  import opened Kv

  const Light := "light"
  const Dark := "dark"

  /** The new theme of `toggleTheme`: light becomes dark, anything else
      becomes light. */
  function Toggled(theme: string): (r: string)
    ensures r == Dark <==> theme == Light
    ensures r == Light <==> theme != Light
  {
    if theme == Light then Dark else Light
  }

  /** `isDark`. */
  predicate IsDark(theme: string) {
    theme == Dark
  }

  /** Toggling twice gives the theme back exactly when it was light or
      dark; any other stored value ends up dark. */
  lemma ToggleTwice(theme: string)
    ensures Toggled(Toggled(theme)) == theme <==> theme == Light || theme == Dark
    ensures theme != Light && theme != Dark ==> Toggled(Toggled(theme)) == Dark
  {
  }

  /** A toggle always flips between dark and not dark, after the first one. */
  lemma ToggleFlipsDark(theme: string)
    ensures IsDark(Toggled(theme)) <==> !IsDark(Toggled(Toggled(theme)))
  {
  }

  /** The `prefers-color-scheme: dark` answer as a theme. */
  function SystemTheme(systemDark: bool): (r: string)
    ensures IsDark(r) <==> systemDark
  {
    if systemDark then Dark else Light
  }

  /** What reading `userTheme` gave: no platform loaded, a read that threw,
      or the stored value (if any). */
  datatype RemoteRead = NoPlatform | ReadFailed | ReadValue(stored: Option<Value>)

  /** A truthy text value. */
  predicate HoldsTheme(v: Option<Value>) {
    v.Some? && v.value.Text? && v.value.text != ""
  }

  /** The theme `loadTheme` settles on. */
  function ResolveTheme(remote: RemoteRead, local: Option<Value>, systemDark: bool): (r: string)
    ensures r != ""
    ensures remote.ReadValue? && HoldsTheme(remote.stored) ==> r == remote.stored.value.text
    ensures remote.ReadFailed? ==> r == SystemTheme(systemDark)
    ensures !remote.ReadFailed? && !(remote.ReadValue? && HoldsTheme(remote.stored)) ==>
      r == if HoldsTheme(local) then local.value.text else SystemTheme(systemDark)
  {
    match remote
    case ReadFailed => SystemTheme(systemDark)
    case ReadValue(stored) =>
      if HoldsTheme(stored) then stored.value.text
      else if HoldsTheme(local) then local.value.text
      else SystemTheme(systemDark)
    case NoPlatform =>
      if HoldsTheme(local) then local.value.text else SystemTheme(systemDark)
  }

  /** A failed remote read ignores the local copy altogether. */
  lemma FailedReadIgnoresLocal(local1: Option<Value>, local2: Option<Value>, systemDark: bool)
    ensures ResolveTheme(ReadFailed, local1, systemDark) == ResolveTheme(ReadFailed, local2, systemDark)
  {
  }

  /** A theme saved to both stores is the theme loaded next time, with or
      without the platform. */
  lemma SavedThemeLoads(theme: string, systemDark: bool)
    requires theme != ""
    ensures ResolveTheme(ReadValue(Some(Text(theme))), Some(Text(theme)), systemDark) == theme
    ensures ResolveTheme(NoPlatform, Some(Text(theme)), systemDark) == theme
  {
  }

  /** When the remote write of a new theme fails, the older remote value
      still wins over the newer local copy at the next load: whatever was
      written locally, a stored remote theme is the one loaded. */
  lemma StaleRemoteWins(older: string, newer: string, systemDark: bool)
    requires older != ""
    ensures ResolveTheme(ReadValue(Some(Text(older))), Some(Text(newer)), systemDark) == older
  {
  }

  class ThemeProvider {
    var theme: string
    var isLoading: bool
    /** `window.puter.kv`. */
    const kv: Store
    /** The browser's `localStorage`. */
    const local: Store

    predicate Valid()
      reads this
    {
      kv != local
    }

    constructor (kv: Store, local: Store)
      requires kv != local
      ensures Valid() && this.kv == kv && this.local == local
      ensures theme == Light && isLoading
    {
      this.kv := kv;
      this.local := local;
      theme := Light;
      isLoading := true;
    }

    /** `loadTheme`. `platform` tells whether `window.puter` is loaded and
        `readOk` whether reading `userTheme` succeeds. */
    method LoadTheme(platform: bool, readOk: bool, systemDark: bool)
      modifies this`theme, this`isLoading
      ensures !isLoading
      ensures var remote := if !platform then NoPlatform
                            else if !readOk then ReadFailed
                            else ReadValue(kv.Lookup(ThemeKey));
        theme == ResolveTheme(remote, local.Lookup(LocalThemeKey), systemDark)
    {
      if platform {
        if !readOk {
          theme := SystemTheme(systemDark);
          isLoading := false;
          return;
        }
        var saved := kv.Lookup(ThemeKey);
        if HoldsTheme(saved) {
          theme := saved.value.text;
          isLoading := false;
          return;
        }
      }
      var localTheme := local.Lookup(LocalThemeKey);
      if HoldsTheme(localTheme) {
        theme := localTheme.value.text;
      } else {
        theme := SystemTheme(systemDark);
      }
      isLoading := false;
    }

    /** `setThemeMode(newTheme)`: show it, write it to the platform when it
        is loaded, and to `localStorage` whether or not that write threw. */
    method SetThemeMode(newTheme: string, platform: bool, writeOk: bool)
      requires Valid()
      modifies this`theme, kv, local
      ensures Valid()
      ensures theme == newTheme
      ensures local.entries == old(local.entries)[LocalThemeKey := Text(newTheme)]
      ensures kv.entries == if platform && writeOk then old(kv.entries)[ThemeKey := Text(newTheme)]
                            else old(kv.entries)
    {
      theme := newTheme;
      if platform && writeOk {
        kv.Put(ThemeKey, Text(newTheme));
      }
      local.Put(LocalThemeKey, Text(newTheme));
    }

    /** `toggleTheme`: set the toggled theme as `setThemeMode` does. */
    method Toggle(platform: bool, writeOk: bool)
      requires Valid()
      modifies this`theme, kv, local
      ensures Valid()
      ensures theme == Toggled(old(theme))
      ensures local.entries == old(local.entries)[LocalThemeKey := Text(theme)]
      ensures kv.entries == if platform && writeOk then old(kv.entries)[ThemeKey := Text(theme)]
                            else old(kv.entries)
    {
      SetThemeMode(Toggled(theme), platform, writeOk);
    }
  }
}
