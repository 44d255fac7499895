/**
 * The colour theme: a dark flag read once from the saved preference,
 * written back as 'dark' or 'light' whenever it changes, flipped by the
 * toggle, and selecting one of two fixed palettes.
 */
module ThemeContext {
  import opened Wrappers

  /** The mode a saved preference starts in: dark only for the string 'dark';
      any other string, the empty one included, and no saved value start light. */
  function InitialIsDark(saved: Option<string>): (isDark: bool)
    ensures isDark <==> saved == Some("dark")
  {
    if saved.Some? && saved.value != "" then saved.value == "dark" else false
  }

  /** The string persisted for a mode. */
  function Encode(isDark: bool): (s: string)
    ensures s == "dark" || s == "light"
    ensures s == "dark" <==> isDark
  {
    if isDark then "dark" else "light"
  }

  /** Reading back what was persisted restores the mode. */
  lemma DecodeEncode(isDark: bool)
    ensures InitialIsDark(Some(Encode(isDark))) == isDark
  {
  }

  /** The names of the sixteen colours of a palette. */
  const ColorNames: set<string> :=
    {"primary", "primaryDark", "secondary", "background", "surface", "surfaceLight", "text",
     "textSecondary", "border", "error", "success", "warning", "info", "divider", "hover", "shadow"}

  /** The colours for a mode: the dark palette or the light one. */
  function Palette(isDark: bool): (colors: map<string, string>)
    ensures colors.Keys == ColorNames
  {
    if isDark then
      map["primary" := "#90caf9", "primaryDark" := "#42a5f5", "secondary" := "#ce93d8",
          "background" := "#121212", "surface" := "#1e1e1e", "surfaceLight" := "#2d2d2d",
          "text" := "#ffffff", "textSecondary" := "#b0b0b0", "border" := "#383838",
          "error" := "#f44336", "success" := "#66bb6a", "warning" := "#ffa726",
          "info" := "#29b6f6", "divider" := "#404040", "hover" := "rgba(255, 255, 255, 0.08)",
          "shadow" := "rgba(0, 0, 0, 0.5)"]
    else
      map["primary" := "#1976d2", "primaryDark" := "#1565c0", "secondary" := "#9c27b0",
          "background" := "#fafafa", "surface" := "#ffffff", "surfaceLight" := "#f5f5f5",
          "text" := "#212121", "textSecondary" := "#757575", "border" := "#e0e0e0",
          "error" := "#d32f2f", "success" := "#388e3c", "warning" := "#f57c00",
          "info" := "#0288d1", "divider" := "#e0e0e0", "hover" := "rgba(0, 0, 0, 0.04)",
          "shadow" := "rgba(0, 0, 0, 0.2)"]
  }

  /** Both palettes name the same colours. */
  lemma PalettesShareNames(a: bool, b: bool)
    ensures Palette(a).Keys == Palette(b).Keys
  {
  }

  /** The palette is told apart by its background, so it determines the mode. */
  lemma PaletteDeterminesMode(a: bool, b: bool)
    requires Palette(a) == Palette(b)
    ensures a == b
  {
  }

  /** The value the provider shares: the mode and its palette. */
  datatype Theme = Theme(isDark: bool, colors: map<string, string>)

  /** `useTheme`: the provided theme, or the error thrown outside a provider. */
  datatype ThemeLookup = Provided(theme: Theme) | Thrown(message: string)

  const OutsideProvider := "useTheme must be used within ThemeProvider"

  function UseTheme(context: Option<Theme>): (r: ThemeLookup)
    ensures r.Thrown? <==> context.None?
    ensures r.Thrown? ==> r.message == OutsideProvider
    ensures r.Provided? ==> r.theme == context.value
  {
    match context
    case None => Thrown(OutsideProvider)
    case Some(theme) => Provided(theme)
  }

  class ThemeProvider {
    var isDark: bool
    /** The 'theme' entry of the browser's storage. */
    var saved: Option<string>
    /** The `data-theme` attribute of the document element. */
    var dataTheme: string

    /** The stored entry and the document attribute both say the current mode. */
    predicate Persisted()
      reads this
    {
      saved == Some(Encode(isDark)) && dataTheme == Encode(isDark)
    }

    /** The effect run after mounting and after every change of mode. */
    method Persist()
      modifies this
      ensures isDark == old(isDark) && Persisted()
    {
      saved := Some(Encode(isDark));
      dataTheme := Encode(isDark);
    }

    /** Mounting: the mode comes from the saved entry, and the effect then rewrites it. */
    constructor (stored: Option<string>)
      ensures isDark == InitialIsDark(stored) && Persisted()
    {
      isDark := InitialIsDark(stored);
      saved := Some(Encode(InitialIsDark(stored)));
      dataTheme := Encode(InitialIsDark(stored));
    }

    /** `toggleTheme`, followed by the effect its change of mode triggers. */
    method ToggleTheme()
      modifies this
      ensures isDark == !old(isDark) && Persisted()
    {
      isDark := !isDark;
      Persist();
    }

    /** The theme object handed to the provider's children. */
    function Value(): (t: Theme)
      reads this
      ensures t.isDark == isDark && t.colors == Palette(isDark)
    {
      Theme(isDark, Palette(isDark))
    }
  }

  /** Toggling twice restores the mode, and a reload after any toggle starts in the mode it left. */
  method ToggleTwice(p: ThemeProvider)
    modifies p
    ensures p.isDark == old(p.isDark) && p.Persisted()
    ensures InitialIsDark(p.saved) == p.isDark
  {
    p.ToggleTheme();
    p.ToggleTheme();
    DecodeEncode(p.isDark);
  }

  /** A provider mounted from what another persisted starts in the same mode. */
  lemma ReloadKeepsMode(isDark: bool, saved: Option<string>)
    requires saved == Some(Encode(isDark))
    ensures InitialIsDark(saved) == isDark
  {
    DecodeEncode(isDark);
  }
}
