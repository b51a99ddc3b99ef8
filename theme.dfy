/**
 * The theme service (`ThemeService`): the current theme, the stored
 * preference, the six CSS variables each theme writes on the document root,
 * and the four-theme cycle. A theme is any string here, because a stored
 * preference read back from storage can be any string.
 */
module Theme {
  import opened Wrappers

  /** The themes in cycle order. */
  const Themes: seq<string> := ["dark", "light", "cyberpunk", "matrix"]

  /** The custom properties every palette sets. */
  const Variables: set<string> :=
    {"--primary-color", "--secondary-color", "--bg-dark", "--bg-light", "--text-primary", "--text-secondary"}

  /** The six colours of a palette, in the order the source sets them. */
  datatype Palette = Palette(primary: string, secondary: string, bgDark: string, bgLight: string,
                             textPrimary: string, textSecondary: string)

  const LightPalette := Palette("#0088ff", "#ff0080", "#f0f0f0", "#ffffff", "#1a1a1a", "#666666")
  const CyberpunkPalette := Palette("#ff00ff", "#00ffff", "#1a0033", "#330066", "#ffffff", "#cc99ff")
  const MatrixPalette := Palette("#00ff00", "#008800", "#000000", "#001100", "#00ff00", "#008800")
  const DarkPalette := Palette("#00ff88", "#ff0080", "#0a0a0a", "#1a1a1a", "#ffffff", "#888888")

  /** The palette `applyTheme` picks: light, cyberpunk and matrix by name, dark for everything else. */
  function PaletteOf(theme: string): (p: Palette)
    ensures theme !in ["light", "cyberpunk", "matrix"] ==> p == DarkPalette
  {
    if theme == "light" then LightPalette
    else if theme == "cyberpunk" then CyberpunkPalette
    else if theme == "matrix" then MatrixPalette
    else DarkPalette
  }

  /** The four named themes have four different palettes, so each is told apart on screen. */
  lemma PalettesDiffer()
    ensures forall i, j :: 0 <= i < j < |Themes| ==> PaletteOf(Themes[i]) != PaletteOf(Themes[j])
  {
    assert PaletteOf(Themes[0]) == DarkPalette;
    assert PaletteOf(Themes[1]) == LightPalette;
    assert PaletteOf(Themes[2]) == CyberpunkPalette;
    assert PaletteOf(Themes[3]) == MatrixPalette;
  }

  /** `applyTheme`: the root style with the six variables set from the theme's palette. */
  function Apply(style: map<string, string>, theme: string): (r: map<string, string>)
    ensures r.Keys == style.Keys + Variables
    ensures forall v :: v in style && v !in Variables ==> r[v] == style[v]
    ensures r["--primary-color"] == PaletteOf(theme).primary && r["--secondary-color"] == PaletteOf(theme).secondary
    ensures r["--bg-dark"] == PaletteOf(theme).bgDark && r["--bg-light"] == PaletteOf(theme).bgLight
    ensures r["--text-primary"] == PaletteOf(theme).textPrimary && r["--text-secondary"] == PaletteOf(theme).textSecondary
  {
    var p := PaletteOf(theme);
    style["--primary-color" := p.primary]["--secondary-color" := p.secondary]
         ["--bg-dark" := p.bgDark]["--bg-light" := p.bgLight]
         ["--text-primary" := p.textPrimary]["--text-secondary" := p.textSecondary]
  }

  /** Any theme but light, cyberpunk and matrix is styled exactly as dark. */
  lemma ApplyDefaultsToDark(style: map<string, string>, theme: string)
    requires theme !in ["light", "cyberpunk", "matrix"]
    ensures Apply(style, theme) == Apply(style, "dark")
  {
  }

  /** Applying a theme on top of any earlier one leaves the same variables as applying it alone. */
  lemma ApplyOverrides(style: map<string, string>, first: string, second: string)
    ensures Apply(Apply(style, first), second) == Apply(style, second)
  {
  }

  /** `indexOf`: the first position of `x`, or -1. */
  function IndexOf(s: seq<string>, x: string): (i: int)
    ensures -1 <= i < |s|
    ensures i >= 0 ==> s[i] == x && x !in s[..i]
    ensures i == -1 <==> x !in s
  {
    if |s| == 0 then -1
    else if s[0] == x then 0
    else
      var j := IndexOf(s[1..], x);
      if j == -1 then -1
      else
        assert s[..j + 1] == [s[0]] + s[1..][..j];
        j + 1
  }

  /** The theme `toggleTheme` moves to. */
  function Next(theme: string): (t: string)
    ensures t in Themes
    ensures theme !in Themes ==> t == "dark"
  {
    var i := IndexOf(Themes, theme);
    Themes[(i + 1) % |Themes|]
  }

  /** The cycle: dark, light, cyberpunk, matrix, and back to dark. */
  lemma NextCycles()
    ensures Next("dark") == "light" && Next("light") == "cyberpunk"
    ensures Next("cyberpunk") == "matrix" && Next("matrix") == "dark"
  {
    assert IndexOf(Themes, "dark") == 0;
    assert IndexOf(Themes, "light") == 1;
    assert IndexOf(Themes, "cyberpunk") == 2;
    assert IndexOf(Themes, "matrix") == 3;
  }

  /** Four toggles return to the starting theme; from an unknown theme, one toggle reaches the cycle at dark. */
  lemma FourTogglesReturn(theme: string)
    ensures theme in Themes ==> Next(Next(Next(Next(theme)))) == theme
    ensures theme !in Themes ==> Next(theme) == "dark"
  {
    NextCycles();
  }

  /** The constructor's choice when nothing usable is stored: light from 6 to 17 o'clock, dark otherwise. */
  function HourTheme(hour: int): (t: string)
    ensures t == "light" <==> 6 <= hour < 18
    ensures t == "light" || t == "dark"
  {
    if hour >= 6 && hour < 18 then "light" else "dark"
  }

  /** The service: the subject's current value, the stored preference, and the root element's style. */
  class ThemeService {
    var current: string
    var stored: Option<string>
    var style: map<string, string>

    /**
     * The constructor: a stored preference that is present and non-empty
     * (truthy) wins; otherwise the hour decides. `saved` is what storage
     * holds, `hour` the local hour, `rootStyle` the root element's style.
     */
    constructor (saved: Option<string>, hour: int, rootStyle: map<string, string>)
      ensures saved.Some? && saved.value != "" ==> current == saved.value
      ensures !(saved.Some? && saved.value != "") ==> current == HourTheme(hour)
      ensures stored == Some(current) && style == Apply(rootStyle, current)
    {
      current := "dark";
      stored := saved;
      style := rootStyle;
      new;
      if saved.Some? && saved.value != "" {
        SetTheme(saved.value);
      } else {
        SetTheme(HourTheme(hour));
      }
    }

    /** `setTheme`: the subject, the storage and the style all take the theme. */
    method SetTheme(theme: string)
      modifies this
      ensures current == theme && stored == Some(theme)
      ensures style == Apply(old(style), theme)
    {
      current := theme;
      stored := Some(theme);
      style := Apply(style, theme);
    }

    /** `getTheme`. */
    method GetTheme() returns (theme: string)
      ensures theme == current
    {
      theme := current;
    }

    /** `toggleTheme`: set the theme after the current one in the cycle. */
    method ToggleTheme()
      modifies this
      ensures current == Next(old(current)) && stored == Some(current)
      ensures style == Apply(old(style), current)
    {
      var themes := Themes;
      var currentIndex := IndexOf(themes, current);
      var nextIndex := (currentIndex + 1) % |themes|;
      SetTheme(themes[nextIndex]);
    }
  }
}
