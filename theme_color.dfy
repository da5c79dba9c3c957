/**
 * `useThemeColor` (hooks/use-theme-color.ts): a colour given in the props
 * for the current scheme wins when it is a '#' literal; otherwise the
 * palette's entry for the scheme is used. The palette (`Colors` of
 * constants/theme.ts) is a parameter, and so is the scheme the hook reads.
 */
module ThemeColor {
  import opened Options
  import JsText
  import ColorSchemeContext

  type ColorScheme = ColorSchemeContext.ColorScheme

  /** `ThemeProps`: an optional colour per scheme. */
  datatype ThemeProps = ThemeProps(light: Option<string>, dark: Option<string>)

  /** `Colors`: a named colour table per scheme. */
  datatype Palette = Palette(light: map<string, string>, dark: map<string, string>)

  /** `props[theme]`. */
  function PropFor(props: ThemeProps, theme: ColorScheme): Option<string> {
    if theme == ColorSchemeContext.Dark then props.dark else props.light
  }

  /** `Colors[theme]`. */
  function TableFor(colors: Palette, theme: ColorScheme): map<string, string> {
    if theme == ColorSchemeContext.Dark then colors.dark else colors.light
  }

  /** `keyof typeof Colors.light & keyof typeof Colors.dark`: a name both tables define. */
  predicate IsColorName(colors: Palette, colorName: string) {
    colorName in colors.light && colorName in colors.dark
  }

  /** `useColorScheme() ?? 'light'`. */
  function ThemeInUse(scheme: Option<ColorScheme>): (theme: ColorScheme)
    ensures scheme.Some? ==> theme == scheme.value
    ensures scheme.None? ==> theme == ColorSchemeContext.Light
  {
    if scheme.Some? then scheme.value else ColorSchemeContext.Light
  }

  /** A colour literal in the props: present and starting with '#'. */
  predicate IsLiteral(prop: Option<string>) {
    prop.Some? && JsText.StartsWith(prop.value, "#")
  }

  /** `useThemeColor(props, colorName)` when the hook reads `scheme`. */
  function UseThemeColor(props: ThemeProps, colorName: string, scheme: Option<ColorScheme>, colors: Palette)
    : (color: string)
    requires IsColorName(colors, colorName)
    ensures var theme := ThemeInUse(scheme);
      && (IsLiteral(PropFor(props, theme)) ==> color == PropFor(props, theme).value)
      && (!IsLiteral(PropFor(props, theme)) ==> color == TableFor(colors, theme)[colorName])
  {
    var theme := ThemeInUse(scheme);
    var colorFromProps := PropFor(props, theme);
    if colorFromProps.Some? && colorFromProps.value != "" && colorFromProps.value[0] == '#' then
      colorFromProps.value
    else
      TableFor(colors, theme)[colorName]
  }

  /** The colour is always the scheme's own prop or an entry of the scheme's table, never the other scheme's. */
  lemma ColorComesFromScheme(props: ThemeProps, colorName: string, scheme: Option<ColorScheme>, colors: Palette)
    requires IsColorName(colors, colorName)
    ensures var theme := ThemeInUse(scheme);
            var color := UseThemeColor(props, colorName, scheme, colors);
            PropFor(props, theme) == Some(color) || color == TableFor(colors, theme)[colorName]
  {
  }

  /**
   * A prop that names a palette entry instead of giving a '#' literal (as the
   * plant card passes 'card', 'text' and so on) falls back to the palette.
   */
  lemma NamedPropFallsBack(colorName: string, scheme: Option<ColorScheme>, colors: Palette)
    requires IsColorName(colors, colorName)
    requires colorName == [] || colorName[0] != '#'
    ensures UseThemeColor(ThemeProps(Some(colorName), Some(colorName)), colorName, scheme, colors)
            == TableFor(colors, ThemeInUse(scheme))[colorName]
  {
  }
}
