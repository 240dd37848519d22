/** The colour theme (src/theme.tsx): the two themes over shared scales, the
    initial mode from the device scheme, the adoption of a stored preference,
    the toggle and the values the context exposes. Reading and writing the
    preference in storage are left to the caller: the stored value is a
    parameter. */
module Theme {
  import opened Common

  datatype ThemeMode = Light | Dark

  /** `baseRadii` */
  datatype Radii = Radii(sm: nat, md: nat, lg: nat, pill: nat)
  const BaseRadii := Radii(8, 12, 16, 999)

  /** `baseSpacing` */
  datatype Spacing = Spacing(xs: nat, sm: nat, md: nat, lg: nat, xl: nat)
  const BaseSpacing := Spacing(6, 10, 14, 20, 28)

  /** `baseTypography` */
  datatype Typography = Typography(title: nat, heading: nat, body: nat, small: nat)
  const BaseTypography := Typography(28, 22, 16, 13)

  datatype Colors = Colors(
    background: string, surface: string, surfaceAlt: string, border: string,
    primary: string, primarySoft: string, accent: string, success: string,
    warning: string, danger: string, text: string, muted: string,
    subtle: string, inputBg: string)

  /** `Theme` */
  datatype Theme = Theme(colors: Colors, radii: Radii, spacing: Spacing, typography: Typography)

  const LightTheme := Theme(
    Colors("#f6f8ff", "rgba(255,255,255,0.86)", "#ffffff", "rgba(224,230,244,0.9)",
           "#b9c7ff", "#e9dcff", "#8dd5ff", "#7ad4b5",
           "#ffc966", "#ff9fa5", "#0f1d3d", "#5d6a8c",
           "#9aa5c0", "#eef1fb"),
    BaseRadii, BaseSpacing, BaseTypography)

  const DarkTheme := Theme(
    Colors("#0c1324", "rgba(19,24,38,0.92)", "#131a2c", "rgba(255,255,255,0.08)",
           "#7aa2ff", "#1f2d4a", "#6cd1ff", "#6de2c3",
           "#ffcb6b", "#ff9fa5", "#e5ebf8", "#a3acc5",
           "#6f7894", "#0b1220"),
    BaseRadii, BaseSpacing, BaseTypography)

  /** Both themes share radii, spacing and typography and differ in colours. */
  lemma ThemesShareScales()
    ensures LightTheme.radii == DarkTheme.radii == BaseRadii
    ensures LightTheme.spacing == DarkTheme.spacing == BaseSpacing
    ensures LightTheme.typography == DarkTheme.typography == BaseTypography
    ensures LightTheme != DarkTheme
  {
    assert LightTheme.colors.background[1] != DarkTheme.colors.background[1];
  }

  /** `useState(deviceScheme === 'dark' ? 'dark' : 'light')`; `None` is a
      device that reports no scheme. */
  function InitialMode(deviceScheme: Option<ThemeMode>): (m: ThemeMode)
    ensures m == Dark <==> deviceScheme == Some(Dark)
  {
    if deviceScheme == Some(Dark) then Dark else Light
  }

  /** The text `setItem` stores for a mode. */
  function ModeName(m: ThemeMode): string
  {
    match m
    case Light => "light"
    case Dark => "dark"
  }

  /** The effect after `getItem`: a stored 'light' or 'dark' is adopted;
      otherwise a dark device sets dark; otherwise the mode stays. */
  function ResolveStored(current: ThemeMode, stored: Option<string>, deviceScheme: Option<ThemeMode>): (m: ThemeMode)
    ensures stored == Some("light") ==> m == Light
    ensures stored == Some("dark") ==> m == Dark
    ensures stored != Some("light") && stored != Some("dark") && deviceScheme == Some(Dark) ==> m == Dark
    ensures stored != Some("light") && stored != Some("dark") && deviceScheme != Some(Dark) ==> m == current
  {
    if stored == Some("light") then Light
    else if stored == Some("dark") then Dark
    else if deviceScheme == Some(Dark) then Dark
    else current
  }

  /** A persisted mode is restored as it was, whatever the device says. */
  lemma PersistedModeRestored(current: ThemeMode, m: ThemeMode, deviceScheme: Option<ThemeMode>)
    ensures ResolveStored(current, Some(ModeName(m)), deviceScheme) == m
  {
    assert "light" != "dark";
  }

  /** Any stored text other than the two mode names keeps a dark mode dark. */
  lemma UnknownStoredKeepsDark(stored: Option<string>, deviceScheme: Option<ThemeMode>)
    requires stored != Some("light")
    ensures ResolveStored(Dark, stored, deviceScheme) == Dark
  {
  }

  /** `toggleMode`: light becomes dark and dark becomes light. */
  function ToggleMode(m: ThemeMode): (r: ThemeMode)
    ensures r != m
  {
    if m == Light then Dark else Light
  }

  /** Toggling twice gives the mode back. */
  lemma ToggleTwice(m: ThemeMode)
    ensures ToggleMode(ToggleMode(m)) == m
  {
  }

  /** The context value: the theme, the mode and `isDark`. */
  datatype ThemeContext = ThemeContext(theme: Theme, mode: ThemeMode, isDark: bool)

  function ContextOf(m: ThemeMode): (c: ThemeContext)
    ensures c.mode == m
    ensures c.isDark <==> m == Dark
    ensures c.theme == DarkTheme <==> m == Dark
    ensures c.theme == LightTheme <==> m == Light
  {
    ThemesShareScales();
    ThemeContext(if m == Dark then DarkTheme else LightTheme, m, m == Dark)
  }
}
