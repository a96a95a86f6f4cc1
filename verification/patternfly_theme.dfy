/**
 * The bridge from the PatternFly design system's light/dark theme to the
 * Material UI theme options of the dashboard library
 * (src/hooks/usePatternflyTheme.ts).
 *
 * Design-token values are opaque: `Token(name)` stands for the value the
 * token package exports under that name, `Css(text)` for a literal string.
 */
module PatternflyTheme {

  datatype Theme = Light | Dark

  /** A value placed in the theme options. */
  datatype Value = Token(name: string) | Css(text: string)

  const DarkClassV6 := "pf-v6-theme-dark"
  const DarkClassV5 := "pf-v5-theme-dark"
  const DarkClassV4 := "pf-theme-dark"

  /** The class names that mark the root element as dark, across PatternFly versions. */
  const DarkClasses: set<string> := {DarkClassV4, DarkClassV5, DarkClassV6}

  const White := Token("t_color_white")
  const Gray95 := Token("t_color_gray_95")
  const Blue100 := Token("chart_color_blue_100")
  const Blue200 := Token("chart_color_blue_200")
  const Blue300 := Token("chart_color_blue_300")
  const PrimaryBackground := Css("var(--pf-t--global--background--color--primary--default)")
  const BorderDefault := Css("var(--pf-t--global--border--color--default)")
  const SpacerLg := Css("var(--pf-t--global--spacer--lg)")

  /**
   * `getTheme`: dark when the root element's class list holds any dark-theme
   * class, light otherwise. The class list is the parameter.
   */
  function GetTheme(classList: set<string>): (t: Theme)
    ensures t == Dark <==> classList * DarkClasses != {}
  {
    if DarkClassV4 in classList || DarkClassV5 in classList || DarkClassV6 in classList then
      assert classList * DarkClasses != {} by {
        if DarkClassV4 in classList {
          assert DarkClassV4 in classList * DarkClasses;
        } else if DarkClassV5 in classList {
          assert DarkClassV5 in classList * DarkClasses;
        } else {
          assert DarkClassV6 in classList * DarkClasses;
        }
      }
      Dark
    else
      Light
  }

  /** `primaryTextColor`: the one colour every text-like slot takes. */
  function PrimaryTextColor(theme: Theme): Value
  {
    if theme == Dark then White else Gray95
  }

  // The parts of the MUI `ThemeOptions` the mapping produces. Nested CSS
  // selectors of the component overrides are flattened into field names.

  datatype Subtitle1 = Subtitle1(fontFamily: Value, fontWeight: Value, lineHeight: Value, fontSize: Value)
  datatype Heading2 = Heading2(color: Value, fontWeight: Value, fontSize: Value)
  /** The local part of `typography`; the library's base typography is spread under it. */
  datatype Typography = Typography(fontFamily: Value, subtitle1: Subtitle1, h2: Heading2)

  datatype PrimaryPalette = PrimaryPalette(light: Value, main: Value, dark: Value, contrastText: Value)
  datatype SecondaryPalette = SecondaryPalette(main: Value, light: Value, dark: Value)
  datatype BackgroundPalette = BackgroundPalette(
    default: Value, paper: Value, navigation: Value, code: Value, tooltip: Value, lighter: Value, border: Value)
  datatype TextPalette = TextPalette(
    primary: Value, secondary: Value, disabled: Value, navigation: Value, accent: Value, link: Value, linkHover: Value)
  datatype Palette = Palette(primary: PrimaryPalette, secondary: SecondaryPalette, background: BackgroundPalette, text: TextPalette)

  datatype CardRoot = CardRoot(borderRadius: Value, borderColor: Value)
  datatype CardHeaderRoot = CardHeaderRoot(
    borderBottom: Value, paddingBlockEnd: Value, paddingBlockStart: Value, paddingLeft: Value, paddingRight: Value)
  datatype CardContentRoot = CardContentRoot(
    borderTop: Value, lastChildPaddingBottom: Value, lastChildPaddingLeft: Value, lastChildPaddingRight: Value)
  datatype OutlinedInput = OutlinedInput(
    notchedOutlineBorderColor: Value, hoverBorderColor: Value, focusedBorderColor: Value, inputPadding: Value)
  datatype Components = Components(
    clockMeridiemColor: Value,      // MuiTypography root '&.MuiClock-meridiemText'
    svgIconColor: Value,            // MuiSvgIcon root
    card: CardRoot,                 // MuiCard root
    cardHeader: CardHeaderRoot,     // MuiCardHeader root '&.MuiCardHeader-root'
    cardContent: CardContentRoot,   // MuiCardContent root '&.MuiCardContent-root'
    outlinedInput: OutlinedInput,   // MuiOutlinedInput
    selectIconColor: Value)         // MuiSelect icon

  datatype ThemeOptions = ThemeOptions(typography: Typography, palette: Palette, components: Components)

  /** Every slot that follows the text colour holds `c`. */
  predicate TextSlotsAre(o: ThemeOptions, c: Value)
  {
    && o.palette.primary.contrastText == c
    && o.palette.secondary == SecondaryPalette(c, c, c)
    && o.palette.text == TextPalette(c, c, c, c, c, c, c)
    && o.components.clockMeridiemColor == c
    && o.components.svgIconColor == c
    && o.components.selectIconColor == c
  }

  /** Every background slot holds `c`. */
  predicate BackgroundSlotsAre(o: ThemeOptions, c: Value)
  {
    o.palette.background == BackgroundPalette(c, c, c, c, c, c, c)
  }

  /** `o` with every text-colour slot set to `c` and nothing else changed. */
  function Recolour(o: ThemeOptions, c: Value): (r: ThemeOptions)
    ensures TextSlotsAre(r, c)
    ensures r.typography == o.typography && r.palette.background == o.palette.background
    ensures r.palette.primary.light == o.palette.primary.light
    ensures r.palette.primary.main == o.palette.primary.main
    ensures r.palette.primary.dark == o.palette.primary.dark
    ensures r.components.card == o.components.card && r.components.cardHeader == o.components.cardHeader
    ensures r.components.cardContent == o.components.cardContent
    ensures r.components.outlinedInput == o.components.outlinedInput
  {
    ThemeOptions(
      o.typography,
      o.palette.(primary := o.palette.primary.(contrastText := c),
                 secondary := SecondaryPalette(c, c, c),
                 text := TextPalette(c, c, c, c, c, c, c)),
      o.components.(clockMeridiemColor := c, svgIconColor := c, selectIconColor := c))
  }

  /**
   * `mapPatterflyThemeToMUI`: the theme options for a PatternFly theme. The
   * text colour is the only theme-dependent value; it fills the contrast
   * text, the secondary and text palettes and three icon/label colours.
   */
  function MapPatternflyThemeToMui(theme: Theme): (o: ThemeOptions)
    ensures TextSlotsAre(o, if theme == Dark then White else Gray95)
    ensures BackgroundSlotsAre(o, PrimaryBackground)
    ensures o.palette.primary.light == Blue100
    ensures o.palette.primary.main == Blue200
    ensures o.palette.primary.dark == Blue300
  {
    var primaryTextColor := PrimaryTextColor(theme);
    var primaryBackgroundColor := PrimaryBackground;
    ThemeOptions(
      Typography(
        Css("var(--pf-t--global--font--family--body)"),
        Subtitle1(
          Css("var(--pf-t--global--font--family--heading)"),
          Css("var(--pf-t--global--font--weight--heading--default)"),
          Css("var(--pf-v6-c-card__title-text--LineHeight)"),
          Css("var(--pf-t--global--font--size--heading--sm)")),
        Heading2(
          Css("var(--pf-t--global--text--color--brand--default)"),
          Css("var(--pf-t--global--font--weight--body--default)"),
          Css("var(--pf-t--global--font--size--600)"))),
      Palette(
        PrimaryPalette(Blue100, Blue200, Blue300, primaryTextColor),
        SecondaryPalette(primaryTextColor, primaryTextColor, primaryTextColor),
        BackgroundPalette(
          primaryBackgroundColor, primaryBackgroundColor, primaryBackgroundColor, primaryBackgroundColor,
          primaryBackgroundColor, primaryBackgroundColor, primaryBackgroundColor),
        TextPalette(
          primaryTextColor, primaryTextColor, primaryTextColor, primaryTextColor,
          primaryTextColor, primaryTextColor, primaryTextColor)),
      Components(
        primaryTextColor,
        if theme == Dark then White else Gray95,
        CardRoot(Css("var(--pf-t--global--border--radius--medium)"), BorderDefault),
        CardHeaderRoot(
          Css("none"), Css("var(--pf-t--global--spacer--md)"), SpacerLg, SpacerLg, SpacerLg),
        CardContentRoot(Css("none"), SpacerLg, SpacerLg, SpacerLg),
        OutlinedInput(BorderDefault, BorderDefault, BorderDefault, Css("8.5px 14px")),
        primaryTextColor))
  }

  /** The two themes are told apart by their text colour alone. */
  lemma TextColourSeparatesThemes(a: Theme, b: Theme)
    ensures PrimaryTextColor(a) == PrimaryTextColor(b) <==> a == b
  {
  }

  /**
   * Switching theme changes nothing but the text-colour slots: the dark
   * options are the light options recoloured with the dark text colour, and
   * vice versa.
   */
  lemma ThemesDifferOnlyInTextColour(theme: Theme, other: Theme)
    ensures MapPatternflyThemeToMui(theme) == Recolour(MapPatternflyThemeToMui(other), PrimaryTextColor(theme))
  {
  }

  /** Adding classes to the root element never turns a dark theme light. */
  lemma GetThemeMonotone(classes: set<string>, more: set<string>)
    requires classes <= more
    ensures GetTheme(classes) == Dark ==> GetTheme(more) == Dark
  {
  }

  /** Classes other than the three dark-theme ones do not affect the theme. */
  lemma GetThemeIgnoresOtherClasses(classes: set<string>, others: set<string>)
    requires others !! DarkClasses
    ensures GetTheme(classes + others) == GetTheme(classes)
  {
  }
}
