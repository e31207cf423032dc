/** The theme provider of the React front end: six predefined themes, the
    theme currently shown, a user-defined custom theme, and the operations
    that switch between them. Browser storage is given as parameters to the
    mounting constructor. */
module Theme {
  import opened Common

  /** A CSS style object: property name to value. */
  type Style = map<string, string>

  /** The four values a theme consists of. */
  datatype ThemeValues = ThemeValues(
    gridHeaderStyle: Style,
    selectedRowStyle: Style,
    primaryColor: string,
    secondaryColor: string)

  /** A predefined theme: a display name and its values. */
  datatype ThemeDef = ThemeDef(name: string, values: ThemeValues)

  /** The name under which the state records a custom theme. */
  const Custom: string := "custom"

  /** A grid header style: background, text colour and gradient. */
  function HeaderStyle(background: string, gradient: string): Style {
    map["backgroundColor" := background, "color" := "#FFFFFF", "gradient" := gradient]
  }

  /** A selected-row style; only the colours differ between the themes. */
  function RowStyle(background: string, color: string, borderLeft: string, boxShadow: string,
                    hoverBackground: string, hoverColor: string): Style {
    map["backgroundColor" := background,
        "color" := color,
        "borderLeft" := borderLeft,
        "borderRight" := "none",
        "borderTop" := "none",
        "borderBottom" := "none",
        "fontWeight" := "500",
        "fontSize" := "1.1rem",
        "boxShadow" := boxShadow,
        "transition" := "all 0.3s ease",
        "hoverBackgroundColor" := hoverBackground,
        "hoverColor" := hoverColor]
  }

  const HeaderKeys: set<string> := {"backgroundColor", "color", "gradient"}

  const RowKeys: set<string> := {"backgroundColor", "color", "borderLeft", "borderRight", "borderTop",
    "borderBottom", "fontWeight", "fontSize", "boxShadow", "transition", "hoverBackgroundColor", "hoverColor"}

  /** The shape every predefined theme has: the same style properties, and
      a grid header painted in the primary colour. */
  predicate WellShaped(v: ThemeValues) {
    && v.gridHeaderStyle.Keys == HeaderKeys
    && v.selectedRowStyle.Keys == RowKeys
    && "backgroundColor" in v.gridHeaderStyle
    && v.gridHeaderStyle["backgroundColor"] == v.primaryColor
  }

  /** What distinguishes one predefined theme from another. */
  datatype Palette = Palette(
    name: string, primary: string, secondary: string, gradient: string,
    rowBackground: string, rowColor: string, borderLeft: string,
    boxShadow: string, hoverBackground: string, hoverColor: string)

  /** A theme as `predefinedThemes` writes one: the grid header takes the
      primary colour as its background, and the selected-row style differs
      from theme to theme only in its colours. */
  function MakeTheme(p: Palette): ThemeDef {
    ThemeDef(p.name, ThemeValues(HeaderStyle(p.primary, p.gradient),
                                 RowStyle(p.rowBackground, p.rowColor, p.borderLeft, p.boxShadow,
                                          p.hoverBackground, p.hoverColor),
                                 p.primary, p.secondary))
  }

  const DefaultBlue: Palette :=
    Palette("Default Blue", "#2196F3", "#21CBF3", "linear-gradient(45deg, #2196F3 30%, #21CBF3 90%)",
            "rgba(33, 150, 243, 0.12)", "#2196F3", "4px solid #2196F3",
            "inset 0 0 5px rgba(33, 150, 243, 0.1)", "rgba(33, 150, 243, 0.15)", "#2196F3")

  const DarkMode: Palette :=
    Palette("Dark Mode", "#2c3e50", "#3498db", "linear-gradient(45deg, #2c3e50 30%, #34495e 90%)",
            "rgba(52, 73, 94, 0.15)", "#ecf0f1", "4px solid #3498db",
            "inset 0 0 5px rgba(52, 152, 219, 0.1)", "rgba(52, 73, 94, 0.2)", "#ecf0f1")

  const NatureGreen: Palette :=
    Palette("Nature Green", "#27ae60", "#2ecc71", "linear-gradient(45deg, #27ae60 30%, #2ecc71 90%)",
            "rgba(39, 174, 96, 0.12)", "#27ae60", "4px solid #27ae60",
            "inset 0 0 5px rgba(39, 174, 96, 0.1)", "rgba(39, 174, 96, 0.15)", "#27ae60")

  const RoyalPurple: Palette :=
    Palette("Royal Purple", "#9b59b6", "#8e44ad", "linear-gradient(45deg, #9b59b6 30%, #8e44ad 90%)",
            "rgba(155, 89, 182, 0.12)", "#9b59b6", "4px solid #9b59b6",
            "inset 0 0 5px rgba(155, 89, 182, 0.1)", "rgba(155, 89, 182, 0.15)", "#9b59b6")

  const SunsetOrange: Palette :=
    Palette("Sunset Orange", "#e67e22", "#f39c12", "linear-gradient(45deg, #e67e22 30%, #f39c12 90%)",
            "rgba(230, 126, 34, 0.12)", "#e67e22", "4px solid #e67e22",
            "inset 0 0 5px rgba(230, 126, 34, 0.1)", "rgba(230, 126, 34, 0.15)", "#e67e22")

  const CrimsonRed: Palette :=
    Palette("Crimson Red", "#e74c3c", "#c0392b", "linear-gradient(45deg, #e74c3c 30%, #c0392b 90%)",
            "rgba(231, 76, 60, 0.12)", "#e74c3c", "4px solid #e74c3c",
            "inset 0 0 5px rgba(231, 76, 60, 0.1)", "rgba(231, 76, 60, 0.15)", "#e74c3c")

  /** `predefinedThemes`. */
  const PredefinedThemes: map<string, ThemeDef> := map[
    "default" := MakeTheme(DefaultBlue),
    "dark" := MakeTheme(DarkMode),
    "green" := MakeTheme(NatureGreen),
    "purple" := MakeTheme(RoyalPurple),
    "orange" := MakeTheme(SunsetOrange),
    "red" := MakeTheme(CrimsonRed)]

  lemma HeaderStyleShape(background: string, gradient: string)
    ensures HeaderStyle(background, gradient).Keys == HeaderKeys
    ensures HeaderStyle(background, gradient)["backgroundColor"] == background
  {
  }

  lemma RowStyleShape(background: string, color: string, borderLeft: string, boxShadow: string,
                      hoverBackground: string, hoverColor: string)
    ensures RowStyle(background, color, borderLeft, boxShadow, hoverBackground, hoverColor).Keys == RowKeys
  {
  }

  /** Every theme built from a palette has the common shape. */
  lemma MakeThemeShaped(p: Palette)
    ensures WellShaped(MakeTheme(p).values)
  {
    HeaderStyleShape(p.primary, p.gradient);
    RowStyleShape(p.rowBackground, p.rowColor, p.borderLeft, p.boxShadow, p.hoverBackground, p.hoverColor);
  }

  /** The six names, and "custom" is not one of them. */
  lemma PredefinedNames()
    ensures PredefinedThemes.Keys == {"default", "dark", "green", "purple", "orange", "red"}
    ensures Custom !in PredefinedThemes
  {
  }

  /** Every predefined theme has the same style properties, and paints its
      grid header in its primary colour. */
  lemma PredefinedThemesShape(n: string)
    requires n in PredefinedThemes
    ensures WellShaped(PredefinedThemes[n].values)
  {
    var p := if n == "default" then DefaultBlue
             else if n == "dark" then DarkMode
             else if n == "green" then NatureGreen
             else if n == "purple" then RoyalPurple
             else if n == "orange" then SunsetOrange
             else CrimsonRed;
    PredefinedNames();
    assert PredefinedThemes[n] == MakeTheme(p);
    MakeThemeShaped(p);
  }

  /** The values of the default theme: Default Blue, with the common shape. */
  function DefaultValues(): (v: ThemeValues)
    ensures "default" in PredefinedThemes && v == PredefinedThemes["default"].values
    ensures PredefinedThemes["default"].name == "Default Blue"
    ensures v.primaryColor == "#2196F3" && v.secondaryColor == "#21CBF3"
    ensures WellShaped(v)
  {
    PredefinedNames();
    PredefinedThemesShape("default");
    PredefinedThemes["default"].values
  }

  /** The provider's six state variables. */
  class ThemeProvider {
    var currentTheme: string
    var gridHeaderStyle: Style
    var selectedRowStyle: Style
    var primaryColor: string
    var secondaryColor: string
    var customTheme: ThemeValues

    /** The four values on screen. */
    function Displayed(): ThemeValues
      reads this
    {
      ThemeValues(gridHeaderStyle, selectedRowStyle, primaryColor, secondaryColor)
    }

    /** What the operations keep true: the theme named `currentTheme` is the
        one on screen, a predefined one or the custom one. */
    predicate Valid()
      reads this
    {
      || (currentTheme in PredefinedThemes && Displayed() == PredefinedThemes[currentTheme].values)
      || (currentTheme == Custom && Displayed() == customTheme)
    }

    /** The first render: the default theme, and a custom theme that starts
        as a copy of it. */
    constructor()
      ensures currentTheme == "default" && Displayed() == DefaultValues()
      ensures customTheme == DefaultValues()
      ensures Valid()
    {
      var defaults := DefaultValues();
      currentTheme := "default";
      gridHeaderStyle := defaults.gridHeaderStyle;
      selectedRowStyle := defaults.selectedRowStyle;
      primaryColor := defaults.primaryColor;
      secondaryColor := defaults.secondaryColor;
      customTheme := defaults;
    }

    /** The state once the mount effect has run with what browser storage
        held: a saved theme name takes effect only if it names a predefined
        theme (so a saved "custom" is ignored), and a saved custom theme
        replaces `customTheme` without being shown. */
    constructor Mounted(savedTheme: Option<string>, savedCustomTheme: Option<ThemeValues>)
      ensures savedTheme.Some? && savedTheme.value in PredefinedThemes ==>
                currentTheme == savedTheme.value && Displayed() == PredefinedThemes[savedTheme.value].values
      ensures !(savedTheme.Some? && savedTheme.value in PredefinedThemes) ==>
                currentTheme == "default" && Displayed() == DefaultValues()
      ensures customTheme == if savedCustomTheme.Some? then savedCustomTheme.value else DefaultValues()
      ensures Valid()
    {
      var defaults := DefaultValues();
      currentTheme := "default";
      gridHeaderStyle := defaults.gridHeaderStyle;
      selectedRowStyle := defaults.selectedRowStyle;
      primaryColor := defaults.primaryColor;
      secondaryColor := defaults.secondaryColor;
      customTheme := defaults;
      new;
      if savedTheme.Some? && savedTheme.value in PredefinedThemes {
        var theme := PredefinedThemes[savedTheme.value].values;
        currentTheme := savedTheme.value;
        gridHeaderStyle := theme.gridHeaderStyle;
        selectedRowStyle := theme.selectedRowStyle;
        primaryColor := theme.primaryColor;
        secondaryColor := theme.secondaryColor;
      }
      if savedCustomTheme.Some? {
        customTheme := savedCustomTheme.value;
      }
    }

    /** `applyTheme(themeName)`: a predefined name is shown; any other name
        changes nothing. The custom theme is never touched. */
    method ApplyTheme(themeName: string)
      modifies this
      ensures themeName in PredefinedThemes ==>
                currentTheme == themeName && Displayed() == PredefinedThemes[themeName].values
      ensures themeName !in PredefinedThemes ==>
                currentTheme == old(currentTheme) && Displayed() == old(Displayed())
      ensures customTheme == old(customTheme)
      ensures old(Valid()) ==> Valid()
      ensures themeName in PredefinedThemes ==> Valid()
    {
      if themeName in PredefinedThemes {
        var theme := PredefinedThemes[themeName].values;
        currentTheme := themeName;
        gridHeaderStyle := theme.gridHeaderStyle;
        selectedRowStyle := theme.selectedRowStyle;
        primaryColor := theme.primaryColor;
        secondaryColor := theme.secondaryColor;
      }
    }

    /** `updateCustomTheme(newCustomTheme)`: the new values become the custom
        theme, and the custom theme is shown. */
    method UpdateCustomTheme(newCustomTheme: ThemeValues)
      modifies this
      ensures customTheme == newCustomTheme
      ensures currentTheme == Custom && Displayed() == newCustomTheme
      ensures Valid()
    {
      customTheme := newCustomTheme;
      currentTheme := Custom;
      gridHeaderStyle := newCustomTheme.gridHeaderStyle;
      selectedRowStyle := newCustomTheme.selectedRowStyle;
      primaryColor := newCustomTheme.primaryColor;
      secondaryColor := newCustomTheme.secondaryColor;
    }

    /** `resetToDefault`, which is `applyTheme('default')`: the default theme
        is shown and the custom theme is kept. */
    method ResetToDefault()
      modifies this
      ensures currentTheme == "default" && Displayed() == DefaultValues()
      ensures customTheme == old(customTheme)
      ensures Valid()
    {
      ApplyTheme("default");
    }
  }
}
