/** The colours setTheme gives the delegate for each theme. */
module Palette {

  datatype Theme = Light | Dark | Sepia

  /** A QColor: red, green, blue and alpha; QColor(r, g, b) is opaque. */
  datatype Color = Rgba(r: int, g: int, b: int, a: int)

  function Rgb(r: int, g: int, b: int): Color
  {
    Rgba(r, g, b, 255)
  }

  /** The delegate's colour fields. */
  datatype Colors = Colors(
    title: Color,
    date: Color,
    content: Color,
    default: Color,
    active: Color,
    notActive: Color,
    hover: Color,
    applicationInactive: Color,
    separator: Color)

  /** The colours the constructor sets, before any theme is chosen. */
  function ConstructorColors(): Colors
  {
    Colors(
      title := Rgb(26, 26, 26),
      date := Rgb(26, 26, 26),
      content := Rgb(142, 146, 150),
      default := Rgb(247, 247, 247),
      active := Rgb(218, 233, 239),
      notActive := Rgb(175, 212, 228),
      hover := Rgb(207, 207, 207),
      applicationInactive := Rgb(207, 207, 207),
      separator := Rgb(191, 191, 191))
  }

  /** The colours setTheme sets for each theme. */
  function ColorsOf(theme: Theme): Colors
  {
    match theme
    case Light =>
      Colors(Rgb(26, 26, 26), Rgb(26, 26, 26), Rgb(142, 146, 150), Rgb(247, 247, 247),
             Rgb(218, 233, 239), Rgb(175, 212, 228), Rgb(207, 207, 207), Rgb(207, 207, 207), Rgb(191, 191, 191))
    case Dark =>
      Colors(Rgb(255, 255, 255), Rgb(255, 255, 255), Rgba(255, 255, 255, 127), Rgb(25, 25, 25),
             Rgba(35, 52, 69, 127), Rgb(35, 52, 69), Rgba(35, 52, 69, 127), Rgb(35, 52, 69), Rgba(255, 255, 255, 127))
    case Sepia =>
      Colors(Rgb(26, 26, 26), Rgb(26, 26, 26), Rgb(142, 146, 150), Rgb(251, 240, 217),
             Rgb(218, 233, 239), Rgb(175, 212, 228), Rgb(207, 207, 207), Rgb(207, 207, 207), Rgb(191, 191, 191))
  }

  /** Choosing Light gives back exactly the colours of a newly constructed delegate,
      and the three themes are told apart by their colours: Sepia differs from Light
      only in the default background. */
  lemma ThemesAndConstructor()
    ensures ColorsOf(Light) == ConstructorColors()
    ensures ColorsOf(Sepia) == ColorsOf(Light).(default := Rgb(251, 240, 217))
    ensures forall t1: Theme, t2: Theme :: ColorsOf(t1) == ColorsOf(t2) ==> t1 == t2
  {
  }
}
