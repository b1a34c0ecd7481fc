/** The colour rule both sign-in buttons apply: the chosen `ButtonColor`,
    inverted in dark mode when the button adapts, painted as a background
    with the opposite foreground. */
module ButtonStyle {
  import opened AuthTypes

  datatype UIUserInterfaceStyle = Unspecified | Light | Dark

  datatype UIAccessibilityContrast = ContrastUnspecified | ContrastNormal | ContrastHigh

  datatype UIUserInterfaceLevel = LevelUnspecified | LevelBase | LevelElevated

  /** The traits that decide how dynamic colours resolve. */
  datatype UITraitCollection = UITraitCollection(
    userInterfaceStyle: UIUserInterfaceStyle,
    accessibilityContrast: UIAccessibilityContrast,
    userInterfaceLevel: UIUserInterfaceLevel)

  /** The two `UIColor`s the buttons use. */
  datatype UIColor = BlackColor | WhiteColor

  function Opposite(c: ButtonColor): ButtonColor
  {
    if c == Black then White else Black
  }

  /** `hasDifferentColorAppearance(comparedTo:)`: true when there is no
      previous collection or a colour-relevant trait differs. */
  function HasDifferentColorAppearance(current: UITraitCollection, previous: Option<UITraitCollection>): (r: bool)
    ensures previous.Some? && previous.value == current ==> !r
    ensures previous.Some? && previous.value.userInterfaceStyle != current.userInterfaceStyle ==> r
  {
    previous.None?
    || previous.value.userInterfaceStyle != current.userInterfaceStyle
    || previous.value.accessibilityContrast != current.accessibilityContrast
    || previous.value.userInterfaceLevel != current.userInterfaceLevel
  }

  /** The colour `applyStyle(for:)` settles on. */
  function EffectiveColor(color: ButtonColor, adaptive: bool, style: UIUserInterfaceStyle): (r: ButtonColor)
    ensures !adaptive ==> r == color
    ensures adaptive && style == Dark ==> r != color
    ensures adaptive && style != Dark ==> r == color
  {
    if adaptive && style == Dark then Opposite(color) else color
  }

  /** An adaptive button shows the same colour twice in a row only when the
      appearance did not flip between light and dark. */
  lemma EffectiveColorFlips(color: ButtonColor, s1: UIUserInterfaceStyle, s2: UIUserInterfaceStyle)
    ensures EffectiveColor(color, true, s1) == EffectiveColor(color, true, s2) <==> (s1 == Dark <==> s2 == Dark)
    ensures EffectiveColor(EffectiveColor(color, true, Dark), true, Dark) == color
  {
  }

  function Background(effective: ButtonColor): (r: UIColor)
    ensures r == BlackColor <==> effective == Black
  {
    if effective == Black then BlackColor else WhiteColor
  }

  function Foreground(effective: ButtonColor): (r: UIColor)
    ensures r == WhiteColor <==> effective == Black
    ensures r != Background(effective)
  {
    if effective == Black then WhiteColor else BlackColor
  }

  /** The guard of `traitCollectionDidChange(_:)`. */
  function ShouldRestyle(adaptive: bool, current: UITraitCollection, previous: Option<UITraitCollection>): (r: bool)
    ensures !adaptive ==> !r
    ensures r ==> previous != Some(current)
    ensures adaptive && previous.Some? && previous.value.userInterfaceStyle != current.userInterfaceStyle ==> r
  {
    adaptive && HasDifferentColorAppearance(current, previous)
  }

  /** Skipping a restyle never leaves stale colours: when the guard fails,
      the colours for the new style are those for the previous one. */
  lemma SkippedRestyleKeepsColours(color: ButtonColor, adaptive: bool, current: UITraitCollection, previous: UITraitCollection)
    requires !ShouldRestyle(adaptive, current, Some(previous))
    ensures EffectiveColor(color, adaptive, current.userInterfaceStyle)
         == EffectiveColor(color, adaptive, previous.userInterfaceStyle)
  {
  }
}
