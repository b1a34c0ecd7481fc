/** `GoogleSignInButton` (GoogleSignInButton.swift): a button whose filled
    configuration is rebuilt for the current appearance. */
module GoogleSignInButton {
  import opened AuthTypes
  import opened ButtonStyle

  const Title: string := "Sign in with Google"

  const ImagePadding: int := 8

  datatype CornerStyle = Fixed | Dynamic | Small | Medium | Large | Capsule

  /** The parts of `UIButton.Configuration.filled()` the button sets. */
  datatype ButtonConfiguration = ButtonConfiguration(
    baseBackgroundColor: UIColor,
    baseForegroundColor: UIColor,
    title: string,
    imagePadding: int,
    cornerStyle: CornerStyle)

  class GoogleSignInButton {
    const color: ButtonColor
    const adaptive: bool
    /** The traits UIKit has given the button. */
    var traitCollection: UITraitCollection
    var configuration: Option<ButtonConfiguration>
    var contentCentered: bool
    var clipsToBounds: bool

    /** The state `applyStyle(for: style)` leaves behind. */
    ghost predicate StyledFor(style: UIUserInterfaceStyle)
      reads this
    {
      var effective := EffectiveColor(color, adaptive, style);
      && configuration == Some(ButtonConfiguration(Background(effective), Foreground(effective), Title, ImagePadding, Medium))
      && contentCentered
      && clipsToBounds
    }

    /** The button shows the colours of the appearance it is in. */
    ghost predicate Valid()
      reads this
    {
      StyledFor(traitCollection.userInterfaceStyle)
    }

    /** `init(color:adaptive:)`, styled for the traits it starts with. */
    constructor(color: ButtonColor, adaptive: bool, traits: UITraitCollection)
      ensures this.color == color && this.adaptive == adaptive
      ensures traitCollection == traits && Valid()
    {
      this.color := color;
      this.adaptive := adaptive;
      traitCollection := traits;
      configuration := None;
      new;
      ApplyStyle(traitCollection.userInterfaceStyle);
    }

    /** `init?(coder:)`: a black, non-adaptive button. */
    constructor FromCoder(traits: UITraitCollection)
      ensures color == Black && !adaptive
      ensures traitCollection == traits && Valid()
    {
      color := Black;
      adaptive := false;
      traitCollection := traits;
      configuration := None;
      new;
      ApplyStyle(traitCollection.userInterfaceStyle);
    }

    /** `applyStyle(for:)`: the nested checks of the adaptive flag and the
        style, then a fresh configuration. */
    method ApplyStyle(interfaceStyle: UIUserInterfaceStyle)
      modifies this
      ensures traitCollection == old(traitCollection)
      ensures StyledFor(interfaceStyle)
    {
      var effectiveColor := color;
      if adaptive {
        if interfaceStyle == Dark {
          effectiveColor := if color == Black then White else Black;
        }
      }
      var background := if effectiveColor == Black then BlackColor else WhiteColor;
      var foreground := if effectiveColor == Black then WhiteColor else BlackColor;
      var config := ButtonConfiguration(background, foreground, Title, ImagePadding, Medium);
      configuration := Some(config);
      contentCentered := true;
      clipsToBounds := true;
    }

    /** `traitCollectionDidChange(_:)`: restyles only an adaptive button
        whose colour appearance changed. */
    method TraitCollectionDidChange(previous: Option<UITraitCollection>)
      modifies this
      ensures traitCollection == old(traitCollection)
      ensures ShouldRestyle(adaptive, traitCollection, previous) ==> StyledFor(traitCollection.userInterfaceStyle)
      ensures !ShouldRestyle(adaptive, traitCollection, previous) ==> unchanged(this)
    {
      if adaptive && HasDifferentColorAppearance(traitCollection, previous) {
        ApplyStyle(traitCollection.userInterfaceStyle);
      }
    }

    /** UIKit gives the button new traits and then notifies it; the button
        keeps showing the colours of its current appearance. */
    method ChangeTraits(traits: UITraitCollection)
      requires Valid()
      modifies this
      ensures traitCollection == traits && Valid()
    {
      var previous := traitCollection;
      traitCollection := traits;
      TraitCollectionDidChange(Some(previous));
      if !ShouldRestyle(adaptive, traitCollection, Some(previous)) {
        SkippedRestyleKeepsColours(color, adaptive, traitCollection, previous);
      }
    }
  }
}
