/** `AppleSignInButton` (AppleSignInButton.swift): a button that paints
    itself black or white and restyles when the appearance changes. */
module AppleSignInButton {
  import opened AuthTypes
  import opened ButtonStyle

  const Title: string := "Sign in with Apple"

  const CornerRadius: int := 20

  class AppleSignInButton {
    const color: ButtonColor
    const adaptive: bool
    /** The traits UIKit has given the button. */
    var traitCollection: UITraitCollection
    var backgroundColor: UIColor
    var title: string
    var titleColor: UIColor
    /** The tint of the button, which colours its template logo. */
    var tintColor: UIColor
    var imageTintColor: UIColor
    var cornerRadius: int
    var clipsToBounds: bool

    /** The state `applyStyle(for: style)` leaves behind. */
    ghost predicate StyledFor(style: UIUserInterfaceStyle)
      reads this
    {
      var effective := EffectiveColor(color, adaptive, style);
      && backgroundColor == Background(effective)
      && titleColor == Foreground(effective)
      && tintColor == Foreground(effective)
      && imageTintColor == Foreground(effective)
      && title == Title
      && cornerRadius == CornerRadius
      && clipsToBounds
    }

    /** The button shows the colours of the appearance it is in. */
    ghost predicate Valid()
      reads this
    {
      StyledFor(traitCollection.userInterfaceStyle)
    }

    /** `init(color:adaptive:)`, styled for the traits it starts with. */
    constructor(color: ButtonColor, adaptive: bool, traits: UITraitCollection)
      ensures this.color == color && this.adaptive == adaptive
      ensures traitCollection == traits && Valid()
    {
      this.color := color;
      this.adaptive := adaptive;
      traitCollection := traits;
      new;
      ApplyStyle(traitCollection.userInterfaceStyle);
    }

    /** `init?(coder:)`: a black, non-adaptive button. */
    constructor FromCoder(traits: UITraitCollection)
      ensures color == Black && !adaptive
      ensures traitCollection == traits && Valid()
    {
      color := Black;
      adaptive := false;
      traitCollection := traits;
      new;
      ApplyStyle(traitCollection.userInterfaceStyle);
    }

    /** `applyStyle(for:)`. */
    method ApplyStyle(interfaceStyle: UIUserInterfaceStyle)
      modifies this
      ensures traitCollection == old(traitCollection)
      ensures StyledFor(interfaceStyle)
    {
      var effectiveColor := color;
      if adaptive && interfaceStyle == Dark {
        effectiveColor := if color == Black then White else Black;
      }
      var background := if effectiveColor == Black then BlackColor else WhiteColor;
      var foreground := if effectiveColor == Black then WhiteColor else BlackColor;
      backgroundColor := background;
      title := Title;
      titleColor := foreground;
      tintColor := foreground;
      imageTintColor := foreground;
      cornerRadius := CornerRadius;
      clipsToBounds := true;
    }

    /** `traitCollectionDidChange(_:)`: restyles only an adaptive button
        whose colour appearance changed. */
    method TraitCollectionDidChange(previous: Option<UITraitCollection>)
      modifies this
      ensures traitCollection == old(traitCollection)
      ensures ShouldRestyle(adaptive, traitCollection, previous) ==> StyledFor(traitCollection.userInterfaceStyle)
      ensures !ShouldRestyle(adaptive, traitCollection, previous) ==> unchanged(this)
    {
      if adaptive && HasDifferentColorAppearance(traitCollection, previous) {
        ApplyStyle(traitCollection.userInterfaceStyle);
      }
    }

    /** UIKit gives the button new traits and then notifies it; the button
        keeps showing the colours of its current appearance. */
    method ChangeTraits(traits: UITraitCollection)
      requires Valid()
      modifies this
      ensures traitCollection == traits && Valid()
    {
      var previous := traitCollection;
      traitCollection := traits;
      TraitCollectionDidChange(Some(previous));
      if !ShouldRestyle(adaptive, traitCollection, Some(previous)) {
        SkippedRestyleKeepsColours(color, adaptive, traitCollection, previous);
      }
    }
  }
}
