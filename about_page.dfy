/** The about overlay: a tab icon in the corner that opens a description
    panel, and three touch areas (open, close, link) whose enabled flags
    follow which of the two images is showing.

    The pure part states each transition as a function on an `Overlay`
    value; the class `AboutPage` holds the same state in the touch areas and
    images it owns and updates them in place, each method proved to end in
    the state the matching function computes. */
module About {

  /** Opacity of an overlay image; the page only ever sets 0 or 1. */
  type Alpha = a: int | 0 <= a <= 1

  const Transparent: Alpha := 0
  const Opaque: Alpha := 1

  /** The address the link area hands to the web browser. */
  const LinkUrl: string := "http://sosolimited.com/?referrer=selfieselfie"

  /** The state the transitions touch: the overall visibility flag, the
      enabled flags of the three touch areas and the alphas of the two images. */
  datatype Overlay = Overlay(
    visible: bool,
    openEnabled: bool,
    closeEnabled: bool,
    linkEnabled: bool,
    iconAlpha: Alpha,
    descriptionAlpha: Alpha)
  {
    /** Collapsed form: only the tab shows and only the open area reacts. */
    predicate IconShown() {
      openEnabled && !closeEnabled && !linkEnabled &&
      iconAlpha == Opaque && descriptionAlpha == Transparent
    }

    /** Expanded form: the description shows and the close and link areas react. */
    predicate AboutShown() {
      !openEnabled && closeEnabled && linkEnabled &&
      iconAlpha == Transparent && descriptionAlpha == Opaque
    }

    /** The open area is enabled exactly when the close and link areas are not. */
    predicate ButtonsExclusive() {
      openEnabled == !closeEnabled && openEnabled == !linkEnabled
    }
  }

  /** Opening the description (the open area's action). */
  function AfterShowAbout(p: Overlay): (r: Overlay)
    ensures r.AboutShown() && r.ButtonsExclusive()
    ensures r.visible == p.visible
  {
    p.(openEnabled := false, linkEnabled := true, closeEnabled := true,
       iconAlpha := Transparent, descriptionAlpha := Opaque)
  }

  /** Collapsing back to the tab (the close area's action). */
  function AfterShowIcon(p: Overlay): (r: Overlay)
    ensures r.IconShown() && r.ButtonsExclusive()
    ensures r.visible == p.visible
  {
    p.(openEnabled := true, linkEnabled := false, closeEnabled := false,
       iconAlpha := Opaque, descriptionAlpha := Transparent)
  }

  /** Showing the page always starts from the collapsed form. */
  function AfterShow(p: Overlay): (r: Overlay)
    ensures r.visible && r.IconShown()
  {
    AfterShowIcon(p.(visible := true))
  }

  /** Hiding the page also resets it to the collapsed form. */
  function AfterHide(p: Overlay): (r: Overlay)
    ensures !r.visible && r.IconShown()
  {
    AfterShowIcon(p.(visible := false))
  }

  /** The calls that reach the page: its owner's show and hide, and the
      three touch areas' actions. */
  datatype Call = ShowAbout | ShowIcon | Show | Hide | OpenLink

  function Apply(p: Overlay, c: Call): Overlay
  {
    match c
    case ShowAbout => AfterShowAbout(p)
    case ShowIcon => AfterShowIcon(p)
    case Show => AfterShow(p)
    case Hide => AfterHide(p)
    case OpenLink => p
  }

  /** The state after the calls in `cs`, in order. */
  function ApplyAll(p: Overlay, cs: seq<Call>): Overlay
    decreases |cs|
  {
    if cs == [] then p else ApplyAll(Apply(p, cs[0]), cs[1..])
  }

  /** `n` copies of the same call. */
  function Repeat(c: Call, n: nat): (cs: seq<Call>)
  {
    if n == 0 then [] else [c] + Repeat(c, n - 1)
  }

  /** No sequence of calls ever enables two mutually exclusive areas. */
  lemma {:induction false} ApplyAllKeepsButtonsExclusive(p: Overlay, cs: seq<Call>)
    requires p.ButtonsExclusive()
    ensures ApplyAll(p, cs).ButtonsExclusive()
    ensures !(ApplyAll(p, cs).openEnabled && ApplyAll(p, cs).closeEnabled)
    decreases |cs|
  {
    if cs != [] {
      ApplyAllKeepsButtonsExclusive(Apply(p, cs[0]), cs[1..]);
    }
  }

  /** Only show and hide change visibility. */
  lemma {:induction false} ApplyAllVisibility(p: Overlay, cs: seq<Call>)
    requires forall i :: 0 <= i < |cs| ==> cs[i] != Show && cs[i] != Hide
    ensures ApplyAll(p, cs).visible == p.visible
    decreases |cs|
  {
    if cs != [] {
      ApplyAllVisibility(Apply(p, cs[0]), cs[1..]);
    }
  }

  /** The last show or hide decides visibility, whatever calls follow it. */
  lemma {:induction false} LastShowOrHideDecidesVisibility(p: Overlay, cs: seq<Call>)
    requires forall i :: 0 <= i < |cs| ==> cs[i] != Show && cs[i] != Hide
    ensures ApplyAll(p, [Show] + cs).visible
    ensures !ApplyAll(p, [Hide] + cs).visible
  {
    assert ([Show] + cs)[1..] == cs;
    assert ([Hide] + cs)[1..] == cs;
    ApplyAllVisibility(AfterShow(p), cs);
    ApplyAllVisibility(AfterHide(p), cs);
  }

  /** Opening the description any number of times is the same as opening it once. */
  lemma {:induction false} ShowAboutIdempotent(p: Overlay, n: nat)
    requires n >= 1
    ensures ApplyAll(p, Repeat(ShowAbout, n)) == AfterShowAbout(p)
    decreases n
  {
    if n > 1 {
      assert AfterShowAbout(AfterShowAbout(p)) == AfterShowAbout(p);
      ShowAboutIdempotent(AfterShowAbout(p), n - 1);
    }
  }

  /** Collapsing any number of times is the same as collapsing once. */
  lemma {:induction false} ShowIconIdempotent(p: Overlay, n: nat)
    requires n >= 1
    ensures ApplyAll(p, Repeat(ShowIcon, n)) == AfterShowIcon(p)
    decreases n
  {
    if n > 1 {
      assert AfterShowIcon(AfterShowIcon(p)) == AfterShowIcon(p);
      ShowIconIdempotent(AfterShowIcon(p), n - 1);
    }
  }

  /** A tappable area; only its enabled flag is modelled. */
  class TouchArea {
    var enabled: bool

    /** A new area reacts to touches until it is disabled. */
    constructor ()
      ensures enabled
    {
      enabled := true;
    }

    method SetEnabled(e: bool)
      modifies this
      ensures enabled == e
    {
      enabled := e;
    }
  }

  /** An overlay image; only its alpha is modelled. */
  class Image {
    var alpha: Alpha

    /** A new image is fully opaque. */
    constructor ()
      ensures alpha == Opaque
    {
      alpha := Opaque;
    }

    method SetAlpha(a: Alpha)
      modifies this
      ensures alpha == a
    {
      alpha := a;
    }
  }

  /** What one frame of `AboutPage.Draw` puts on screen, in drawing order. */
  datatype Sprite = IconSprite(alpha: Alpha) | DescriptionSprite(alpha: Alpha)

  class AboutPage {
    var visible: bool
    const openButton: TouchArea
    const closeButton: TouchArea
    const linkButton: TouchArea
    const icon: Image
    const description: Image

    /** The three touch areas and the two images are distinct objects, and
        the open area is enabled exactly when the close and link areas are not. */
    ghost predicate Valid()
      reads this, openButton, closeButton, linkButton, icon, description
    {
      openButton != closeButton && openButton != linkButton && closeButton != linkButton &&
      icon != description &&
      State().ButtonsExclusive()
    }

    function State(): Overlay
      reads this, openButton, closeButton, linkButton, icon, description
    {
      Overlay(visible, openButton.enabled, closeButton.enabled, linkButton.enabled,
              icon.alpha, description.alpha)
    }

    /** Setup: creates the images and areas, hides the description and
        disables the close and link areas. The initial `visible` is declared
        outside this file, so it is a parameter. */
    constructor Setup(initiallyVisible: bool)
      ensures Valid()
      ensures fresh(openButton) && fresh(closeButton) && fresh(linkButton)
      ensures fresh(icon) && fresh(description)
      ensures State() == Overlay(initiallyVisible, true, false, false, Opaque, Transparent)
      ensures State().IconShown()
    {
      visible := initiallyVisible;
      var d := new Image();
      var i := new Image();
      d.SetAlpha(Transparent);
      var o := new TouchArea();
      var c := new TouchArea();
      var l := new TouchArea();
      description, icon := d, i;
      openButton, closeButton, linkButton := o, c, l;
      new;
      closeButton.SetEnabled(false);
      linkButton.SetEnabled(false);
    }

    method ShowAbout()
      requires Valid()
      modifies openButton, closeButton, linkButton, icon, description
      ensures Valid()
      ensures State() == AfterShowAbout(old(State()))
    {
      openButton.SetEnabled(false);
      linkButton.SetEnabled(true);
      closeButton.SetEnabled(true);
      icon.SetAlpha(Transparent);
      description.SetAlpha(Opaque);
    }

    method ShowIcon()
      requires Valid()
      modifies openButton, closeButton, linkButton, icon, description
      ensures Valid()
      ensures State() == AfterShowIcon(old(State()))
    {
      openButton.SetEnabled(true);
      linkButton.SetEnabled(false);
      closeButton.SetEnabled(false);
      icon.SetAlpha(Opaque);
      description.SetAlpha(Transparent);
    }

    method Show()
      requires Valid()
      modifies this, openButton, closeButton, linkButton, icon, description
      ensures Valid()
      ensures State() == AfterShow(old(State()))
    {
      visible := true;
      ShowIcon();
    }

    method Hide()
      requires Valid()
      modifies this, openButton, closeButton, linkButton, icon, description
      ensures Valid()
      ensures State() == AfterHide(old(State()))
    {
      visible := false;
      ShowIcon();
    }

    /** Draws the tab and then the description, each at its own alpha, and
        nothing at all while the page is hidden. */
    method Draw() returns (drawn: seq<Sprite>)
      ensures !visible ==> drawn == []
      ensures visible ==> drawn == [IconSprite(icon.alpha), DescriptionSprite(description.alpha)]
    {
      drawn := [];
      if visible {
        drawn := drawn + [IconSprite(icon.alpha)];
        drawn := drawn + [DescriptionSprite(description.alpha)];
      }
    }

    /** Returns the address handed to the web browser; no flag, alpha or
        visibility changes. */
    method OpenLink() returns (url: string)
      ensures url == LinkUrl
    {
      url := LinkUrl;
    }
  }
}
