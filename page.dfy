/**
 * The editor state of the `Home` component: sixteen `useState` fields and the
 * handlers that write them (reset, template, background choice, the inputs,
 * sliders and checkboxes, the image upload).
 *
 * `EditorState` is the value of all sixteen fields at once; `Home` holds them as
 * mutable fields and every handler states the whole new state in terms of the
 * old one. The pure transitions `WithTemplate` and `WithBackground` carry the
 * lemmas about what the handlers do.
 */
module Page {
  import opened Wrappers
  import opened HexColor
  import opened Catalog
  import Style

  datatype EditorState = EditorState(
    uploadedImage: Option<string>,
    headline: string,
    subheading: string,
    badgeText: string,
    price: string,
    cta: string,
    backgroundId: string,
    accentColor: string,
    glowIntensity: real,
    productRotation: int,
    productScale: int,
    gradientOpacity: real,
    floatingBadge: bool,
    ctaVisible: bool,
    overlayVisible: bool,
    showGrid: bool)

  /** The `useState` initial values, which `handleReset` restores. */
  const InitialState := EditorState(
    None,
    "Design the product story you want to tell.",
    "Upload your product shot, remix the background, and export polished visuals in seconds.",
    "Trending now",
    "$129",
    "Add to cart",
    "clean-white",
    "#2563eb",
    0.35,
    -5,
    110,
    0.45,
    true,
    true,
    true,
    false)

  // Slider ranges of the page's `<input type="range">` elements.
  const MinScale := 80
  const MaxScale := 160
  const MinRotation := -20
  const MaxRotation := 20

  /**
   * What every reachable state satisfies: the background id names a catalog
   * entry, the accent is a '#rrggbb' colour, and the slider-driven values lie
   * in their sliders' ranges.
   */
  predicate Consistent(s: EditorState) {
    && KnownBackground(s.backgroundId)
    && IsSimpleColor(s.accentColor)
    && 0.0 <= s.glowIntensity <= 1.0
    && 0.0 <= s.gradientOpacity <= 1.0
    && MinScale <= s.productScale <= MaxScale
    && MinRotation <= s.productRotation <= MaxRotation
  }

  lemma InitialIsConsistent()
    ensures Consistent(InitialState)
  {
    assert BackgroundOptions[0].id == "clean-white";
    SevenCharColor("#2563eb");
  }

  /** What `handleTemplate(t)` does to the state. */
  function WithTemplate(s: EditorState, t: Template): EditorState {
    s.(headline := t.headline, subheading := t.subheading, badgeText := t.badgeText,
       price := t.price, cta := t.cta, backgroundId := t.backgroundId, accentColor := t.accent,
       glowIntensity := t.glow, productRotation := t.rotation, productScale := t.scale,
       gradientOpacity := t.gradientOpacity,
       floatingBadge := true, ctaVisible := true, overlayVisible := true)
  }

  /** Only the grid toggle and the image survive a template: the rest of the prior state is irrelevant. */
  lemma TemplateOverwrites(s1: EditorState, s2: EditorState, t: Template)
    requires s1.showGrid == s2.showGrid && s1.uploadedImage == s2.uploadedImage
    ensures WithTemplate(s1, t) == WithTemplate(s2, t)
  {
  }

  /** A catalog template leaves a consistent state whose background is the template's own. */
  lemma {:induction false} TemplateResolves(s: EditorState, t: Template)
    requires t in Templates
    ensures Consistent(WithTemplate(s, t))
    ensures SelectedBackground(WithTemplate(s, t).backgroundId).id == t.backgroundId
  {
    TemplatesResolve();
    TemplateAccentsAreColors();
    TemplatesWithinSliderRanges();
  }

  /** What a background button's `onClick` does to the state. */
  function WithBackground(s: EditorState, bg: BackgroundOption): EditorState {
    s.(backgroundId := bg.id, accentColor := bg.accent)
  }

  /** After choosing a catalog background, the lookup gives exactly that option, and consistency is kept. */
  lemma {:induction false} BackgroundChoiceResolves(s: EditorState, bg: BackgroundOption)
    requires bg in BackgroundOptions
    ensures SelectedBackground(WithBackground(s, bg).backgroundId) == bg
    ensures Consistent(s) ==> Consistent(WithBackground(s, bg))
  {
    LookupOwnId(bg);
    BackgroundAccentsAreColors();
  }

  // ---------------------------------------------------------------------------
  // Derived styles of a state

  function GlowOf(s: EditorState): (g: Style.Glow)
    requires Consistent(s)
  {
    SimpleColorChannels(s.accentColor, 0.0);
    Style.AccentGlow(s.accentColor, s.glowIntensity, SelectedBackground(s.backgroundId))
  }

  /** In a consistent state the glow is the stored accent at 0.7 and 0.4 of the stored intensity. */
  lemma {:induction false} GlowOfConsistent(s: EditorState)
    requires Consistent(s)
    ensures ValidHex(s.accentColor)
    ensures GlowOf(s).wide.color == ToRgba(s.accentColor, 0.7 * s.glowIntensity)
    ensures GlowOf(s).tight.color == ToRgba(s.accentColor, 0.4 * s.glowIntensity)
  {
    SimpleColorChannels(s.accentColor, 0.0);
    Style.GlowInRange(s.accentColor, s.glowIntensity, SelectedBackground(s.backgroundId));
  }

  function PanelOf(s: EditorState): Style.LinearGradient
    requires Consistent(s)
  {
    SimpleColorChannels(s.accentColor, 0.0);
    Style.PanelGradient(s.accentColor)
  }

  function OverlayOf(s: EditorState): Option<Style.RadialGradient>
    requires Consistent(s)
  {
    SimpleColorChannels(s.accentColor, 0.0);
    Style.Overlay(s.accentColor, s.gradientOpacity, s.overlayVisible)
  }

  /** The side panel is tinted with the stored accent's own channels at alpha 0.08. */
  lemma {:induction false} PanelOfConsistent(s: EditorState)
    requires Consistent(s)
    ensures var a := s.accentColor;
            PanelOf(s) == Style.LinearGradient(145, Rgba(Byte(a[1], a[2]), Byte(a[3], a[4]), Byte(a[5], a[6]), 0.08), 70)
  {
    SimpleColorChannels(s.accentColor, 0.08);
  }

  /** The overlay, when switched on, is the stored accent's channels at the stored opacity, centred at 30% 30%. */
  lemma {:induction false} OverlayOfConsistent(s: EditorState)
    requires Consistent(s)
    ensures OverlayOf(s).Some? <==> s.overlayVisible
    ensures var a := s.accentColor;
            s.overlayVisible ==>
              OverlayOf(s) == Some(Style.RadialGradient(30, 30,
                Rgba(Byte(a[1], a[2]), Byte(a[3], a[4]), Byte(a[5], a[6]), s.gradientOpacity), 65))
  {
    SimpleColorChannels(s.accentColor, s.gradientOpacity);
  }

  // ---------------------------------------------------------------------------
  // Percent sliders

  /** `Math.round(x)`: rounds halves upwards. */
  function JsRound(x: real): (n: int)
    ensures x - 0.5 < n as real <= x + 0.5
  {
    (x + 0.5).Floor
  }

  /** `Math.round(fraction * 100)`: the position a percent slider shows for a stored fraction. */
  function SliderPosition(fraction: real): (p: int)
    ensures 0.0 <= fraction <= 1.0 ==> 0 <= p <= 100
  {
    JsRound(fraction * 100.0)
  }

  /** Moving a percent slider to p stores p / 100, which the slider shows again as p. */
  lemma SliderRoundTrip(p: int)
    ensures SliderPosition(p as real / 100.0) == p
  {
    assert (p as real / 100.0) * 100.0 == p as real;
  }

  // ---------------------------------------------------------------------------
  // The component's state

  class Home {
    var uploadedImage: Option<string>
    var headline: string
    var subheading: string
    var badgeText: string
    var price: string
    var cta: string
    var backgroundId: string
    var accentColor: string
    var glowIntensity: real
    var productRotation: int
    var productScale: int
    var gradientOpacity: real
    var floatingBadge: bool
    var ctaVisible: bool
    var overlayVisible: bool
    var showGrid: bool

    function State(): EditorState
      reads this
    {
      EditorState(uploadedImage, headline, subheading, badgeText, price, cta, backgroundId,
        accentColor, glowIntensity, productRotation, productScale, gradientOpacity,
        floatingBadge, ctaVisible, overlayVisible, showGrid)
    }

    predicate Valid()
      reads this
    {
      Consistent(State())
    }

    /** The state as the component first renders it. */
    constructor ()
      ensures State() == InitialState && Valid()
    {
      uploadedImage := None;
      headline := "Design the product story you want to tell.";
      subheading := "Upload your product shot, remix the background, and export polished visuals in seconds.";
      badgeText := "Trending now";
      price := "$129";
      cta := "Add to cart";
      backgroundId := "clean-white";
      accentColor := "#2563eb";
      glowIntensity := 0.35;
      productRotation := -5;
      productScale := 110;
      gradientOpacity := 0.45;
      floatingBadge := true;
      ctaVisible := true;
      overlayVisible := true;
      showGrid := false;
      new;
      InitialIsConsistent();
    }

    // The `useState` setters: each writes its own field and nothing else.
    // The ones whose field `Consistent` does not constrain keep the invariant.

    method SetUploadedImage(value: Option<string>)
      modifies this
      ensures State() == old(State()).(uploadedImage := value)
      ensures Valid() <==> old(Valid())
    {
      uploadedImage := value;
    }

    method SetHeadline(value: string)
      modifies this
      ensures State() == old(State()).(headline := value)
      ensures Valid() <==> old(Valid())
    {
      headline := value;
    }

    method SetSubheading(value: string)
      modifies this
      ensures State() == old(State()).(subheading := value)
      ensures Valid() <==> old(Valid())
    {
      subheading := value;
    }

    method SetBadgeText(value: string)
      modifies this
      ensures State() == old(State()).(badgeText := value)
      ensures Valid() <==> old(Valid())
    {
      badgeText := value;
    }

    method SetPrice(value: string)
      modifies this
      ensures State() == old(State()).(price := value)
      ensures Valid() <==> old(Valid())
    {
      price := value;
    }

    method SetCta(value: string)
      modifies this
      ensures State() == old(State()).(cta := value)
      ensures Valid() <==> old(Valid())
    {
      cta := value;
    }

    method SetBackgroundId(value: string)
      modifies this
      ensures State() == old(State()).(backgroundId := value)
    {
      backgroundId := value;
    }

    method SetAccentColor(value: string)
      modifies this
      ensures State() == old(State()).(accentColor := value)
    {
      accentColor := value;
    }

    method SetGlowIntensity(value: real)
      modifies this
      ensures State() == old(State()).(glowIntensity := value)
    {
      glowIntensity := value;
    }

    method SetProductRotation(value: int)
      modifies this
      ensures State() == old(State()).(productRotation := value)
    {
      productRotation := value;
    }

    method SetProductScale(value: int)
      modifies this
      ensures State() == old(State()).(productScale := value)
    {
      productScale := value;
    }

    method SetGradientOpacity(value: real)
      modifies this
      ensures State() == old(State()).(gradientOpacity := value)
    {
      gradientOpacity := value;
    }

    method SetFloatingBadge(value: bool)
      modifies this
      ensures State() == old(State()).(floatingBadge := value)
      ensures Valid() <==> old(Valid())
    {
      floatingBadge := value;
    }

    method SetCtaVisible(value: bool)
      modifies this
      ensures State() == old(State()).(ctaVisible := value)
      ensures Valid() <==> old(Valid())
    {
      ctaVisible := value;
    }

    method SetOverlayVisible(value: bool)
      modifies this
      ensures State() == old(State()).(overlayVisible := value)
      ensures Valid() <==> old(Valid())
    {
      overlayVisible := value;
    }

    method SetShowGrid(value: bool)
      modifies this
      ensures State() == old(State()).(showGrid := value)
      ensures Valid() <==> old(Valid())
    {
      showGrid := value;
    }

    // The handlers the page wires to its controls.

    /** `handleReset`: every field back to its initial value, whatever the state was. */
    method HandleReset()
      modifies this
      ensures State() == InitialState && Valid()
    {
      SetUploadedImage(None);
      SetHeadline("Design the product story you want to tell.");
      SetSubheading("Upload your product shot, remix the background, and export polished visuals in seconds.");
      SetBadgeText("Trending now");
      SetPrice("$129");
      SetCta("Add to cart");
      SetBackgroundId("clean-white");
      SetAccentColor("#2563eb");
      SetGlowIntensity(0.35);
      SetProductRotation(-5);
      SetProductScale(110);
      SetGradientOpacity(0.45);
      SetFloatingBadge(true);
      SetCtaVisible(true);
      SetOverlayVisible(true);
      SetShowGrid(false);
      InitialIsConsistent();
    }

    /** `handleTemplate(t)`, called by the template buttons with catalog templates. */
    method HandleTemplate(t: Template)
      requires t in Templates
      modifies this
      ensures State() == WithTemplate(old(State()), t) && Valid()
    {
      SetHeadline(t.headline);
      SetSubheading(t.subheading);
      SetBadgeText(t.badgeText);
      SetPrice(t.price);
      SetCta(t.cta);
      SetBackgroundId(t.backgroundId);
      SetAccentColor(t.accent);
      SetGlowIntensity(t.glow);
      SetProductRotation(t.rotation);
      SetProductScale(t.scale);
      SetGradientOpacity(t.gradientOpacity);
      SetFloatingBadge(true);
      SetCtaVisible(true);
      SetOverlayVisible(true);
      TemplateResolves(old(State()), t);
    }

    /** A background button's `onClick`: the id and the accent of that option, nothing else. */
    method SelectBackground(bg: BackgroundOption)
      requires bg in BackgroundOptions
      modifies this
      ensures State() == WithBackground(old(State()), bg)
      ensures SelectedBackground(backgroundId) == bg
      ensures old(Valid()) ==> Valid()
    {
      SetBackgroundId(bg.id);
      SetAccentColor(bg.accent);
      BackgroundChoiceResolves(old(State()), bg);
    }

    /**
     * `handleUpload` with the reader's data URL given directly: no file leaves
     * the state alone, a file replaces the image and nothing else.
     */
    method HandleUpload(file: Option<string>)
      modifies this
      ensures State() == if file.None? then old(State()) else old(State()).(uploadedImage := file)
      ensures Valid() <==> old(Valid())
    {
      if file.None? {
        return;
      }
      SetUploadedImage(file);
    }

    /** The colour input only ever yields a '#rrggbb' value. */
    method AccentColorInput(value: string)
      requires IsSimpleColor(value)
      modifies this
      ensures State() == old(State()).(accentColor := value)
      ensures old(Valid()) ==> Valid()
    {
      SetAccentColor(value);
    }

    /** The badge text input is disabled while the floating badge is hidden: typing then changes nothing. */
    method BadgeTextInput(value: string)
      modifies this
      ensures State() == if old(floatingBadge) then old(State()).(badgeText := value) else old(State())
      ensures Valid() <==> old(Valid())
    {
      if floatingBadge {
        SetBadgeText(value);
      }
    }

    /** The CTA text input is disabled while the CTA button is hidden: typing then changes nothing. */
    method CtaInput(value: string)
      modifies this
      ensures State() == if old(ctaVisible) then old(State()).(cta := value) else old(State())
      ensures Valid() <==> old(Valid())
    {
      if ctaVisible {
        SetCta(value);
      }
    }

    /** The glow slider runs over 0..100 and stores the fraction, which it shows again as the same position. */
    method GlowSlider(position: int)
      requires 0 <= position <= 100
      modifies this
      ensures State() == old(State()).(glowIntensity := position as real / 100.0)
      ensures old(Valid()) ==> Valid()
      ensures SliderPosition(glowIntensity) == position
    {
      SetGlowIntensity(position as real / 100.0);
      SliderRoundTrip(position);
    }

    method ScaleSlider(position: int)
      requires MinScale <= position <= MaxScale
      modifies this
      ensures State() == old(State()).(productScale := position)
      ensures old(Valid()) ==> Valid()
    {
      SetProductScale(position);
    }

    method RotationSlider(position: int)
      requires MinRotation <= position <= MaxRotation
      modifies this
      ensures State() == old(State()).(productRotation := position)
      ensures old(Valid()) ==> Valid()
    {
      SetProductRotation(position);
    }

    /** The gradient-focus slider runs over 0..100 and stores the fraction. */
    method GradientSlider(position: int)
      requires 0 <= position <= 100
      modifies this
      ensures State() == old(State()).(gradientOpacity := position as real / 100.0)
      ensures old(Valid()) ==> Valid()
      ensures SliderPosition(gradientOpacity) == position
    {
      SetGradientOpacity(position as real / 100.0);
      SliderRoundTrip(position);
    }
  }

  // ---------------------------------------------------------------------------
  // Scenarios, checked from the handlers' contracts alone

  /** The sunset accent `#f97316` is the colour (249, 115, 22). */
  lemma SunsetAccent(alpha: real)
    ensures IsSimpleColor("#f97316") && ValidHex("#f97316")
    ensures ToRgba("#f97316", alpha) == Rgba(249, 115, 22, alpha)
  {
    SevenCharColor("#f97316");
    SimpleColorChannels("#f97316", alpha);
  }

  method SunsetScenario() {
    var home := new Home();
    var sunset := BackgroundOptions[1];
    home.SelectBackground(sunset);
    assert home.accentColor == "#f97316";
    assert SelectedBackground(home.backgroundId).title == "Sunset Glow";
    SunsetAccent(0.85);
    assert ToRgba(home.accentColor, 0.85) == Rgba(249, 115, 22, 0.85);
  }

  method LaunchHypeScenario() {
    var home := new Home();
    home.SetCtaVisible(false);
    home.SetShowGrid(true);
    var launch := Templates[1];
    home.HandleTemplate(launch);
    assert home.headline == "Launch Day Ready" && home.price == "$89";
    assert home.floatingBadge && home.ctaVisible && home.overlayVisible && home.showGrid;
    assert home.backgroundId == "sunset";
  }

  method ResetIsIdempotent(image: string) {
    var home := new Home();
    home.HandleUpload(Some(image));
    home.GlowSlider(90);
    home.HandleReset();
    var once := home.State();
    home.HandleReset();
    assert home.State() == once == InitialState;
    assert home.uploadedImage == None && !home.showGrid;
  }
}
