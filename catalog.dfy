/**
 * The two fixed catalogs of the page: six background treatments and four
 * templates, and the lookup `backgroundOptions.find((bg) => bg.id === id)`
 * with its fallback `?? backgroundOptions[0]`.
 */
module Catalog {
  import opened Wrappers
  import opened HexColor

  /** A background treatment. Its CSS `style` object is kept as an opaque string. */
  datatype BackgroundOption = BackgroundOption(
    id: string,
    title: string,  // `label` in the page; `label` is a Dafny keyword
    accent: string,
    description: string,
    style: string)

  /** A named bundle of editable values that `handleTemplate` applies at once. */
  datatype Template = Template(
    id: string,
    name: string,
    headline: string,
    subheading: string,
    badgeText: string,
    price: string,
    cta: string,
    backgroundId: string,
    accent: string,
    glow: real,
    rotation: int,
    scale: int,
    gradientOpacity: real)

  const BackgroundOptions: seq<BackgroundOption> := [
    BackgroundOption("clean-white", "Clean Studio", "#111827",
      "Minimal, bright, perfect for tech products", "clean studio radial gradients on #f7f8fb"),
    BackgroundOption("sunset", "Sunset Glow", "#f97316",
      "Warm gradients that spotlight lifestyle items", "amber to orange to violet linear gradient"),
    BackgroundOption("velocity", "Velocity", "#38bdf8",
      "Dynamic stripes for athletic & travel gear", "sky stripes on #020617"),
    BackgroundOption("studio-mint", "Studio Mint", "#0ea5e9",
      "Fresh pastel perfect for beauty or lifestyle", "pastel mint linear gradient"),
    BackgroundOption("precision", "Precision Grid", "#2563eb",
      "Crafted grid aesthetic for mechanical products", "32px slate grid on #0f172a"),
    BackgroundOption("editorial", "Editorial", "#fb7185",
      "High-fashion inspired editorial layout", "black to pink linear gradient")
  ]

  const Templates: seq<Template> := [
    Template("hero", "Hero Spotlight", "Premium Product Experience",
      "Designed for creators who need production-ready visuals.", "Best Seller", "$149",
      "Shop the drop", "clean-white", "#2563eb", 0.35, -6, 110, 0.4),
    Template("launch", "Launch Hype", "Launch Day Ready",
      "Capture attention with a cinematic gradient background.", "New Arrival", "$89",
      "Pre-order now", "sunset", "#fef08a", 0.55, 3, 120, 0.6),
    Template("athletic", "Athletic Pulse", "Engineered for speed",
      "Aerodynamic design, lightweight build, race-ready focus.", "Race Ready", "$219",
      "See specs", "velocity", "#38bdf8", 0.5, -12, 115, 0.55),
    Template("editorial", "Editorial Luxe", "Limited edition capsule",
      "Monochrome drama with a single accent highlight.", "Limited", "$329",
      "Discover", "editorial", "#fb7185", 0.45, 8, 105, 0.3)
  ]

  /** Index of the first option whose id is `id`, or |options| when there is none. */
  function FirstIndexWithId(options: seq<BackgroundOption>, id: string): (k: nat)
    ensures k <= |options|
    ensures forall j :: 0 <= j < k ==> options[j].id != id
    ensures k < |options| ==> options[k].id == id
  {
    if options == [] then 0
    else if options[0].id == id then 0
    else FirstIndexWithId(options[1..], id) + 1
  }

  /** `options.find((bg) => bg.id === id)`: the first match, or nothing. */
  function Find(options: seq<BackgroundOption>, id: string): (r: Option<BackgroundOption>)
  {
    var k := FirstIndexWithId(options, id);
    if k < |options| then Some(options[k]) else None
  }

  lemma {:induction false} FindSpec(options: seq<BackgroundOption>, id: string)
    ensures Find(options, id).None? <==> forall o :: o in options ==> o.id != id
    ensures Find(options, id).Some? ==>
              Find(options, id).value in options && Find(options, id).value.id == id
  {
    var k := FirstIndexWithId(options, id);
    if k == |options| {
      forall o | o in options ensures o.id != id {
        var j :| 0 <= j < |options| && options[j] == o;
      }
    }
  }

  predicate KnownBackground(id: string) {
    exists o :: o in BackgroundOptions && o.id == id
  }

  /** The `selectedBackground` memo: the option named `id`, else the first option. */
  function SelectedBackground(id: string): (bg: BackgroundOption)
    ensures bg in BackgroundOptions
    ensures KnownBackground(id) <==> bg.id == id
    ensures !KnownBackground(id) ==> bg == BackgroundOptions[0]
  {
    FindSpec(BackgroundOptions, id);
    match Find(BackgroundOptions, id)
    case Some(found) => found
    case None => BackgroundOptions[0]
  }

  /** No two background options share an id, so the lookup cannot pick the wrong one. */
  lemma BackgroundIdsDistinct()
    ensures forall i, j :: 0 <= i < j < |BackgroundOptions| ==>
              BackgroundOptions[i].id != BackgroundOptions[j].id
  {
  }

  /** Looking up an option's own id gives back exactly that option. */
  lemma {:induction false} LookupOwnId(bg: BackgroundOption)
    requires bg in BackgroundOptions
    ensures SelectedBackground(bg.id) == bg
  {
    BackgroundIdsDistinct();
    var i :| 0 <= i < |BackgroundOptions| && BackgroundOptions[i] == bg;
    var k := FirstIndexWithId(BackgroundOptions, bg.id);
    assert k <= i;
  }

  /** Every template names a background in the catalog: applying one never hits the fallback. */
  lemma TemplatesResolve()
    ensures forall t :: t in Templates ==> KnownBackground(t.backgroundId)
  {
    assert BackgroundOptions[0].id == Templates[0].backgroundId;
    assert BackgroundOptions[1].id == Templates[1].backgroundId;
    assert BackgroundOptions[2].id == Templates[2].backgroundId;
    assert BackgroundOptions[5].id == Templates[3].backgroundId;
  }

  /** The template preview `find(...)?.style`: the style of the option the template names, if any. */
  function TemplatePreviewStyle(t: Template): (style: Option<string>)
    ensures style.Some? <==> KnownBackground(t.backgroundId)
    ensures style.Some? ==> style.value == SelectedBackground(t.backgroundId).style
  {
    FindSpec(BackgroundOptions, t.backgroundId);
    match Find(BackgroundOptions, t.backgroundId)
    case Some(bg) => Some(bg.style)
    case None => None
  }

  /** Every template's preview finds its background, so none is drawn without a style. */
  lemma TemplatePreviewsResolve()
    ensures forall t :: t in Templates ==> TemplatePreviewStyle(t).Some?
  {
    TemplatesResolve();
  }

  lemma SevenCharColor(s: string)
    requires |s| == 7 && s[0] == '#'
    requires IsHexDigit(s[1]) && IsHexDigit(s[2]) && IsHexDigit(s[3])
    requires IsHexDigit(s[4]) && IsHexDigit(s[5]) && IsHexDigit(s[6])
    ensures IsSimpleColor(s)
  {
    assert forall i :: 0 <= i < 6 ==> s[1..][i] == s[i + 1];
  }

  /** Every background accent is a well-formed '#rrggbb' colour. */
  lemma BackgroundAccentsAreColors()
    ensures forall bg :: bg in BackgroundOptions ==> IsSimpleColor(bg.accent)
  {
    forall i | 0 <= i < |BackgroundOptions| ensures IsSimpleColor(BackgroundOptions[i].accent) {
      SevenCharColor(BackgroundOptions[i].accent);
    }
  }

  /** Every template accent is a well-formed '#rrggbb' colour. */
  lemma TemplateAccentsAreColors()
    ensures forall t :: t in Templates ==> IsSimpleColor(t.accent)
  {
    forall i | 0 <= i < |Templates| ensures IsSimpleColor(Templates[i].accent) {
      SevenCharColor(Templates[i].accent);
    }
  }

  /** The slider values of every template lie inside the ranges of their sliders. */
  lemma TemplatesWithinSliderRanges()
    ensures forall t :: t in Templates ==>
              0.0 <= t.glow <= 1.0 && 0.0 <= t.gradientOpacity <= 1.0 &&
              80 <= t.scale <= 160 && -20 <= t.rotation <= 20
  {
  }
}
