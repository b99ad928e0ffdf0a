/**
 * The derived styles of the page: the two-layer accent glow (`accentGlow`), the
 * tinted side-panel gradient (`panelGradient`) and the radial accent overlay.
 * Each is kept as its components; the CSS text they are printed into is not modelled.
 */
module Style {
  import opened Wrappers
  import opened HexColor
  import opened Catalog

  /** `Math.max(0, Math.min(1, x))`. */
  function Clamp01(x: real): (r: real)
    ensures 0.0 <= r <= 1.0
    ensures 0.0 <= x <= 1.0 ==> r == x
    ensures x < 0.0 ==> r == 0.0
    ensures x > 1.0 ==> r == 1.0
  {
    var below := if 1.0 < x then 1.0 else x;
    if 0.0 < below then below else 0.0
  }

  lemma {:induction false} Clamp01Monotone(x: real, y: real)
    requires x <= y
    ensures Clamp01(x) <= Clamp01(y)
  {
  }

  /** One `0px <offsetY>px <blur>px <color>` shadow layer. */
  datatype Shadow = Shadow(offsetY: int, blur: int, color: Rgba)

  /** The wide, soft layer and the tight, sharp layer of the glow. */
  datatype Glow = Glow(wide: Shadow, tight: Shadow)

  /** `accentColor || selectedBackground.accent`: an empty accent falls back to the background's. */
  function EffectiveAccent(accentColor: string, selected: BackgroundOption): string {
    if accentColor == "" then selected.accent else accentColor
  }

  /** `accentGlow`: the intensity clamped to [0,1], then scaled by 0.7 and 0.4 for the two layers. */
  function AccentGlow(accentColor: string, glowIntensity: real, selected: BackgroundOption): (s: Glow)
    requires ValidHex(EffectiveAccent(accentColor, selected))
    ensures 0.0 <= s.wide.color.alpha <= 0.7
    ensures 0.0 <= s.tight.color.alpha <= 0.4
  {
    var accent := EffectiveAccent(accentColor, selected);
    var glow := Clamp01(glowIntensity);
    Glow(Shadow(48, 64, ToRgba(accent, glow * 0.7)), Shadow(12, 32, ToRgba(accent, glow * 0.4)))
  }

  /** A stronger intensity never makes either layer fainter. */
  lemma GlowMonotone(accentColor: string, g1: real, g2: real, selected: BackgroundOption)
    requires ValidHex(EffectiveAccent(accentColor, selected))
    requires g1 <= g2
    ensures AccentGlow(accentColor, g1, selected).wide.color.alpha <= AccentGlow(accentColor, g2, selected).wide.color.alpha
    ensures AccentGlow(accentColor, g1, selected).tight.color.alpha <= AccentGlow(accentColor, g2, selected).tight.color.alpha
  {
    Clamp01Monotone(g1, g2);
  }

  /** Intensities beyond the ends of [0,1] glow exactly as the ends do. */
  lemma GlowSaturates(accentColor: string, g: real, selected: BackgroundOption)
    requires ValidHex(EffectiveAccent(accentColor, selected))
    ensures g >= 1.0 ==> AccentGlow(accentColor, g, selected) == AccentGlow(accentColor, 1.0, selected)
    ensures g <= 0.0 ==> AccentGlow(accentColor, g, selected) == AccentGlow(accentColor, 0.0, selected)
  {
  }

  /** Within [0,1] the layers carry exactly 0.7 and 0.4 of the intensity, in the accent's channels. */
  lemma GlowInRange(accentColor: string, g: real, selected: BackgroundOption)
    requires ValidHex(EffectiveAccent(accentColor, selected))
    requires 0.0 <= g <= 1.0
    ensures var s := AccentGlow(accentColor, g, selected);
            var c := ToRgba(EffectiveAccent(accentColor, selected), 0.0);
            s.wide.color == c.(alpha := 0.7 * g) && s.tight.color == c.(alpha := 0.4 * g)
  {
  }

  /** A non-empty accent decides the glow whatever the background is. */
  lemma GlowIgnoresBackground(accentColor: string, g: real, bg1: BackgroundOption, bg2: BackgroundOption)
    requires ValidHex(accentColor)
    ensures ValidHex(EffectiveAccent(accentColor, bg1)) && ValidHex(EffectiveAccent(accentColor, bg2))
    ensures AccentGlow(accentColor, g, bg1) == AccentGlow(accentColor, g, bg2)
  {
  }

  /** An empty accent glows in the selected background's own accent. */
  lemma GlowFallsBackToBackground(g: real, selected: BackgroundOption)
    requires ValidHex(selected.accent)
    ensures AccentGlow("", g, selected) == AccentGlow(selected.accent, g, selected)
  {
  }

  /** `linear-gradient(145deg, <accent at 0.08>, transparent 70%)`. */
  datatype LinearGradient = LinearGradient(angle: int, from: Rgba, transparentAt: int)

  function PanelGradient(accentColor: string): (p: LinearGradient)
    requires ValidHex(accentColor)
    ensures p.from.alpha == 0.08
  {
    LinearGradient(145, ToRgba(accentColor, 0.08), 70)
  }

  /** `radial-gradient(circle at 30% 30%, <accent at gradientOpacity>, transparent 65%)`. */
  datatype RadialGradient = RadialGradient(centerX: int, centerY: int, from: Rgba, transparentAt: int)

  /** The overlay is drawn only while it is switched on; its alpha is the opacity, not clamped. */
  function Overlay(accentColor: string, gradientOpacity: real, overlayVisible: bool): (o: Option<RadialGradient>)
    requires overlayVisible ==> ValidHex(accentColor)
    ensures o.Some? <==> overlayVisible
    ensures o.Some? ==> o.value.from.alpha == gradientOpacity
  {
    if overlayVisible then Some(RadialGradient(30, 30, ToRgba(accentColor, gradientOpacity), 65))
    else None
  }
}
