# Product canvas editor: style derivation and editor state in Dafny

The page models the single-page product-photo editor in `app/src/app/page.tsx`.
The user uploads a product shot, picks a background treatment or a template,
adjusts colour, glow, scale, rotation, gradient focus and text, and exports the
composition. The model covers the part of the page with logic in it:

- **`HexColor`** (`hex_color.dfy`): `toRgba`. It strips the first `#` the way
  `String.prototype.replace` does, doubles the digits of the short form, reads
  the digits as `parseInt(_, 16)` does, and takes the channels with JavaScript's
  32-bit `>>` and `& 255`. `ToInt32`, the sign-propagating shift and the mask
  are written out. `JsChannels` proves that they pick out plain base-256 digits.
  The lemmas give the channels of six- and three-digit colours, show that `#2af`
  is `#22aaff`, and show that the strip removes exactly one `#` wherever it stands.
- **`Catalog`** (`catalog.dfy`): the six background options and four templates
  as constant sequences of records, with each background's CSS style kept as an
  opaque string. It also holds `backgroundOptions.find(...) ?? backgroundOptions[0]`
  (a first-match search plus its fallback) and the facts about the catalog:
  distinct ids, every template naming a known background, accents that are
  `#rrggbb`, and template values inside the slider ranges.
- **`ClassNames`** (`class_names.dfy`): `cn`. It keeps the truthy arguments (the
  empty string is falsy) and joins them with spaces. The module also gives the
  class string of a background button, which carries the active classes exactly
  when its id equals the stored `backgroundId`.
- **`Style`** (`style.dfy`): `accentGlow` as two shadow layers. The intensity is
  clamped to [0,1] and scaled by 0.7 and 0.4, and the accent falls back to the
  background's when `accentColor` is empty. The module also has the side-panel
  tint (`panelGradient`) and the radial accent overlay.
- **`Page`** (`page.dfy`): the sixteen `useState` fields as the class `Home`,
  with one method per `useState` setter. The handlers are built from those
  setters as the page builds them: `handleReset`, `handleTemplate`, the
  background buttons' `onClick`, the upload, the colour input, the disabled-able
  badge and CTA inputs, and the four sliders. Text inputs and checkboxes call a
  setter directly, so the setter is their handler. Every method states the whole
  new state as an update of `old(State())`. `Consistent` is the invariant every
  handler keeps: a known background id, a `#rrggbb` accent, and slider values in
  range. The pure transitions `WithTemplate` and `WithBackground` carry the
  lemmas about templates and background choice. Three client methods check three
  scenarios from the handlers' contracts alone: choosing "sunset", applying
  "Launch Hype", and resetting twice.

Two details of the code the model keeps as written:

- `toRgba` never clamps its alpha (`HexColor.ToRgba`); only `accentGlow` clamps
  (app/src/app/page.tsx:279). The overlay passes `gradientOpacity` as stored,
  which the slider keeps in [0,1] anyway.
- `handleTemplate` leaves `showGrid` and `uploadedImage` as they were
  (app/src/app/page.tsx:247-262, `Page.TemplateOverwrites`).

## Model

| member | source | states |
|---|---|---|
| HexColor.HexVal | app/src/app/page.tsx:177-184 | a hex digit of either case is worth less than 16, and decimal digits less than 10 |
| HexColor.HexValIgnoresCase | app/src/app/page.tsx:177-184 | `parseInt` reads upper- and lower-case hex digits alike |
| HexColor.IndexOf | app/src/app/page.tsx:174 | proof step for `RemoveFirstSpec`: the position found holds the character and no earlier position does |
| HexColor.RemoveFirst | app/src/app/page.tsx:174 | `s.replace(c, '')` with a one-character pattern; its contract is `RemoveFirstSpec` |
| HexColor.RemoveFirstSpec | app/src/app/page.tsx:174 | `replace('#', '')` removes only the first `#`: what comes before and after it is kept, and a string without `#` is unchanged |
| HexColor.Doubled | app/src/app/page.tsx:178-181 | splitting, doubling each character and joining gives twice the length, with character i equal to input character i/2 |
| HexColor.Pow16 | app/src/app/page.tsx:177-184 | proof step for the bound of `ParseHex`: powers of 16 are positive |
| HexColor.ParseHex | app/src/app/page.tsx:177-184 | n hex digits denote a number below 16^n |
| HexColor.ParseHexStep | app/src/app/page.tsx:177-184 | proof step for `SixDigitValue`: reading one more digit multiplies the value so far by 16 and adds the digit |
| HexColor.ToInt32 | app/src/app/page.tsx:185-187 | the 32-bit image the operators work on lies in the int32 range and differs from the number by a multiple of 2^32 |
| HexColor.Pow2 | app/src/app/page.tsx:185-186 | proof step for `JsChannels`: powers of two are positive |
| HexColor.And255 | app/src/app/page.tsx:185-187 | `& 255` yields a value in [0,255] |
| HexColor.ToInt32Offset | app/src/app/page.tsx:185-187 | proof step for `JsChannels`: ToInt32 subtracts a whole multiple of 2^32 |
| HexColor.ToInt32Small | app/src/app/page.tsx:185-187 | proof step for `JsChannels`: ToInt32 leaves int32 values alone |
| HexColor.DropWrap | app/src/app/page.tsx:185-187 | proof step for `JsChannels`: the 2^32 wrap changes the shifted values only by multiples of 256 and leaves the low byte alone |
| HexColor.DropBytes | app/src/app/page.tsx:185-187 | proof step for `JsChannels`: subtracting multiples of 256 leaves the low byte alone |
| HexColor.ShiftRight | app/src/app/page.tsx:185-186 | `x >> n` as ToInt32(x) divided by 2^n rounding down; its contract on the page's values is `JsChannels` |
| HexColor.JsChannels | app/src/app/page.tsx:185-187 | `(v >> 16) & 255`, `(v >> 8) & 255` and `v & 255` are the base-256 digits of any non-negative v |
| HexColor.Sanitize | app/src/app/page.tsx:174 | `hex.replace('#', '')`; what it removes is stated by `RemoveFirstSpec`, `HashAnywhere` and `OnlyFirstHashStripped` |
| HexColor.ColorValue | app/src/app/page.tsx:176-184 | the parsed number, read from the doubled digits for the short form; stated by `ShortFormIsDoubledLongForm` and `ThreeDigitChannels` |
| HexColor.ToRgba | app/src/app/page.tsx:173-189 | every channel lies in [0,255] and the alpha is emitted unchanged, without clamping |
| HexColor.Byte | app/src/app/page.tsx:184-187 | two hex digits make a byte, in [0,255]; `SixDigitChannels` shows each channel is one |
| HexColor.SixDigitChannels | app/src/app/page.tsx:184-188 | for six digits, r, g and b are the values of digit pairs 1-2, 3-4 and 5-6 |
| HexColor.PairsOfSix | app/src/app/page.tsx:184-187 | the base-256 digits of a six-digit hex number are its three digit pairs |
| HexColor.SixDigitValue | app/src/app/page.tsx:184 | six hex digits denote pair1·65536 + pair2·256 + pair3 |
| HexColor.DigitsOfBase256 | app/src/app/page.tsx:185-187 | proof step for `PairsOfSix`: division and remainder recover the three bytes of a 24-bit number |
| HexColor.ThreeDigitChannels | app/src/app/page.tsx:176-188 | for three digits, each channel is 17 times its digit |
| HexColor.ShortFormIsDoubledLongForm | app/src/app/page.tsx:174-184 | a three-digit colour gives the same result as the six-digit colour made by doubling each digit |
| HexColor.OnlyFirstHashStripped | app/src/app/page.tsx:174 | one leading `#` is removed, and a second leading `#` survives and makes the input malformed |
| HexColor.HashAnywhere | app/src/app/page.tsx:174 | the first `#` is removed wherever it stands: `a + "#" + b` reads as `a + b` |
| HexColor.ShortDigits | app/src/app/page.tsx:176-184 | proof step for `ShortFormExample`: `2af` and `22aaff` consist of hex digits |
| HexColor.ShortFormExample | app/src/app/page.tsx:173-189 | `#2af` and `#22aaff` both give the channels (0x22, 0xaa, 0xff) |
| HexColor.HashInsideExample | app/src/app/page.tsx:174 | `2a#f` gives the same colour as `#2af` |
| HexColor.SimpleColorChannels | app/src/app/page.tsx:427-431 | a `#rrggbb` value, as the colour input and the catalogs hold it, is valid and its channels are its digit pairs |
| Catalog.BackgroundOptions | app/src/app/page.tsx:40-105 | the six background options in page order (`clean-white`, `sunset`, `velocity`, `studio-mint`, `precision`, `editorial`) with their labels, accents and descriptions; the CSS style of each is an opaque string |
| Catalog.Templates | app/src/app/page.tsx:107-168 | the four templates in page order (`hero`, `launch`, `athletic`, `editorial`) with all thirteen fields as the page gives them |
| Catalog.FirstIndexWithId | app/src/app/page.tsx:213 | `find` stops at the first option with the id: every earlier option has another id, and the end is reached only when none matches |
| Catalog.Find | app/src/app/page.tsx:213 | `options.find(...)` as the first index with the id; its contract is `FindSpec` |
| Catalog.FindSpec | app/src/app/page.tsx:213 | `find` yields nothing exactly when no option has the id, and otherwise a member of the list with that id |
| Catalog.SelectedBackground | app/src/app/page.tsx:212-215 | the lookup always returns a catalog option: the one named by the id when it is known, and `backgroundOptions[0]` otherwise |
| Catalog.BackgroundIdsDistinct | app/src/app/page.tsx:40-105 | no two background options share an id |
| Catalog.LookupOwnId | app/src/app/page.tsx:212-215 | looking up an option's own id returns exactly that option |
| Catalog.TemplatesResolve | app/src/app/page.tsx:107-168 | every template's `backgroundId` names a catalog option, so applying a template never hits the fallback |
| Catalog.TemplatePreviewStyle | app/src/app/page.tsx:384-389 | a template preview has a style exactly when its background id is known, and that style is the one of the option the id names |
| Catalog.TemplatePreviewsResolve | app/src/app/page.tsx:384-389 | every catalog template's preview finds its background and has a style |
| Catalog.SevenCharColor | app/src/app/page.tsx:44 | a `#` followed by six hex digits is a well-formed colour |
| Catalog.BackgroundAccentsAreColors | app/src/app/page.tsx:40-105 | every background accent is a `#rrggbb` colour |
| Catalog.TemplateAccentsAreColors | app/src/app/page.tsx:107-168 | every template accent is a `#rrggbb` colour |
| Catalog.TemplatesWithinSliderRanges | app/src/app/page.tsx:107-168 | every template's glow, gradient opacity, scale and rotation lie inside their sliders' ranges |
| ClassNames.Truthy | app/src/app/page.tsx:171 | `Boolean(x)` on string, `false`, `null` and `undefined` arguments is true exactly for a non-empty string |
| ClassNames.Kept | app/src/app/page.tsx:170-171 | `filter(Boolean)` keeps only non-empty strings that were arguments, never more than there were, and keeps nothing exactly when every argument is falsy |
| ClassNames.KeptSingle | app/src/app/page.tsx:170-171 | one argument is kept, as its text, exactly when it is truthy; with `KeptAppend` this fixes the kept list and its order |
| ClassNames.KeptKeepsTruthy | app/src/app/page.tsx:170-171 | a string is kept exactly when it is non-empty and was an argument: every truthy argument survives the filter |
| ClassNames.Join | app/src/app/page.tsx:170-171 | joining nothing gives the empty string, and joining one string gives that string |
| ClassNames.JoinStartsWithFirst | app/src/app/page.tsx:170-171 | the joined string begins with the first part |
| ClassNames.JoinAppend | app/src/app/page.tsx:170-171 | `join(sep)` of two non-empty lists is their joins with one `sep` between |
| ClassNames.Cn | app/src/app/page.tsx:170-171 | the class string is empty exactly when every argument is falsy |
| ClassNames.CnAppend | app/src/app/page.tsx:170-171 | the class strings of two argument lists that each hold a truthy argument are joined by a single space |
| ClassNames.KeptAppend | app/src/app/page.tsx:170-171 | filtering distributes over concatenation of the argument lists |
| ClassNames.CnSkipsFalsy | app/src/app/page.tsx:170-171 | a falsy argument (`false`, `null`, `undefined`, `""`) anywhere leaves the result as it would be without it |
| ClassNames.When | app/src/app/page.tsx:356 | `cond && text` passes the classes when the condition holds and a falsy value otherwise |
| ClassNames.OptionButtonClass | app/src/app/page.tsx:354-357 | the class arguments of a background button; its contract is `OptionButtonHighlight` |
| ClassNames.OptionButtonHighlight | app/src/app/page.tsx:354-357 | a background button carries the active classes exactly when its id equals `backgroundId`; with an unknown id the page shows the fallback option but highlights no button |
| Style.Clamp01 | app/src/app/page.tsx:279 | `Math.max(0, Math.min(1, g))` lies in [0,1], is g inside that range, and is the nearer end outside it |
| Style.Clamp01Monotone | app/src/app/page.tsx:279 | clamping never reverses order |
| Style.EffectiveAccent | app/src/app/page.tsx:278 | the accent, or the selected background's when it is empty; stated by `GlowIgnoresBackground` and `GlowFallsBackToBackground` |
| Style.AccentGlow | app/src/app/page.tsx:277-284 | the wide layer's alpha lies in [0,0.7] and the tight layer's in [0,0.4] |
| Style.GlowMonotone | app/src/app/page.tsx:277-284 | raising the intensity never lowers either layer's alpha |
| Style.GlowSaturates | app/src/app/page.tsx:279 | intensities above 1 or below 0 glow exactly as 1 or 0 do |
| Style.GlowInRange | app/src/app/page.tsx:278-283 | for an intensity g in [0,1] the layers are the accent's channels at alpha 0.7·g and 0.4·g |
| Style.GlowIgnoresBackground | app/src/app/page.tsx:278 | a non-empty accent decides the glow whatever the selected background |
| Style.GlowFallsBackToBackground | app/src/app/page.tsx:278 | an empty accent glows in the selected background's accent |
| Style.PanelGradient | app/src/app/page.tsx:286-288 | the panel tint has alpha 0.08; its channels are the accent's by `Page.PanelOfConsistent` |
| Style.Overlay | app/src/app/page.tsx:593-603 | the overlay exists exactly when it is switched on, and its alpha is the gradient opacity, unclamped; its channels are the accent's by `Page.OverlayOfConsistent` |
| Page.InitialState | app/src/app/page.tsx:193-210 | the sixteen `useState` initial values: no image, the default copy, `clean-white`, `#2563eb`, glow 0.35, rotation -5, scale 110, gradient 0.45, badge, CTA and overlay on, grid off |
| Page.InitialIsConsistent | app/src/app/page.tsx:193-210 | the initial state has a known background, a `#rrggbb` accent and slider values in range |
| Page.WithTemplate | app/src/app/page.tsx:247-262 | the state after `handleTemplate`; stated by `TemplateOverwrites`, `TemplateResolves` and `Home.HandleTemplate` |
| Page.TemplateOverwrites | app/src/app/page.tsx:247-262 | after a template only the grid toggle and the image depend on the prior state |
| Page.TemplateResolves | app/src/app/page.tsx:247-262 | a catalog template leaves a consistent state whose background lookup gives the template's background |
| Page.WithBackground | app/src/app/page.tsx:350-353 | the state after a background button's `onClick`; stated by `BackgroundChoiceResolves` and `Home.SelectBackground` |
| Page.BackgroundChoiceResolves | app/src/app/page.tsx:350-353 | after choosing an option the lookup returns exactly that option, and consistency is kept |
| Page.GlowOf | app/src/app/page.tsx:277-284 | the glow of a state; stated by `GlowOfConsistent` |
| Page.GlowOfConsistent | app/src/app/page.tsx:277-284 | in a consistent state the glow layers are the stored accent at 0.7 and 0.4 of the stored intensity, with no clamping |
| Page.PanelOf | app/src/app/page.tsx:286-288 | the panel tint of a state; stated by `PanelOfConsistent` |
| Page.PanelOfConsistent | app/src/app/page.tsx:286-288 | in a consistent state the tint is a 145-degree gradient from the stored accent's digit-pair channels at alpha 0.08, transparent at 70% |
| Page.OverlayOf | app/src/app/page.tsx:593-603 | the overlay of a state; stated by `OverlayOfConsistent` |
| Page.OverlayOfConsistent | app/src/app/page.tsx:593-603 | in a consistent state the overlay is present exactly when switched on, and is then centred at 30% 30% in the stored accent's digit-pair channels at the stored opacity, transparent at 65% |
| Page.JsRound | app/src/app/page.tsx:443 | `Math.round` lands within half a unit of its argument, rounding halves up |
| Page.SliderPosition | app/src/app/page.tsx:437-443 | the position a percent slider shows for a fraction in [0,1] lies in [0,100] |
| Page.SliderRoundTrip | app/src/app/page.tsx:443-444 | a percent slider moved to p stores p/100 and shows p again |
| Page.SunsetAccent | app/src/app/page.tsx:53-55 | the sunset accent `#f97316` is the colour (249, 115, 22) |
| Page.Home.constructor | app/src/app/page.tsx:193-210 | the component starts in the initial state, which is consistent |
| Page.Home.SetUploadedImage | app/src/app/page.tsx:193 | only the image changes, and consistency is unaffected |
| Page.Home.SetHeadline | app/src/app/page.tsx:404-409 | the headline input changes only the headline, and consistency is unaffected |
| Page.Home.SetSubheading | app/src/app/page.tsx:415-421 | the supporting-line input changes only the subheading, and consistency is unaffected |
| Page.Home.SetBadgeText | app/src/app/page.tsx:198 | only the badge text changes, and consistency is unaffected |
| Page.Home.SetPrice | app/src/app/page.tsx:506-510 | the price input changes only the price, and consistency is unaffected |
| Page.Home.SetCta | app/src/app/page.tsx:200 | only the CTA label changes, and consistency is unaffected |
| Page.Home.SetBackgroundId | app/src/app/page.tsx:201 | only the background id changes |
| Page.Home.SetAccentColor | app/src/app/page.tsx:202 | only the accent changes |
| Page.Home.SetGlowIntensity | app/src/app/page.tsx:203 | only the glow intensity changes |
| Page.Home.SetProductRotation | app/src/app/page.tsx:204 | only the rotation changes |
| Page.Home.SetProductScale | app/src/app/page.tsx:205 | only the scale changes |
| Page.Home.SetGradientOpacity | app/src/app/page.tsx:206 | only the gradient opacity changes |
| Page.Home.SetFloatingBadge | app/src/app/page.tsx:526-531 | the badge checkbox changes only that toggle, and consistency is unaffected |
| Page.Home.SetCtaVisible | app/src/app/page.tsx:535-540 | the CTA checkbox changes only that toggle, and consistency is unaffected |
| Page.Home.SetOverlayVisible | app/src/app/page.tsx:544-549 | the overlay checkbox changes only that toggle, and consistency is unaffected |
| Page.Home.SetShowGrid | app/src/app/page.tsx:553-558 | the grid checkbox changes only that toggle, and consistency is unaffected |
| Page.Home.HandleReset | app/src/app/page.tsx:226-245 | every field, including the image (cleared) and the grid (off), takes its initial value whatever the prior state was, so a second reset changes nothing |
| Page.Home.HandleTemplate | app/src/app/page.tsx:247-262 | the eleven template values are copied, the badge, CTA and overlay are forced on, the grid and the image are untouched, and the state is consistent afterwards |
| Page.Home.SelectBackground | app/src/app/page.tsx:347-353 | the id and accent become the option's and nothing else changes; the lookup then returns that option |
| Page.Home.HandleUpload | app/src/app/page.tsx:217-224 | no file leaves the state alone, and a file replaces only the image |
| Page.Home.AccentColorInput | app/src/app/page.tsx:427-432 | the colour input changes only the accent and keeps consistency |
| Page.Home.BadgeTextInput | app/src/app/page.tsx:493-499 | typing changes the badge text only while the badge is shown, since the input is disabled otherwise |
| Page.Home.CtaInput | app/src/app/page.tsx:516-521 | typing changes the CTA label only while the CTA is shown, since the input is disabled otherwise |
| Page.Home.GlowSlider | app/src/app/page.tsx:439-445 | position p in [0,100] stores p/100 and nothing else, keeps consistency, and the slider shows p again |
| Page.Home.ScaleSlider | app/src/app/page.tsx:452-458 | a position in [80,160] becomes the scale and nothing else changes |
| Page.Home.RotationSlider | app/src/app/page.tsx:464-470 | a position in [-20,20] becomes the rotation and nothing else changes |
| Page.Home.GradientSlider | app/src/app/page.tsx:478-484 | position p in [0,100] stores p/100 and nothing else, keeps consistency, and the slider shows p again |

## Left out

- HexColor.ToRgba: is defined only where the first-`#`-stripped input is 1 to 13 hex digits. On other input `parseInt` yields NaN, or stops at the first non-digit, or loses precision above 2^53, and that JavaScript-specific behaviour is not modelled.
- Page.Home.HandleUpload: takes the data URL that `FileReader` would produce instead of a file. The asynchronous read, a read that yields nothing, and the ordering of overlapping reads (last writer wins) are not modelled.
- `handleDownload` and `toPng` (app/src/app/page.tsx:264-275): a foreign DOM rasteriser and a browser download, outside what Dafny can state.
- Printing of the `rgba(...)`, `box-shadow` and gradient strings: JavaScript's number-to-text formatting of fractional alphas is float formatting. The model keeps the components (channels, alpha, offsets, blur, angles, stops).
- Floating point: glow and gradient opacity are exact reals, so `0.35 * 0.7` and `p / 100` have no rounding error here.
- The JSX layout, Tailwind class strings other than the background button's, the icons, the CSS `style` objects of the backgrounds (opaque strings here), the badge fill `toRgba(accentColor, 0.85)` (app/src/app/page.tsx:612) and the product transform `scale(productScale / 100) rotate(...)` (app/src/app/page.tsx:636): presentation without logic.
- React's `useMemo`/`useCallback` caching, batching of setter calls into one render, and re-render timing: framework mechanics. A handler's setters are applied in sequence and the handler's contract describes the state after all of them.
- The range inputs' own clamping and stepping: the slider methods take positions already inside `min`..`max`, because the browser delivers only those.
