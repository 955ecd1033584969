/** The image enhancements panel: blur and sharpen sliders, a `shadow` section
    of four sliders and a `background` section (type, colour, blur intensity,
    brightness). Every handler spreads its patch over the current record, the
    section handlers one level down. */
module EnhancementsPanel {
  import opened Sparse

  /** The two top-level sliders; 0 is their off value. */
  datatype Slider = Blur | Sharpen

  function SliderKey(s: Slider): string
  {
    match s
    case Blur => "blur"
    case Sharpen => "sharpen"
  }

  /** The four sliders of the `shadow` section; 0 is their off value. */
  datatype ShadowSlider = ShadowBlur | Saturation | OffsetX | OffsetY

  function ShadowKey(s: ShadowSlider): string
  {
    match s
    case ShadowBlur => "blur"
    case Saturation => "saturation"
    case OffsetX => "offsetX"
    case OffsetY => "offsetY"
  }

  /** The top-level sliders that write `undefined` for 0. */
  predicate ZeroOffTop(k: string)
  {
    k == "blur" || k == "sharpen"
  }

  /** The nested fields that are never the number 0: the shadow sliders
      elide it, blur intensity writes "auto" instead, brightness elides it. */
  predicate ZeroOffNested(section: string, f: string)
  {
    || (section == "shadow" && (f == "blur" || f == "saturation" || f == "offsetX" || f == "offsetY"))
    || (section == "background" && (f == "blurIntensity" || f == "brightness"))
  }

  /** The presence/absence invariant: no field listed above stores 0. */
  ghost predicate Canonical(t: Record)
  {
    && (forall k :: ZeroOffTop(k) ==> Get(t, k) != Some(Num(0.0)))
    && (forall s, f :: ZeroOffNested(s, f) ==> Get(Sub(t, s), f) != Some(Num(0.0)))
  }

  /** Blur or sharpen slider: 0 clears the field, any other value is stored. */
  function Slide(t: Record, s: Slider, x: real): (r: Record)
    ensures x == 0.0 ==> SliderKey(s) !in r
    ensures x != 0.0 ==> Get(r, SliderKey(s)) == Some(Num(x))
    ensures SameExcept(r, t, {SliderKey(s)})
    ensures Canonical(t) ==> Canonical(r)
  {
    Merge(t, map[SliderKey(s) := Sparse.Slider(x, 0.0)])
  }

  /** `updateShadow({f: value === 0 ? undefined : value})`: 0 clears that
      shadow field, the other shadow fields and all other keys are kept. */
  function SlideShadow(t: Record, s: ShadowSlider, x: real): (r: Record)
    ensures x == 0.0 ==> ShadowKey(s) !in Sub(r, "shadow")
    ensures x != 0.0 ==> Get(Sub(r, "shadow"), ShadowKey(s)) == Some(Num(x))
    ensures SameExcept(Sub(r, "shadow"), Sub(t, "shadow"), {ShadowKey(s)})
    ensures HasObj(r, "shadow") && SameExcept(r, t, {"shadow"})
    ensures Canonical(t) ==> Canonical(r)
  {
    MergeAt(t, "shadow", map[ShadowKey(s) := Sparse.Slider(x, 0.0)])
  }

  /** Choosing a background type keeps the background's other fields. */
  function ChooseBackgroundType(t: Record, kind: string): (r: Record)
    ensures Get(Sub(r, "background"), "type") == Some(Str(kind))
    ensures SameExcept(Sub(r, "background"), Sub(t, "background"), {"type"})
    ensures HasObj(r, "background") && SameExcept(r, t, {"background"})
    ensures Canonical(t) ==> Canonical(r)
  {
    MergeAt(t, "background", map["type" := Some(Str(kind))])
  }

  /** The colour input stores its value as given. */
  function PickBackgroundColor(t: Record, color: string): (r: Record)
    ensures Get(Sub(r, "background"), "color") == Some(Str(color))
    ensures SameExcept(Sub(r, "background"), Sub(t, "background"), {"color"})
    ensures HasObj(r, "background") && SameExcept(r, t, {"background"})
    ensures Canonical(t) ==> Canonical(r)
  {
    MergeAt(t, "background", map["color" := Some(Str(color))])
  }

  /** The blur-intensity slider at 0 stores "auto" rather than clearing. */
  function SlideBlurIntensity(t: Record, x: real): (r: Record)
    ensures x == 0.0 ==> Get(Sub(r, "background"), "blurIntensity") == Some(Str("auto"))
    ensures x != 0.0 ==> Get(Sub(r, "background"), "blurIntensity") == Some(Num(x))
    ensures SameExcept(Sub(r, "background"), Sub(t, "background"), {"blurIntensity"})
    ensures HasObj(r, "background") && SameExcept(r, t, {"background"})
    ensures Canonical(t) ==> Canonical(r)
  {
    MergeAt(t, "background", map["blurIntensity" := Some(if x == 0.0 then Str("auto") else Num(x))])
  }

  /** The brightness slider at 0 clears the field. */
  function SlideBrightness(t: Record, x: real): (r: Record)
    ensures x == 0.0 ==> "brightness" !in Sub(r, "background")
    ensures x != 0.0 ==> Get(Sub(r, "background"), "brightness") == Some(Num(x))
    ensures SameExcept(Sub(r, "background"), Sub(t, "background"), {"brightness"})
    ensures HasObj(r, "background") && SameExcept(r, t, {"background"})
    ensures Canonical(t) ==> Canonical(r)
  {
    MergeAt(t, "background", map["brightness" := Sparse.Slider(x, 0.0)])
  }

  /** `update({blur, sharpen, shadow, background: undefined})`: clears the four
      keys this panel owns and keeps every other key. */
  function ResetAll(t: Record): (r: Record)
    ensures "blur" !in r && "sharpen" !in r && "shadow" !in r && "background" !in r
    ensures SameExcept(r, t, {"blur", "sharpen", "shadow", "background"})
    ensures Canonical(r)
  {
    Merge(t, Unset({"blur", "sharpen", "shadow", "background"}))
  }

  /** After "Reset All" no control of this panel has any effect left: moving a
      shadow slider and resetting is the same as resetting. */
  lemma ResetAllForgetsShadow(t: Record, s: ShadowSlider, x: real)
    ensures ResetAll(SlideShadow(t, s, x)) == ResetAll(t)
  {
    RecordsEqual(ResetAll(SlideShadow(t, s, x)), ResetAll(t));
  }
}
