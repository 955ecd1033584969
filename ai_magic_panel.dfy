/** The AI magic panel over the image `AiMagic` record: five sections
    (`background`, `editing`, `shadowLighting`, `generation`, `cropping`), each
    edited by spreading a patch one level down (`shadowLighting` and the
    generative-fill controls two levels down), a reset per section and a
    "Reset All". */
module AiMagicPanel {
  import opened Sparse

  datatype Section = Background | Editing | ShadowLighting | Generation | Cropping

  function SectionKey(s: Section): string
  {
    match s
    case Background => "background"
    case Editing => "editing"
    case ShadowLighting => "shadowLighting"
    case Generation => "generation"
    case Cropping => "cropping"
  }

  /** The on/off switches: on stores `true`, off clears the field. */
  datatype SwitchControl = RemoveBackground | Retouch | Upscale | Variation

  function SwitchSection(c: SwitchControl): Section
  {
    match c
    case RemoveBackground => Background
    case Retouch => Editing
    case Upscale => Editing
    case Variation => Generation
  }

  function SwitchKey(c: SwitchControl): string
  {
    match c
    case RemoveBackground => "remove"
    case Retouch => "retouch"
    case Upscale => "upscale"
    case Variation => "variation"
  }

  /** The text inputs that clear their field when emptied. */
  datatype TextControl = ChangePrompt | EditingPrompt | TextPrompt | ObjectName

  function TextSection(c: TextControl): Section
  {
    match c
    case ChangePrompt => Background
    case EditingPrompt => Editing
    case TextPrompt => Generation
    case ObjectName => Cropping
  }

  function TextKey(c: TextControl): string
  {
    match c
    case ChangePrompt => "changePrompt"
    case EditingPrompt => "prompt"
    case TextPrompt => "textPrompt"
    case ObjectName => "objectName"
  }

  /** The selects whose "none" entry clears the field. */
  datatype SelectControl = BackgroundMode | CropType

  function SelectSection(c: SelectControl): Section
  {
    match c
    case BackgroundMode => Background
    case CropType => Cropping
  }

  function SelectKey(c: SelectControl): string
  {
    match c
    case BackgroundMode => "mode"
    case CropType => "type"
  }

  /** The three drop-shadow sliders; 0 is their off value. */
  datatype LightSlider = Azimuth | Elevation | LightSaturation

  function LightKey(s: LightSlider): string
  {
    match s
    case Azimuth => "azimuth"
    case Elevation => "elevation"
    case LightSaturation => "saturation"
  }

  datatype Dimension = Width | Height

  function DimensionKey(d: Dimension): string
  {
    match d
    case Width => "width"
    case Height => "height"
  }

  /** The generative-fill record nested in `background`. */
  function Fill(t: Record): Record
  {
    Sub(Sub(t, "background"), "generativeFill")
  }

  /** The drop-shadow record nested in `shadowLighting`. */
  function DropShadow(t: Record): Record
  {
    Sub(Sub(t, "shadowLighting"), "dropShadow")
  }

  /** The off value of each control that writes `undefined` instead of
      storing it, by section and field: `false` for the switches, "" for the
      text inputs, "none" for the selects, 1 for the zoom slider. */
  function Off(section: string, f: string): Option<Value>
  {
    if section == "background" then
      if f == "remove" then Some(Bool(false))
      else if f == "changePrompt" then Some(Str(""))
      else if f == "mode" then Some(Str("none"))
      else None
    else if section == "editing" then
      if f == "retouch" || f == "upscale" then Some(Bool(false))
      else if f == "prompt" then Some(Str(""))
      else None
    else if section == "generation" then
      if f == "variation" then Some(Bool(false))
      else if f == "textPrompt" then Some(Str(""))
      else None
    else if section == "cropping" then
      if f == "objectName" then Some(Str(""))
      else if f == "type" then Some(Str("none"))
      else if f == "zoom" then Some(Num(1.0))
      else None
    else None
  }

  /** The same for the controls two levels down: the generative fill's
      prompt ("") and crop mode ("none"), the drop-shadow sliders (0). */
  function NestedOff(section: string, inner: string, f: string): Option<Value>
  {
    if section == "background" && inner == "generativeFill" then
      if f == "prompt" then Some(Str(""))
      else if f == "cropMode" then Some(Str("none"))
      else None
    else if section == "shadowLighting" && inner == "dropShadow" then
      if f == "azimuth" || f == "elevation" || f == "saturation" then Some(Num(0.0))
      else None
    else None
  }

  /** No control's off value is stored in `m`, the record of section `s`. */
  ghost predicate SectionOk(s: string, m: Record)
  {
    && (forall f :: Off(s, f).Some? ==> Get(m, f) != Off(s, f))
    && (forall i, f :: NestedOff(s, i, f).Some? ==> Get(Sub(m, i), f) != NestedOff(s, i, f))
  }

  /** The presence/absence invariant of the panel: no switch is stored as
      `false`, no text as "", no select as "none", no slider at its off value. */
  ghost predicate Canonical(t: Record)
  {
    forall s :: SectionOk(s, Sub(t, s))
  }

  /** An edit confined to one section keeps the invariant when that section
      keeps it. */
  lemma CanonicalFrame(t: Record, r: Record, s: Section)
    requires Canonical(t)
    requires SameExcept(r, t, {SectionKey(s)})
    requires SectionOk(SectionKey(s), Sub(r, SectionKey(s)))
    ensures Canonical(r)
  {
    forall k ensures SectionOk(k, Sub(r, k)) {
      if k != SectionKey(s) {
        SubKept(r, t, {SectionKey(s)}, k);
      }
    }
  }

  /** An edit of field `f` of a section record keeps it free of off values
      when the new value of `f` (and, for a nested record, its fields) is not
      an off value. */
  lemma FieldEditOk(s: string, m: Record, m0: Record, f: string)
    requires SectionOk(s, m0)
    requires SameExcept(m, m0, {f})
    requires Off(s, f).Some? ==> Get(m, f) != Off(s, f)
    requires forall g :: NestedOff(s, f, g).Some? ==> Get(Sub(m, f), g) != NestedOff(s, f, g)
    ensures SectionOk(s, m)
  {
    forall i | i != f ensures Sub(m, i) == Sub(m0, i) {
      SubKept(m, m0, {f}, i);
    }
  }

  /** `updateShadowLighting(p)`: `p` merged into `shadowLighting.dropShadow`;
      the other drop-shadow keys, the other `shadowLighting` keys and every
      sibling section are kept. */
  function UpdateShadowLighting(t: Record, p: Patch): (r: Record)
    ensures forall f :: Get(DropShadow(r), f) == (if f in p then p[f] else Get(DropShadow(t), f))
    ensures SameExcept(Sub(r, "shadowLighting"), Sub(t, "shadowLighting"), {"dropShadow"})
    ensures HasObj(r, "shadowLighting") && HasObj(Sub(r, "shadowLighting"), "dropShadow")
    ensures SameExcept(r, t, {"shadowLighting"})
  {
    MergeAt2(t, "shadowLighting", "dropShadow", p)
  }

  /** A switch: on stores `true`, off clears the field, never `false`. */
  function Toggle(t: Record, c: SwitchControl, on: bool): (r: Record)
    ensures on ==> Get(Sub(r, SectionKey(SwitchSection(c))), SwitchKey(c)) == Some(Bool(true))
    ensures !on ==> SwitchKey(c) !in Sub(r, SectionKey(SwitchSection(c)))
    ensures SameExcept(Sub(r, SectionKey(SwitchSection(c))), Sub(t, SectionKey(SwitchSection(c))), {SwitchKey(c)})
    ensures HasObj(r, SectionKey(SwitchSection(c))) && SameExcept(r, t, {SectionKey(SwitchSection(c))})
  {
    MergeAt(t, SectionKey(SwitchSection(c)), map[SwitchKey(c) := Switch(on)])
  }

  /** A text input: empty text clears the field, other text is stored. */
  function EditText(t: Record, c: TextControl, text: string): (r: Record)
    ensures text == "" ==> TextKey(c) !in Sub(r, SectionKey(TextSection(c)))
    ensures text != "" ==> Get(Sub(r, SectionKey(TextSection(c))), TextKey(c)) == Some(Str(text))
    ensures SameExcept(Sub(r, SectionKey(TextSection(c))), Sub(t, SectionKey(TextSection(c))), {TextKey(c)})
    ensures HasObj(r, SectionKey(TextSection(c))) && SameExcept(r, t, {SectionKey(TextSection(c))})
  {
    MergeAt(t, SectionKey(TextSection(c)), map[TextKey(c) := TextOrUnset(text)])
  }

  /** Mode or crop-type select: "none" clears the field, other choices are
      stored. */
  function Choose(t: Record, c: SelectControl, choice: string): (r: Record)
    ensures choice == "none" ==> SelectKey(c) !in Sub(r, SectionKey(SelectSection(c)))
    ensures choice != "none" ==> Get(Sub(r, SectionKey(SelectSection(c))), SelectKey(c)) == Some(Str(choice))
    ensures SameExcept(Sub(r, SectionKey(SelectSection(c))), Sub(t, SectionKey(SelectSection(c))), {SelectKey(c)})
    ensures HasObj(r, SectionKey(SelectSection(c))) && SameExcept(r, t, {SectionKey(SelectSection(c))})
  {
    MergeAt(t, SectionKey(SelectSection(c)), map[SelectKey(c) := Choice(choice, "none")])
  }

  /** The generative-fill switch: on stores a fill record with every field
      unset (whatever it held before), off removes `generativeFill`. */
  function SetGenerativeFill(t: Record, on: bool): (r: Record)
    ensures on ==> Get(Sub(r, "background"), "generativeFill") == Some(Obj(map[]))
    ensures !on ==> "generativeFill" !in Sub(r, "background")
    ensures SameExcept(Sub(r, "background"), Sub(t, "background"), {"generativeFill"})
    ensures HasObj(r, "background") && SameExcept(r, t, {"background"})
  {
    var fill := Merge(map[], Unset({"prompt", "width", "height", "cropMode"}));
    assert fill == map[] by { MergeUnset(map[], {"prompt", "width", "height", "cropMode"}); }
    MergeAt(t, "background", map["generativeFill" := if on then Some(Obj(fill)) else None])
  }

  /** The generative-fill prompt: empty text clears it; the fill's other
      fields, the background's other fields and other sections are kept. */
  function EditFillPrompt(t: Record, text: string): (r: Record)
    ensures text == "" ==> "prompt" !in Fill(r)
    ensures text != "" ==> Get(Fill(r), "prompt") == Some(Str(text))
    ensures SameExcept(Fill(r), Fill(t), {"prompt"})
    ensures SameExcept(Sub(r, "background"), Sub(t, "background"), {"generativeFill"})
    ensures SameExcept(r, t, {"background"})
  {
    MergeAt2(t, "background", "generativeFill", map["prompt" := TextOrUnset(text)])
  }

  /** Generative-fill width or height: empty input clears it, other input
      stores what `parseInt` gives. */
  function EditFillSize(t: Record, d: Dimension, text: string, parsed: Option<int>): (r: Record)
    ensures text == "" ==> DimensionKey(d) !in Fill(r)
    ensures text != "" ==> Get(Fill(r), DimensionKey(d)) == Some(IntNumber(parsed))
    ensures SameExcept(Fill(r), Fill(t), {DimensionKey(d)})
    ensures SameExcept(Sub(r, "background"), Sub(t, "background"), {"generativeFill"})
    ensures SameExcept(r, t, {"background"})
  {
    MergeAt2(t, "background", "generativeFill", map[DimensionKey(d) := ParsedOrUnset(text, parsed)])
  }

  /** Generative-fill crop mode: "none" clears it. */
  function ChooseFillCropMode(t: Record, choice: string): (r: Record)
    ensures choice == "none" ==> "cropMode" !in Fill(r)
    ensures choice != "none" ==> Get(Fill(r), "cropMode") == Some(Str(choice))
    ensures SameExcept(Fill(r), Fill(t), {"cropMode"})
    ensures SameExcept(Sub(r, "background"), Sub(t, "background"), {"generativeFill"})
    ensures SameExcept(r, t, {"background"})
  {
    MergeAt2(t, "background", "generativeFill", map["cropMode" := Choice(choice, "none")])
  }

  /** Azimuth, elevation or saturation slider: 0 clears the field. */
  function SlideLight(t: Record, s: LightSlider, x: real): (r: Record)
    ensures x == 0.0 ==> LightKey(s) !in DropShadow(r)
    ensures x != 0.0 ==> Get(DropShadow(r), LightKey(s)) == Some(Num(x))
    ensures SameExcept(DropShadow(r), DropShadow(t), {LightKey(s)})
    ensures SameExcept(r, t, {"shadowLighting"})
  {
    UpdateShadowLighting(t, map[LightKey(s) := Sparse.Slider(x, 0.0)])
  }

  /** The zoom slider: 1 clears the field. */
  function SlideZoom(t: Record, x: real): (r: Record)
    ensures x == 1.0 ==> "zoom" !in Sub(r, "cropping")
    ensures x != 1.0 ==> Get(Sub(r, "cropping"), "zoom") == Some(Num(x))
    ensures SameExcept(Sub(r, "cropping"), Sub(t, "cropping"), {"zoom"})
    ensures HasObj(r, "cropping") && SameExcept(r, t, {"cropping"})
  {
    MergeAt(t, "cropping", map["zoom" := Sparse.Slider(x, 1.0)])
  }

  /** Cropping width or height: empty input clears it. */
  function EditCropSize(t: Record, d: Dimension, text: string, parsed: Option<int>): (r: Record)
    ensures text == "" ==> DimensionKey(d) !in Sub(r, "cropping")
    ensures text != "" ==> Get(Sub(r, "cropping"), DimensionKey(d)) == Some(IntNumber(parsed))
    ensures SameExcept(Sub(r, "cropping"), Sub(t, "cropping"), {DimensionKey(d)})
    ensures HasObj(r, "cropping") && SameExcept(r, t, {"cropping"})
  {
    MergeAt(t, "cropping", map[DimensionKey(d) := ParsedOrUnset(text, parsed)])
  }

  /** A section's reset button: that section is removed, every other key is
      kept. */
  function ResetSection(t: Record, s: Section): (r: Record)
    ensures SectionKey(s) !in r
    ensures SameExcept(r, t, {SectionKey(s)})
  {
    Merge(t, Unset({SectionKey(s)}))
  }

  /** "Reset All": the five sections are removed, any other key is kept. */
  function ResetAll(t: Record): (r: Record)
    ensures "background" !in r && "editing" !in r && "shadowLighting" !in r
    ensures "generation" !in r && "cropping" !in r
    ensures SameExcept(r, t, {"background", "editing", "shadowLighting", "generation", "cropping"})
    ensures Canonical(r)
  {
    Merge(t, Unset({"background", "editing", "shadowLighting", "generation", "cropping"}))
  }

  // ---------------------------------------------------------------------
  // Every handler keeps the presence/absence invariant.
  // ---------------------------------------------------------------------

  lemma ToggleKeepsCanonical(t: Record, c: SwitchControl, on: bool)
    requires Canonical(t)
    ensures Canonical(Toggle(t, c, on))
  {
    var r := Toggle(t, c, on);
    var k := SectionKey(SwitchSection(c));
    FieldEditOk(k, Sub(r, k), Sub(t, k), SwitchKey(c));
    CanonicalFrame(t, r, SwitchSection(c));
  }

  lemma EditTextKeepsCanonical(t: Record, c: TextControl, text: string)
    requires Canonical(t)
    ensures Canonical(EditText(t, c, text))
  {
    var r := EditText(t, c, text);
    var k := SectionKey(TextSection(c));
    FieldEditOk(k, Sub(r, k), Sub(t, k), TextKey(c));
    CanonicalFrame(t, r, TextSection(c));
  }

  lemma ChooseKeepsCanonical(t: Record, c: SelectControl, choice: string)
    requires Canonical(t)
    ensures Canonical(Choose(t, c, choice))
  {
    var r := Choose(t, c, choice);
    var k := SectionKey(SelectSection(c));
    FieldEditOk(k, Sub(r, k), Sub(t, k), SelectKey(c));
    CanonicalFrame(t, r, SelectSection(c));
  }

  lemma SetGenerativeFillKeepsCanonical(t: Record, on: bool)
    requires Canonical(t)
    ensures Canonical(SetGenerativeFill(t, on))
  {
    var r := SetGenerativeFill(t, on);
    FieldEditOk("background", Sub(r, "background"), Sub(t, "background"), "generativeFill");
    CanonicalFrame(t, r, Background);
  }

  lemma EditFillPromptKeepsCanonical(t: Record, text: string)
    requires Canonical(t)
    ensures Canonical(EditFillPrompt(t, text))
  {
    var r := EditFillPrompt(t, text);
    FieldEditOk("background", Sub(r, "background"), Sub(t, "background"), "generativeFill");
    CanonicalFrame(t, r, Background);
  }

  lemma EditFillSizeKeepsCanonical(t: Record, d: Dimension, text: string, parsed: Option<int>)
    requires Canonical(t)
    ensures Canonical(EditFillSize(t, d, text, parsed))
  {
    var r := EditFillSize(t, d, text, parsed);
    FieldEditOk("background", Sub(r, "background"), Sub(t, "background"), "generativeFill");
    CanonicalFrame(t, r, Background);
  }

  lemma ChooseFillCropModeKeepsCanonical(t: Record, choice: string)
    requires Canonical(t)
    ensures Canonical(ChooseFillCropMode(t, choice))
  {
    var r := ChooseFillCropMode(t, choice);
    FieldEditOk("background", Sub(r, "background"), Sub(t, "background"), "generativeFill");
    CanonicalFrame(t, r, Background);
  }

  lemma SlideLightKeepsCanonical(t: Record, s: LightSlider, x: real)
    requires Canonical(t)
    ensures Canonical(SlideLight(t, s, x))
  {
    var r := SlideLight(t, s, x);
    FieldEditOk("shadowLighting", Sub(r, "shadowLighting"), Sub(t, "shadowLighting"), "dropShadow");
    CanonicalFrame(t, r, ShadowLighting);
  }

  lemma SlideZoomKeepsCanonical(t: Record, x: real)
    requires Canonical(t)
    ensures Canonical(SlideZoom(t, x))
  {
    CanonicalFrame(t, SlideZoom(t, x), Cropping);
  }

  lemma EditCropSizeKeepsCanonical(t: Record, d: Dimension, text: string, parsed: Option<int>)
    requires Canonical(t)
    ensures Canonical(EditCropSize(t, d, text, parsed))
  {
    CanonicalFrame(t, EditCropSize(t, d, text, parsed), Cropping);
  }

  lemma ResetSectionKeepsCanonical(t: Record, s: Section)
    requires Canonical(t)
    ensures Canonical(ResetSection(t, s))
  {
    CanonicalFrame(t, ResetSection(t, s), s);
  }

  /** "Reset All" is the five section resets one after the other. */
  lemma ResetAllIsEverySectionReset(t: Record)
    ensures ResetAll(t) ==
            ResetSection(ResetSection(ResetSection(ResetSection(ResetSection(
              t, Background), Editing), ShadowLighting), Generation), Cropping)
  {
    var r := ResetSection(ResetSection(ResetSection(ResetSection(ResetSection(
               t, Background), Editing), ShadowLighting), Generation), Cropping);
    RecordsEqual(ResetAll(t), r);
  }

  /** Section resets commute: the order the buttons are pressed in does not
      matter. */
  lemma ResetSectionsCommute(t: Record, s1: Section, s2: Section)
    ensures ResetSection(ResetSection(t, s1), s2) == ResetSection(ResetSection(t, s2), s1)
  {
    RecordsEqual(ResetSection(ResetSection(t, s1), s2), ResetSection(ResetSection(t, s2), s1));
  }

  /** Turning "Remove Background" on and then off from an empty record leaves
      an empty `background` object behind, not the empty record. */
  lemma RemoveBackgroundRoundTrip()
    ensures Toggle(map[], RemoveBackground, true) == map["background" := Obj(map["remove" := Bool(true)])]
    ensures Toggle(Toggle(map[], RemoveBackground, true), RemoveBackground, false) ==
            map["background" := Obj(map[])]
  {
    var on := Toggle(map[], RemoveBackground, true);
    RecordsEqual(Sub(on, "background"), map["remove" := Bool(true)]);
    RecordsEqual(on, map["background" := Obj(map["remove" := Bool(true)])]);
    var off := Toggle(on, RemoveBackground, false);
    RecordsEqual(Sub(off, "background"), map[]);
    RecordsEqual(off, map["background" := Obj(map[])]);
  }

  /** Entering width 512 into an empty generative fill stores exactly that
      width; clearing the input gives the empty fill back. */
  lemma FillWidthRoundTrip()
    ensures var start: Record := map["background" := Obj(map["generativeFill" := Obj(map[])])];
            var typed := EditFillSize(start, Width, "512", Some(512));
            && typed == map["background" := Obj(map["generativeFill" := Obj(map["width" := Num(512.0)])])]
            && EditFillSize(typed, Width, "", None) == start
  {
    var start: Record := map["background" := Obj(map["generativeFill" := Obj(map[])])];
    var typed := EditFillSize(start, Width, "512", Some(512));
    RecordsEqual(Fill(typed), map["width" := Num(512.0)]);
    RecordsEqual(Sub(typed, "background"), map["generativeFill" := Obj(map["width" := Num(512.0)])]);
    RecordsEqual(typed, map["background" := Obj(map["generativeFill" := Obj(map["width" := Num(512.0)])])]);
    var cleared := EditFillSize(typed, Width, "", None);
    RecordsEqual(Fill(cleared), map[]);
    RecordsEqual(Sub(cleared, "background"), map["generativeFill" := Obj(map[])]);
    RecordsEqual(cleared, start);
  }
}
