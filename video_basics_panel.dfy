/** The video basics panel over `BasicsTransform`: resize and crop fields at
    the top level, a `background` object, a `border` object, a radius and a
    rotation. Every handler spreads a patch over the current record; the reset
    buttons spread all-`undefined` patches, except "Reset All", which replaces
    the record with `{}`. */
module VideoBasicsPanel {
  import opened Sparse

  /** The text inputs whose empty value clears the field. */
  datatype TextField = Width | Height | Radius

  function TextKey(f: TextField): string
  {
    match f
    case Width => "width"
    case Height => "height"
    case Radius => "radius"
  }

  /** The selects whose default entry clears the field. */
  datatype SelectField = AspectRatio | Focus | CropMode

  function SelectKey(f: SelectField): string
  {
    match f
    case AspectRatio => "aspectRatio"
    case Focus => "focus"
    case CropMode => "cropMode"
  }

  function SelectOff(f: SelectField): string
  {
    match f
    case AspectRatio => "custom"
    case Focus => "center"
    case CropMode => "maintain_ratio"
  }

  /** The custom-focus coordinates. */
  datatype Axis = X | Y

  function AxisKey(a: Axis): string
  {
    match a
    case X => "x"
    case Y => "y"
  }

  /** The text inputs of a solid or blurred background. */
  datatype BackgroundText = Color | BlurIntensity

  function BackgroundKey(f: BackgroundText): string
  {
    match f
    case Color => "color"
    case BlurIntensity => "blurIntensity"
  }

  datatype BorderField = BorderWidth | BorderColor

  function BorderKey(f: BorderField): string
  {
    match f
    case BorderWidth => "width"
    case BorderColor => "color"
  }

  /** The reset buttons other than "Reset All". */
  datatype Group = Dimensions | CropFocus | BackgroundGroup | BorderGroup | Rotation

  /** The keys each reset button sets to `undefined`. */
  function GroupKeys(g: Group): set<string>
  {
    match g
    case Dimensions => {"width", "height", "aspectRatio"}
    case CropFocus => {"cropMode", "focus", "x", "y", "xc", "yc", "zoom"}
    case BackgroundGroup => {"background"}
    case BorderGroup => {"border", "radius"}
    case Rotation => {"rotate"}
  }

  /** Every key some reset button clears. */
  function ResetKeys(): set<string>
  {
    GroupKeys(Dimensions) + GroupKeys(CropFocus) + GroupKeys(BackgroundGroup) +
    GroupKeys(BorderGroup) + GroupKeys(Rotation)
  }

  /** The value a top-level control writes `undefined` for instead of
      storing it, for the keys that have one. */
  function TopOff(k: string): Option<Value>
  {
    if k == "width" || k == "height" || k == "radius" then Some(Str(""))
    else if k == "aspectRatio" then Some(Str("custom"))
    else if k == "focus" then Some(Str("center"))
    else if k == "cropMode" then Some(Str("maintain_ratio"))
    else if k == "zoom" then Some(Num(1.0))
    else if k == "dpr" then Some(Num(1.0))
    else None
  }

  /** No top-level control stores its off value. */
  ghost predicate TopOk(t: Record)
  {
    forall k :: TopOff(k).Some? ==> Get(t, k) != TopOff(k)
  }

  /** The text fields of `background` and `border`, which write `undefined`
      for "" instead of storing it. */
  predicate NestedText(section: string, f: string)
  {
    || (section == "background" && (f == "color" || f == "blurIntensity"))
    || (section == "border" && (f == "width" || f == "color"))
  }

  /** No background or border text field stores "". */
  ghost predicate NestedOk(t: Record)
  {
    forall s, f :: NestedText(s, f) ==> Get(Sub(t, s), f) != Some(Str(""))
  }

  /** The presence/absence invariant of the panel. */
  ghost predicate Canonical(t: Record)
  {
    TopOk(t) && NestedOk(t)
  }

  /** Width, height or radius text: "" clears the field. */
  function EditText(t: Record, f: TextField, text: string): (r: Record)
    ensures text == "" ==> TextKey(f) !in r
    ensures text != "" ==> Get(r, TextKey(f)) == Some(Str(text))
    ensures SameExcept(r, t, {TextKey(f)})
    ensures Canonical(t) ==> Canonical(r)
  {
    Merge(t, map[TextKey(f) := TextOrUnset(text)])
  }

  /** Aspect ratio "custom", focus "center" and crop mode "maintain_ratio"
      clear their field; any other choice is stored. */
  function Choose(t: Record, f: SelectField, choice: string): (r: Record)
    ensures choice == SelectOff(f) ==> SelectKey(f) !in r
    ensures choice != SelectOff(f) ==> Get(r, SelectKey(f)) == Some(Str(choice))
    ensures SameExcept(r, t, {SelectKey(f)})
    ensures Canonical(t) ==> Canonical(r)
  {
    Merge(t, map[SelectKey(f) := Choice(choice, SelectOff(f))])
  }

  /** Custom-focus x or y: "" clears it, other text stores what `parseInt`
      gives. */
  function EditPosition(t: Record, a: Axis, text: string, parsed: Option<int>): (r: Record)
    ensures text == "" ==> AxisKey(a) !in r
    ensures text != "" ==> Get(r, AxisKey(a)) == Some(IntNumber(parsed))
    ensures SameExcept(r, t, {AxisKey(a)})
    ensures Canonical(t) ==> Canonical(r)
  {
    Merge(t, map[AxisKey(a) := ParsedOrUnset(text, parsed)])
  }

  /** The zoom slider: 1 clears the field. */
  function SlideZoom(t: Record, x: real): (r: Record)
    ensures x == 1.0 ==> "zoom" !in r
    ensures x != 1.0 ==> Get(r, "zoom") == Some(Num(x))
    ensures SameExcept(r, t, {"zoom"})
    ensures Canonical(t) ==> Canonical(r)
  {
    Merge(t, map["zoom" := Sparse.Slider(x, 1.0)])
  }

  /** The three entries of the DPR select. */
  datatype DprChoice = DprAuto | Dpr1 | Dpr2

  /** What the DPR select writes into its patch: "1" is `undefined`, "auto"
      the string "auto", and "2" what `parseInt("2")` gives. The select
      offers nothing else, so DPR 1 is never stored. */
  function DprValue(choice: DprChoice): (v: Option<Value>)
    ensures v != Some(Num(1.0))
    ensures v == None <==> choice == Dpr1
    ensures choice == DprAuto ==> v == Some(Str("auto"))
    ensures choice == Dpr2 ==> v == Some(Num(2.0))
  {
    match choice
    case Dpr1 => None
    case DprAuto => Some(Str("auto"))
    case Dpr2 => Some(IntNumber(Some(2)))
  }

  /** The DPR select: "1" clears the field, "auto" stores "auto", "2" stores
      the number 2; every other key is kept. */
  function ChooseDpr(t: Record, choice: DprChoice): (r: Record)
    ensures choice == Dpr1 ==> "dpr" !in r
    ensures choice == DprAuto ==> Get(r, "dpr") == Some(Str("auto"))
    ensures choice == Dpr2 ==> Get(r, "dpr") == Some(Num(2.0))
    ensures SameExcept(r, t, {"dpr"})
    ensures Canonical(t) ==> Canonical(r)
  {
    Merge(t, map["dpr" := DprValue(choice)])
  }

  /** The rotation select stores the angle it is given, 0 included: rotation
      has no off value. */
  function ChooseRotation(t: Record, degrees: int): (r: Record)
    ensures Get(r, "rotate") == Some(Num(degrees as real))
    ensures SameExcept(r, t, {"rotate"})
    ensures Canonical(t) ==> Canonical(r)
  {
    Merge(t, map["rotate" := Some(Num(degrees as real))])
  }

  /** The background-type select keeps the background's other fields. */
  function ChooseBackgroundType(t: Record, kind: string): (r: Record)
    ensures Get(Sub(r, "background"), "type") == Some(Str(kind))
    ensures SameExcept(Sub(r, "background"), Sub(t, "background"), {"type"})
    ensures HasObj(r, "background") && SameExcept(r, t, {"background"})
    ensures Canonical(t) ==> Canonical(r)
  {
    MergeAt(t, "background", map["type" := Some(Str(kind))])
  }

  /** Background colour or blur-intensity text: "" clears the field. */
  function EditBackgroundText(t: Record, f: BackgroundText, text: string): (r: Record)
    ensures text == "" ==> BackgroundKey(f) !in Sub(r, "background")
    ensures text != "" ==> Get(Sub(r, "background"), BackgroundKey(f)) == Some(Str(text))
    ensures SameExcept(Sub(r, "background"), Sub(t, "background"), {BackgroundKey(f)})
    ensures HasObj(r, "background") && SameExcept(r, t, {"background"})
    ensures Canonical(t) ==> Canonical(r)
  {
    MergeAt(t, "background", map[BackgroundKey(f) := TextOrUnset(text)])
  }

  /** Background brightness: "" clears it, other text stores what `parseInt`
      gives. */
  function EditBrightness(t: Record, text: string, parsed: Option<int>): (r: Record)
    ensures text == "" ==> "brightness" !in Sub(r, "background")
    ensures text != "" ==> Get(Sub(r, "background"), "brightness") == Some(IntNumber(parsed))
    ensures SameExcept(Sub(r, "background"), Sub(t, "background"), {"brightness"})
    ensures HasObj(r, "background") && SameExcept(r, t, {"background"})
    ensures Canonical(t) ==> Canonical(r)
  {
    MergeAt(t, "background", map["brightness" := ParsedOrUnset(text, parsed)])
  }

  /** Border width or colour text: "" clears the field, the other border
      field is kept. */
  function EditBorder(t: Record, f: BorderField, text: string): (r: Record)
    ensures text == "" ==> BorderKey(f) !in Sub(r, "border")
    ensures text != "" ==> Get(Sub(r, "border"), BorderKey(f)) == Some(Str(text))
    ensures SameExcept(Sub(r, "border"), Sub(t, "border"), {BorderKey(f)})
    ensures HasObj(r, "border") && SameExcept(r, t, {"border"})
    ensures Canonical(t) ==> Canonical(r)
  {
    MergeAt(t, "border", map[BorderKey(f) := TextOrUnset(text)])
  }

  /** A reset button clears exactly the keys of its group. */
  function Reset(t: Record, g: Group): (r: Record)
    ensures forall k :: k in GroupKeys(g) ==> k !in r
    ensures SameExcept(r, t, GroupKeys(g))
    ensures Canonical(t) ==> Canonical(r)
  {
    Merge(t, Unset(GroupKeys(g)))
  }

  /** "Reset All" hands the parent `{}`: every key is gone, including keys no
      reset button owns. */
  function ResetAll(t: Record): (r: Record)
    ensures forall k :: Get(r, k) == None
    ensures Canonical(r)
  {
    map[]
  }

  /** Only the rotation reset (or "Reset All") clears a stored rotation; the
      other reset buttons keep it. */
  lemma OtherResetsKeepRotation(t: Record, g: Group)
    requires g != Rotation
    ensures Get(Reset(t, g), "rotate") == Get(t, "rotate")
  {
    assert "rotate" !in GroupKeys(g);
  }

  /** Pressing every reset button gives `{}` exactly when the record holds
      nothing but keys those buttons own: "Reset All" is a replacement, not
      the merge of the five resets. */
  lemma ResetAllIsReplacement(t: Record)
    ensures var each := Reset(Reset(Reset(Reset(Reset(t, Dimensions), CropFocus),
                          BackgroundGroup), BorderGroup), Rotation);
            each == ResetAll(t) <==> t.Keys <= ResetKeys()
  {
    var each := Reset(Reset(Reset(Reset(Reset(t, Dimensions), CropFocus),
                  BackgroundGroup), BorderGroup), Rotation);
    assert forall k :: Get(each, k) == (if k in ResetKeys() then None else Get(t, k));
    if t.Keys <= ResetKeys() {
      RecordsEqual(each, ResetAll(t));
    } else {
      var k :| k in t && k !in ResetKeys();
      assert Get(each, k) == Some(t[k]);
    }
  }
}
