/** The video enhancement panel over the video `Enhancements` record: a
    `thumbnail` section (time, size, aspect ratio, crop mode, a nested
    `border`, radius, background colour) and a `trimming` section (start
    offset, end offset, duration). Every handler spreads a patch into its
    section; "Reset All" replaces the record with `{}`. */
module VideoEnhancementPanel {
  import opened Sparse

  datatype Section = Thumbnail | Trimming

  function SectionKey(s: Section): string
  {
    match s
    case Thumbnail => "thumbnail"
    case Trimming => "trimming"
  }

  datatype Dimension = Width | Height

  function DimensionKey(d: Dimension): string
  {
    match d
    case Width => "width"
    case Height => "height"
  }

  /** The three trimming text inputs. */
  datatype TrimField = StartOffset | EndOffset | Duration

  function TrimKey(f: TrimField): string
  {
    match f
    case StartOffset => "startOffset"
    case EndOffset => "endOffset"
    case Duration => "duration"
  }

  /** The `border` record nested in `thumbnail`. */
  function Border(t: Record): Record
  {
    Sub(Sub(t, "thumbnail"), "border")
  }

  /** A thumbnail border, once present, carries both a width and a colour. */
  ghost predicate BorderComplete(t: Record)
  {
    HasObj(Sub(t, "thumbnail"), "border") ==> "width" in Border(t) && "color" in Border(t)
  }

  /** The value a thumbnail or trimming control writes `undefined` for
      instead of storing it, for the fields that have one: "" for the text
      inputs, "custom" for the aspect ratio. */
  function FieldOff(section: string, f: string): Option<Value>
  {
    if section == "thumbnail" && f == "time" then Some(Str(""))
    else if section == "thumbnail" && f == "aspectRatio" then Some(Str("custom"))
    else if section == "trimming" && (f == "startOffset" || f == "endOffset" || f == "duration") then Some(Str(""))
    else None
  }

  /** The presence/absence invariant of the panel: no field stores its off
      value, and no border is half built. */
  ghost predicate Canonical(t: Record)
  {
    && (forall s, f :: FieldOff(s, f).Some? ==> Get(Sub(t, s), f) != FieldOff(s, f))
    && BorderComplete(t)
  }

  /** An edit that rebuilds only the border, and leaves it complete, keeps
      the invariant. */
  lemma BorderEditKeepsCanonical(t: Record, r: Record)
    ensures && Canonical(t)
            && SameExcept(r, t, {"thumbnail"})
            && SameExcept(Sub(r, "thumbnail"), Sub(t, "thumbnail"), {"border"})
            && BorderComplete(r)
            ==> Canonical(r)
  {
    if Canonical(t) && SameExcept(r, t, {"thumbnail"}) {
      SubKept(r, t, {"thumbnail"}, "trimming");
    }
  }

  /** Thumbnail time: "" clears it; the thumbnail's other fields are kept. */
  function EditTime(t: Record, text: string): (r: Record)
    ensures text == "" ==> "time" !in Sub(r, "thumbnail")
    ensures text != "" ==> Get(Sub(r, "thumbnail"), "time") == Some(Str(text))
    ensures SameExcept(Sub(r, "thumbnail"), Sub(t, "thumbnail"), {"time"})
    ensures HasObj(r, "thumbnail") && SameExcept(r, t, {"thumbnail"})
    ensures Canonical(t) ==> Canonical(r)
  {
    MergeAt(t, "thumbnail", map["time" := TextOrUnset(text)])
  }

  /** Thumbnail width or height: "" clears it, other text stores what
      `parseInt` gives. */
  function EditThumbnailSize(t: Record, d: Dimension, text: string, parsed: Option<int>): (r: Record)
    ensures text == "" ==> DimensionKey(d) !in Sub(r, "thumbnail")
    ensures text != "" ==> Get(Sub(r, "thumbnail"), DimensionKey(d)) == Some(IntNumber(parsed))
    ensures SameExcept(Sub(r, "thumbnail"), Sub(t, "thumbnail"), {DimensionKey(d)})
    ensures HasObj(r, "thumbnail") && SameExcept(r, t, {"thumbnail"})
    ensures Canonical(t) ==> Canonical(r)
  {
    MergeAt(t, "thumbnail", map[DimensionKey(d) := ParsedOrUnset(text, parsed)])
  }

  /** Thumbnail aspect ratio: "custom" clears it. */
  function ChooseAspectRatio(t: Record, choice: string): (r: Record)
    ensures choice == "custom" ==> "aspectRatio" !in Sub(r, "thumbnail")
    ensures choice != "custom" ==> Get(Sub(r, "thumbnail"), "aspectRatio") == Some(Str(choice))
    ensures SameExcept(Sub(r, "thumbnail"), Sub(t, "thumbnail"), {"aspectRatio"})
    ensures HasObj(r, "thumbnail") && SameExcept(r, t, {"thumbnail"})
    ensures Canonical(t) ==> Canonical(r)
  {
    MergeAt(t, "thumbnail", map["aspectRatio" := Choice(choice, "custom")])
  }

  /** Thumbnail crop mode: stored as chosen, "maintain_ratio" included. */
  function ChooseCropMode(t: Record, choice: string): (r: Record)
    ensures Get(Sub(r, "thumbnail"), "cropMode") == Some(Str(choice))
    ensures SameExcept(Sub(r, "thumbnail"), Sub(t, "thumbnail"), {"cropMode"})
    ensures HasObj(r, "thumbnail") && SameExcept(r, t, {"thumbnail"})
    ensures Canonical(t) ==> Canonical(r)
  {
    MergeAt(t, "thumbnail", map["cropMode" := Some(Str(choice))])
  }

  /** Border width: empty input stores 0, other text what `parseInt` gives;
      the colour is kept when set (truthy) and otherwise becomes "000000". */
  function EditBorderWidth(t: Record, text: string, parsed: Option<int>): (r: Record)
    ensures text == "" ==> Get(Border(r), "width") == Some(Num(0.0))
    ensures text != "" ==> Get(Border(r), "width") == Some(IntNumber(parsed))
    ensures Truthy(Get(Border(t), "color")) ==> Get(Border(r), "color") == Get(Border(t), "color")
    ensures !Truthy(Get(Border(t), "color")) ==> Get(Border(r), "color") == Some(Str("000000"))
    ensures SameExcept(Border(r), Border(t), {"width", "color"})
    ensures SameExcept(Sub(r, "thumbnail"), Sub(t, "thumbnail"), {"border"})
    ensures SameExcept(r, t, {"thumbnail"})
    ensures Canonical(t) ==> Canonical(r)
  {
    var p: Patch := map["width" := Some(if text != "" then IntNumber(parsed) else Num(0.0)),
                        "color" := Some(OrElse(Get(Border(t), "color"), Str("000000")))];
    var r := MergeAt2(t, "thumbnail", "border", p);
    assert Get(Border(r), "width") == p["width"] && Get(Border(r), "color") == p["color"];
    BorderEditKeepsCanonical(t, r);
    r
  }

  /** Border colour: the picked colour without its `#`; the width is kept
      when set (truthy) and otherwise becomes 0. */
  function PickBorderColor(t: Record, picked: string): (r: Record)
    ensures Get(Border(r), "color") == Some(Str(RemoveFirstHash(picked)))
    ensures Truthy(Get(Border(t), "width")) ==> Get(Border(r), "width") == Get(Border(t), "width")
    ensures !Truthy(Get(Border(t), "width")) ==> Get(Border(r), "width") == Some(Num(0.0))
    ensures SameExcept(Border(r), Border(t), {"width", "color"})
    ensures SameExcept(Sub(r, "thumbnail"), Sub(t, "thumbnail"), {"border"})
    ensures SameExcept(r, t, {"thumbnail"})
    ensures Canonical(t) ==> Canonical(r)
  {
    var p: Patch := map["color" := Some(Str(RemoveFirstHash(picked))),
                        "width" := Some(OrElse(Get(Border(t), "width"), Num(0.0)))];
    var r := MergeAt2(t, "thumbnail", "border", p);
    assert Get(Border(r), "width") == p["width"] && Get(Border(r), "color") == p["color"];
    BorderEditKeepsCanonical(t, r);
    r
  }

  /** Thumbnail radius: "max" stores "max", anything else what `parseInt`
      gives (NaN for empty input: the field is not cleared). */
  function EditRadius(t: Record, text: string, parsed: Option<int>): (r: Record)
    ensures text == "max" ==> Get(Sub(r, "thumbnail"), "radius") == Some(Str("max"))
    ensures text != "max" ==> Get(Sub(r, "thumbnail"), "radius") == Some(IntNumber(parsed))
    ensures SameExcept(Sub(r, "thumbnail"), Sub(t, "thumbnail"), {"radius"})
    ensures HasObj(r, "thumbnail") && SameExcept(r, t, {"thumbnail"})
    ensures Canonical(t) ==> Canonical(r)
  {
    MergeAt(t, "thumbnail", map["radius" := Some(if text == "max" then Str("max") else IntNumber(parsed))])
  }

  /** Thumbnail background colour: the picked colour without its `#`. */
  function PickBackground(t: Record, picked: string): (r: Record)
    ensures Get(Sub(r, "thumbnail"), "bg") == Some(Str(RemoveFirstHash(picked)))
    ensures SameExcept(Sub(r, "thumbnail"), Sub(t, "thumbnail"), {"bg"})
    ensures HasObj(r, "thumbnail") && SameExcept(r, t, {"thumbnail"})
    ensures Canonical(t) ==> Canonical(r)
  {
    MergeAt(t, "thumbnail", map["bg" := Some(Str(RemoveFirstHash(picked)))])
  }

  /** A trimming text input: "" clears the field; the other trimming fields
      are kept. */
  function EditTrim(t: Record, f: TrimField, text: string): (r: Record)
    ensures text == "" ==> TrimKey(f) !in Sub(r, "trimming")
    ensures text != "" ==> Get(Sub(r, "trimming"), TrimKey(f)) == Some(Str(text))
    ensures SameExcept(Sub(r, "trimming"), Sub(t, "trimming"), {TrimKey(f)})
    ensures HasObj(r, "trimming") && SameExcept(r, t, {"trimming"})
    ensures Canonical(t) ==> Canonical(r)
  {
    MergeAt(t, "trimming", map[TrimKey(f) := TextOrUnset(text)])
  }

  /** "Reset Thumbnail" and "Reset Trimming": that section is removed, every
      other key is kept. */
  function ResetSection(t: Record, s: Section): (r: Record)
    ensures SectionKey(s) !in r
    ensures SameExcept(r, t, {SectionKey(s)})
    ensures Canonical(t) ==> Canonical(r)
  {
    Merge(t, Unset({SectionKey(s)}))
  }

  /** "Reset All" hands the parent `{}`. */
  function ResetAll(t: Record): (r: Record)
    ensures forall k :: Get(r, k) == None
    ensures Canonical(r)
  {
    map[]
  }

  /** After either border edit the border holds a width and a colour, and the
      colour is never empty, whatever the thumbnail held before. */
  lemma BorderEditsComplete(t: Record, text: string, parsed: Option<int>, picked: string)
    ensures var r := EditBorderWidth(t, text, parsed);
            BorderComplete(r) && Get(Border(r), "color") != Some(Str(""))
    ensures BorderComplete(PickBorderColor(t, picked))
  {
    var r := EditBorderWidth(t, text, parsed);
    var old_color := Get(Border(t), "color");
    assert Truthy(old_color) ==> old_color != Some(Str(""));
  }
}
