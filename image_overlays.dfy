/** The image overlays panel: a list of tagged overlay items (text, solid,
    gradient, image) keyed by their `id`. Adding an overlay replaces the whole
    list with the new default item; editing spreads a patch into the items
    with that `id`; removing filters them out; "Reset All" empties the list.
    The list is published as it is, `id`s included. */
module ImageOverlays {
  import opened Sparse
  import opened OverlayLists

  /** The field that identifies an item of this panel. */
  const IdKey := "id"

  datatype Kind = Text | Solid | Gradient | Image

  function KindName(kind: Kind): string
  {
    match kind
    case Text => "text"
    case Solid => "solid"
    case Gradient => "gradient"
    case Image => "image"
  }

  /** The item "Add Text", "Add Solid", "Add Gradient" or "Add Image" builds,
      `id` being the fresh identifier. Fields the source sets to `undefined`
      are absent. */
  function DefaultOverlay(kind: Kind, id: string): (o: Record)
    ensures HasId(o, IdKey, id)
    ensures Get(o, "type") == Some(Str(KindName(kind)))
    ensures kind == Text ==>
              && o.Keys == {IdKey, "type", "text", "fontSize", "color", "bold", "italic", "strike", "rotation"}
              && Get(o, "text") == Some(Str("Sample Text"))
              && Get(o, "fontSize") == Some(Num(16.0))
              && Get(o, "color") == Some(Str("000000"))
              && Get(o, "bold") == Some(Bool(false))
              && Get(o, "italic") == Some(Bool(false))
              && Get(o, "strike") == Some(Bool(false))
              && Get(o, "rotation") == Some(Num(0.0))
    ensures kind == Solid ==>
              && o.Keys == {IdKey, "type", "color", "width", "height", "radius"}
              && Get(o, "color") == Some(Str("ff0000"))
              && Get(o, "width") == Some(Num(100.0))
              && Get(o, "height") == Some(Num(100.0))
              && Get(o, "radius") == Some(Num(0.0))
    ensures kind == Gradient ==>
              && o.Keys == {IdKey, "type", "direction", "fromColor", "toColor", "stopPoint", "width", "height", "radius"}
              && Get(o, "direction") == Some(Str("top"))
              && Get(o, "fromColor") == Some(Str("000000"))
              && Get(o, "toColor") == Some(Str("000000"))
              && Get(o, "stopPoint") == Some(Num(0.0))
              && Get(o, "width") == Some(Num(100.0))
              && Get(o, "height") == Some(Num(100.0))
              && Get(o, "radius") == Some(Num(0.0))
    ensures kind == Image ==>
              && o.Keys == {IdKey, "type", "src", "width", "height", "x", "y"}
              && Get(o, "src") == Some(Str("https://via.placeholder.com/150"))
              && Get(o, "width") == Some(Num(100.0))
              && Get(o, "height") == Some(Num(100.0))
              && Get(o, "x") == Some(Num(0.0))
              && Get(o, "y") == Some(Num(0.0))
              && (forall k :: k in {"opacity", "bgColor", "border", "radius", "rotation", "flip"} ==> k !in o)
  {
    match kind
    case Text => TextDefault(id)
    case Solid => SolidDefault(id)
    case Gradient => GradientDefault(id)
    case Image => ImageDefault(id)
  }

  /** The defaults of each kind, after its `id` and `type`. */
  function TextDefault(id: string): (o: Record)
    ensures o.Keys == {IdKey, "type", "text", "fontSize", "color", "bold", "italic", "strike", "rotation"}
    ensures HasId(o, IdKey, id) && Get(o, "type") == Some(Str("text"))
    ensures && Get(o, "text") == Some(Str("Sample Text"))
            && Get(o, "fontSize") == Some(Num(16.0))
            && Get(o, "color") == Some(Str("000000"))
            && Get(o, "bold") == Some(Bool(false))
            && Get(o, "italic") == Some(Bool(false))
            && Get(o, "strike") == Some(Bool(false))
            && Get(o, "rotation") == Some(Num(0.0))
  {
    map[IdKey := Str(id), "type" := Str("text")]
        ["text" := Str("Sample Text")]["fontSize" := Num(16.0)]["color" := Str("000000")]
        ["bold" := Bool(false)]["italic" := Bool(false)]["strike" := Bool(false)]
        ["rotation" := Num(0.0)]
  }

  function SolidDefault(id: string): (o: Record)
    ensures o.Keys == {IdKey, "type", "color", "width", "height", "radius"}
    ensures HasId(o, IdKey, id) && Get(o, "type") == Some(Str("solid"))
    ensures && Get(o, "color") == Some(Str("ff0000"))
            && Get(o, "width") == Some(Num(100.0))
            && Get(o, "height") == Some(Num(100.0))
            && Get(o, "radius") == Some(Num(0.0))
  {
    map[IdKey := Str(id), "type" := Str("solid")]
        ["color" := Str("ff0000")]["width" := Num(100.0)]["height" := Num(100.0)]
        ["radius" := Num(0.0)]
  }

  function GradientDefault(id: string): (o: Record)
    ensures o.Keys == {IdKey, "type", "direction", "fromColor", "toColor", "stopPoint", "width", "height", "radius"}
    ensures HasId(o, IdKey, id) && Get(o, "type") == Some(Str("gradient"))
    ensures && Get(o, "direction") == Some(Str("top"))
            && Get(o, "fromColor") == Some(Str("000000"))
            && Get(o, "toColor") == Some(Str("000000"))
            && Get(o, "stopPoint") == Some(Num(0.0))
            && Get(o, "width") == Some(Num(100.0))
            && Get(o, "height") == Some(Num(100.0))
            && Get(o, "radius") == Some(Num(0.0))
  {
    map[IdKey := Str(id), "type" := Str("gradient")]
        ["direction" := Str("top")]["fromColor" := Str("000000")]["toColor" := Str("000000")]
        ["stopPoint" := Num(0.0)]["width" := Num(100.0)]["height" := Num(100.0)]
        ["radius" := Num(0.0)]
  }

  function ImageDefault(id: string): (o: Record)
    ensures o.Keys == {IdKey, "type", "src", "width", "height", "x", "y"}
    ensures HasId(o, IdKey, id) && Get(o, "type") == Some(Str("image"))
    ensures && Get(o, "src") == Some(Str("https://via.placeholder.com/150"))
            && Get(o, "width") == Some(Num(100.0))
            && Get(o, "height") == Some(Num(100.0))
            && Get(o, "x") == Some(Num(0.0))
            && Get(o, "y") == Some(Num(0.0))
    ensures forall k :: k in {"opacity", "bgColor", "border", "radius", "rotation", "flip"} ==> k !in o
  {
    map[IdKey := Str(id), "type" := Str("image")]
        ["src" := Str("https://via.placeholder.com/150")]["width" := Num(100.0)]
        ["height" := Num(100.0)]["x" := Num(0.0)]["y" := Num(0.0)]
  }

  /** The panel's state: the overlay list, replaced by every operation. */
  class OverlaysPanel {
    var overlayList: seq<Record>

    /** The list starts as the `overlays` the parent passes in. */
    constructor (overlays: seq<Record>)
      ensures overlayList == overlays
    {
      overlayList := overlays;
    }

    /** What the parent receives after every change: the list itself, with
        each item's `id`. */
    function Published(): (r: seq<Record>)
      reads this
      ensures r == overlayList
    {
      overlayList
    }

    /** Adding replaces the list: whatever it held, it now holds exactly the
        new default item. */
    method AddOverlay(kind: Kind, freshId: string)
      modifies this
      ensures overlayList == [DefaultOverlay(kind, freshId)]
      ensures HasId(overlayList[0], IdKey, freshId)
    {
      overlayList := [DefaultOverlay(kind, freshId)];
    }

    /** Spreads `p` into every item whose `id` is `id`. */
    method UpdateOverlay(id: string, p: Patch)
      modifies this
      ensures overlayList == UpdateWhere(old(overlayList), IdKey, id, p)
    {
      overlayList := UpdateWhere(overlayList, IdKey, id, p);
    }

    /** Drops every item whose `id` is `id`. */
    method RemoveOverlay(id: string)
      modifies this
      ensures overlayList == RemoveWhere(old(overlayList), IdKey, id)
    {
      overlayList := RemoveWhere(overlayList, IdKey, id);
    }

    /** "Reset All" empties the list. */
    method ResetAll()
      modifies this
      ensures overlayList == []
    {
      overlayList := [];
    }
  }

  /** The text overlay's flip select: "none" clears the field, "h", "v" and
      "h_v" are stored as chosen. */
  function FlipPatch(choice: string): (p: Patch)
    ensures p.Keys == {"flip"}
    ensures p["flip"] == None <==> choice == "none"
    ensures choice != "none" ==> p["flip"] == Some(Str(choice))
  {
    map["flip" := Choice(choice, "none")]
  }

  /** The image overlay's flip select stores every choice; it has no entry
      that clears the field. */
  function ImageFlipPatch(choice: string): (p: Patch)
    ensures p.Keys == {"flip"} && p["flip"] == Some(Str(choice))
  {
    map["flip" := Some(Str(choice))]
  }

  /** The colour pickers: text and solid `color`, gradient `fromColor` and
      `toColor`, image `bgColor`. */
  datatype ColorField = Color | FromColor | ToColor | BgColor

  function ColorKey(f: ColorField): string
  {
    match f
    case Color => "color"
    case FromColor => "fromColor"
    case ToColor => "toColor"
    case BgColor => "bgColor"
  }

  /** A colour picker stores the picked colour without its leading `#`. */
  function ColorPatch(f: ColorField, picked: string): (p: Patch)
    ensures p.Keys == {ColorKey(f)}
    ensures |picked| > 0 && picked[0] == '#' ==> p[ColorKey(f)] == Some(Str(picked[1..]))
    ensures '#' !in picked ==> p[ColorKey(f)] == Some(Str(picked))
  {
    map[ColorKey(f) := Some(Str(RemoveFirstHash(picked)))]
  }

  datatype Size = Width | Height | Radius

  function SizeKey(s: Size): string
  {
    match s
    case Width => "width"
    case Height => "height"
    case Radius => "radius"
  }

  /** The solid overlay's size inputs: empty input clears the field, other
      text stores what `parseInt` gives. */
  function SolidSizePatch(s: Size, text: string, parsed: Option<int>): (p: Patch)
    ensures p.Keys == {SizeKey(s)}
    ensures p[SizeKey(s)] == None <==> text == ""
    ensures text != "" ==> p[SizeKey(s)] == Some(IntNumber(parsed))
  {
    map[SizeKey(s) := ParsedOrUnset(text, parsed)]
  }

  /** `Number(text)`, where `parsed` is what it gives for non-empty text:
      the empty string converts to 0. */
  function NumberOf(text: string, parsed: Option<real>): (v: Value)
    ensures text == "" ==> v == Num(0.0)
    ensures text != "" ==> v == Number(parsed)
  {
    if text == "" then Num(0.0) else Number(parsed)
  }

  /** The gradient's size inputs and the image's width and height store
      `Number(text)`: they never clear the field, and empty input stores 0. */
  function NumberSizePatch(s: Size, text: string, parsed: Option<real>): (p: Patch)
    ensures p.Keys == {SizeKey(s)}
    ensures p[SizeKey(s)].Some?
    ensures text == "" ==> p[SizeKey(s)] == Some(Num(0.0))
    ensures text != "" ==> p[SizeKey(s)] == Some(Number(parsed))
  {
    map[SizeKey(s) := Some(NumberOf(text, parsed))]
  }

  /** The image overlay's radius: "max" is stored as a string, anything else
      as `Number(text)`. */
  function ImageRadiusPatch(text: string, parsed: Option<real>): (p: Patch)
    ensures p.Keys == {"radius"}
    ensures text == "max" ==> p["radius"] == Some(Str("max"))
    ensures text != "max" ==> p["radius"] == Some(NumberOf(text, parsed))
  {
    map["radius" := Some(if text == "max" then Str("max") else NumberOf(text, parsed))]
  }

  /** Add a solid, set its width to 250, remove it: the list ends empty, and
      in between the item holds the new width with its other defaults. */
  lemma SolidAddEditRemove(id: string)
    ensures var added := [DefaultOverlay(Solid, id)];
            var edited := UpdateWhere(added, IdKey, id, SolidSizePatch(Width, "250", Some(250)));
            && |edited| == 1
            && Get(edited[0], "width") == Some(Num(250.0))
            && Get(edited[0], "height") == Some(Num(100.0))
            && Get(edited[0], "color") == Some(Str("ff0000"))
            && HasId(edited[0], IdKey, id)
            && RemoveWhere(edited, IdKey, id) == []
  {
    var added := [DefaultOverlay(Solid, id)];
    var edited := UpdateWhere(added, IdKey, id, SolidSizePatch(Width, "250", Some(250)));
    assert HasId(added[0], IdKey, id);
    assert HasId(edited[0], IdKey, id);
  }
}
