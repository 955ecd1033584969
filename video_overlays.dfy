/** The video overlays panel: a list of overlay items (text, solid, image,
    video), each given a UI-only `_uiId` when it enters the panel. Adding
    appends a default item; editing spreads a patch into the item with that
    `_uiId`; removing filters it out. The parent receives the list with the
    `_uiId` stripped from every item. */
module VideoOverlays {
  import opened Sparse
  import opened OverlayLists

  /** The field that identifies an item inside the panel. */
  const UiId := "_uiId"

  datatype Kind = Text | Solid | Image | Video

  function KindName(kind: Kind): string
  {
    match kind
    case Text => "text"
    case Solid => "solid"
    case Image => "image"
    case Video => "video"
  }

  /** The fields every new overlay starts with. */
  const BaseKeys: set<string> := {"x", "y", "focus", "startOffset", "endOffset", "duration"}

  function Base(): (o: Record)
    ensures o.Keys == BaseKeys
    ensures UiId !in o
    ensures && Get(o, "x") == Some(Num(0.0)) && Get(o, "y") == Some(Num(0.0))
            && Get(o, "focus") == Some(Str("center"))
            && Get(o, "startOffset") == Some(Num(0.0)) && Get(o, "endOffset") == Some(Num(0.0))
            && Get(o, "duration") == Some(Num(0.0))
  {
    map["x" := Num(0.0), "y" := Num(0.0), "focus" := Str("center"),
        "startOffset" := Num(0.0), "endOffset" := Num(0.0), "duration" := Num(0.0)]
  }

  /** The fields every kind shares, as `Base()` sets them. */
  ghost predicate HasBase(o: Record)
  {
    && UiId !in o
    && Get(o, "x") == Some(Num(0.0)) && Get(o, "y") == Some(Num(0.0))
    && Get(o, "focus") == Some(Str("center"))
    && Get(o, "startOffset") == Some(Num(0.0)) && Get(o, "endOffset") == Some(Num(0.0))
    && Get(o, "duration") == Some(Num(0.0))
  }

  /** The defaults of each kind, `Base()` spread first. */
  function TextDefault(): (o: Record)
    ensures o.Keys == BaseKeys + {"type", "text", "fontSize", "fontFamily", "color", "align", "typography", "rotation"}
    ensures HasBase(o) && Get(o, "type") == Some(Str("text"))
    ensures && Get(o, "text") == Some(Str("Sample Text"))
            && Get(o, "fontSize") == Some(Num(16.0))
            && Get(o, "fontFamily") == Some(Str("Arial"))
            && Get(o, "color") == Some(Str("000000"))
            && Get(o, "align") == Some(Str("left"))
            && Get(o, "typography") == Some(List([]))
            && Get(o, "rotation") == Some(Num(0.0))
  {
    Base()["type" := Str("text")]["text" := Str("Sample Text")]["fontSize" := Num(16.0)]
        ["fontFamily" := Str("Arial")]["color" := Str("000000")]["align" := Str("left")]
        ["typography" := List([])]["rotation" := Num(0.0)]
  }

  function SolidDefault(): (o: Record)
    ensures o.Keys == BaseKeys + {"type", "color", "width", "height", "opacity", "radius"}
    ensures HasBase(o) && Get(o, "type") == Some(Str("solid"))
    ensures && Get(o, "color") == Some(Str("ff0000"))
            && Get(o, "width") == Some(Num(100.0))
            && Get(o, "height") == Some(Num(100.0))
            && Get(o, "opacity") == Some(Num(100.0))
            && Get(o, "radius") == Some(Num(0.0))
  {
    Base()["type" := Str("solid")]["color" := Str("ff0000")]["width" := Num(100.0)]
        ["height" := Num(100.0)]["opacity" := Num(100.0)]["radius" := Num(0.0)]
  }

  function ImageDefault(): (o: Record)
    ensures o.Keys == BaseKeys + {"type", "src", "width", "height", "rotation", "radius", "aspectRatio", "cropMode"}
    ensures HasBase(o) && Get(o, "type") == Some(Str("image"))
    ensures && Get(o, "src") == Some(Str(""))
            && Get(o, "width") == Some(Num(100.0))
            && Get(o, "height") == Some(Num(100.0))
            && Get(o, "rotation") == Some(Num(0.0))
            && Get(o, "radius") == Some(Num(0.0))
            && Get(o, "aspectRatio") == Some(Str("16-9"))
            && Get(o, "cropMode") == Some(Str("maintain_ratio"))
  {
    Base()["type" := Str("image")]["src" := Str("")]["width" := Num(100.0)]
        ["height" := Num(100.0)]["rotation" := Num(0.0)]["radius" := Num(0.0)]
        ["aspectRatio" := Str("16-9")]["cropMode" := Str("maintain_ratio")]
  }

  function VideoDefault(): (o: Record)
    ensures o.Keys == BaseKeys + {"type", "src", "width", "height"}
    ensures HasBase(o) && Get(o, "type") == Some(Str("video"))
    ensures && Get(o, "src") == Some(Str(""))
            && Get(o, "width") == Some(Num(200.0))
            && Get(o, "height") == Some(Num(100.0))
  {
    Base()["type" := Str("video")]["src" := Str("")]["width" := Num(200.0)]
        ["height" := Num(100.0)]
  }

  /** The item an "Add" button builds, before it is given its `_uiId`. */
  function DefaultOverlay(kind: Kind): (o: Record)
    ensures UiId !in o && HasBase(o)
    ensures Get(o, "type") == Some(Str(KindName(kind)))
    ensures kind == Text ==>
              && o.Keys == BaseKeys + {"type", "text", "fontSize", "fontFamily", "color", "align", "typography", "rotation"}
              && Get(o, "text") == Some(Str("Sample Text"))
              && Get(o, "fontSize") == Some(Num(16.0))
              && Get(o, "fontFamily") == Some(Str("Arial"))
              && Get(o, "color") == Some(Str("000000"))
              && Get(o, "align") == Some(Str("left"))
              && Get(o, "typography") == Some(List([]))
              && Get(o, "rotation") == Some(Num(0.0))
    ensures kind == Solid ==>
              && o.Keys == BaseKeys + {"type", "color", "width", "height", "opacity", "radius"}
              && Get(o, "color") == Some(Str("ff0000"))
              && Get(o, "width") == Some(Num(100.0))
              && Get(o, "height") == Some(Num(100.0))
              && Get(o, "opacity") == Some(Num(100.0))
              && Get(o, "radius") == Some(Num(0.0))
    ensures kind == Image ==>
              && o.Keys == BaseKeys + {"type", "src", "width", "height", "rotation", "radius", "aspectRatio", "cropMode"}
              && Get(o, "src") == Some(Str(""))
              && Get(o, "width") == Some(Num(100.0))
              && Get(o, "height") == Some(Num(100.0))
              && Get(o, "rotation") == Some(Num(0.0))
              && Get(o, "radius") == Some(Num(0.0))
              && Get(o, "aspectRatio") == Some(Str("16-9"))
              && Get(o, "cropMode") == Some(Str("maintain_ratio"))
    ensures kind == Video ==>
              && o.Keys == BaseKeys + {"type", "src", "width", "height"}
              && Get(o, "src") == Some(Str(""))
              && Get(o, "width") == Some(Num(200.0))
              && Get(o, "height") == Some(Num(100.0))
  {
    match kind
    case Text => TextDefault()
    case Solid => SolidDefault()
    case Image => ImageDefault()
    case Video => VideoDefault()
  }

  /** `{...o, _uiId: id}`: the item gains its identifier and keeps every other
      field. */
  function Stamp(o: Record, id: string): (r: Record)
    ensures HasId(r, UiId, id)
    ensures SameExcept(r, o, {UiId})
  {
    o[UiId := Str(id)]
  }

  /** `({_uiId, ...rest}) => rest`: the item loses its identifier and keeps
      every other field. */
  function Strip(o: Record): (r: Record)
    ensures UiId !in r
    ensures SameExcept(r, o, {UiId})
  {
    o - {UiId}
  }

  /** No identifier occurs twice. */
  predicate Distinct(ids: seq<string>)
  {
    forall i, j :: 0 <= i < j < |ids| ==> ids[i] != ids[j]
  }

  /** The incoming overlays, each stamped with its identifier from `ids`. */
  function Seed(xs: seq<Record>, ids: seq<string>): (r: seq<Record>)
    requires |ids| == |xs|
    ensures |r| == |xs|
    ensures forall i :: 0 <= i < |xs| ==> HasId(r[i], UiId, ids[i]) && SameExcept(r[i], xs[i], {UiId})
  {
    seq(|xs|, i requires 0 <= i < |xs| => Stamp(xs[i], ids[i]))
  }

  /** Seeding with distinct identifiers gives a list with unique
      identifiers. */
  lemma SeedUnique(xs: seq<Record>, ids: seq<string>)
    requires |ids| == |xs|
    requires Distinct(ids)
    ensures UniqueIds(Seed(xs, ids), UiId)
  {
    var r := Seed(xs, ids);
    forall i, j | 0 <= i < j < |r| ensures Get(r[i], UiId) != Get(r[j], UiId) {
      assert Get(r[i], UiId) == Some(Str(ids[i]));
      assert Get(r[j], UiId) == Some(Str(ids[j]));
    }
  }

  /** What the parent receives: the same items in the same order, none with
      a `_uiId`, every other field as in the panel. */
  function Publish(xs: seq<Record>): (r: seq<Record>)
    ensures |r| == |xs|
    ensures forall i :: 0 <= i < |xs| ==> UiId !in r[i] && SameExcept(r[i], xs[i], {UiId})
  {
    seq(|xs|, i requires 0 <= i < |xs| => Strip(xs[i]))
  }

  /** Publishing undoes seeding: the parent gets back the overlays it passed
      in, whatever identifiers they were given. */
  lemma PublishSeed(xs: seq<Record>, ids: seq<string>)
    requires |ids| == |xs|
    requires forall i :: 0 <= i < |xs| ==> UiId !in xs[i]
    ensures Publish(Seed(xs, ids)) == xs
  {
    var r := Publish(Seed(xs, ids));
    forall i | 0 <= i < |xs| ensures r[i] == xs[i] {
      forall k ensures Get(r[i], k) == Get(xs[i], k) {
        if k == UiId {
          assert UiId !in r[i];
        }
      }
      RecordsEqual(r[i], xs[i]);
    }
  }

  /** Appending an item with a fresh identifier keeps identifiers unique. */
  lemma AppendKeepsUnique(xs: seq<Record>, o: Record, id: string)
    requires UniqueIds(xs, UiId)
    requires forall i :: 0 <= i < |xs| ==> !HasId(xs[i], UiId, id)
    ensures UniqueIds(xs + [Stamp(o, id)], UiId)
  {
    var ys := xs + [Stamp(o, id)];
    forall i, j | 0 <= i < j < |ys| ensures Get(ys[i], UiId) != Get(ys[j], UiId) {
      if j == |xs| {
        assert ys[i] == xs[i];
        assert !HasId(xs[i], UiId, id);
      } else {
        assert ys[i] == xs[i] && ys[j] == xs[j];
      }
    }
  }

  /** Removing an item right after adding it restores the list. */
  lemma RemoveUndoesAdd(xs: seq<Record>, kind: Kind, id: string)
    requires forall i :: 0 <= i < |xs| ==> !HasId(xs[i], UiId, id)
    ensures RemoveWhere(xs + [Stamp(DefaultOverlay(kind), id)], UiId, id) == xs
  {
    var added := [Stamp(DefaultOverlay(kind), id)];
    RemoveConcat(xs, added, UiId, id);
    RemoveMissing(xs, UiId, id);
  }

  /** The typography tags of the toggles. */
  datatype Tag = B | I | Strikethrough

  function TagName(tag: Tag): string
  {
    match tag
    case B => "b"
    case I => "i"
    case Strikethrough => "strikethrough"
  }

  /** `overlay.typography || []`. */
  function Tags(o: Record): seq<Value>
  {
    match Get(o, "typography")
    case Some(List(tags)) => tags
    case _ => []
  }

  /** The filter callback `t => t !== tag`. */
  function NotTag(tag: Tag): Value -> bool
  {
    v => v != Str(TagName(tag))
  }

  /** A toggle turned on appends its tag, even when it is already there;
      turned off, it removes every occurrence and keeps the other tags. */
  function Toggled(tags: seq<Value>, tag: Tag, on: bool): (r: seq<Value>)
    ensures on ==> |r| == |tags| + 1 && r[..|tags|] == tags && r[|tags|] == Str(TagName(tag))
    ensures on ==> multiset(r)[Str(TagName(tag))] == multiset(tags)[Str(TagName(tag))] + 1
    ensures !on ==> Str(TagName(tag)) !in r
    ensures !on ==> forall v :: v in tags && v != Str(TagName(tag)) ==> v in r
    ensures !on ==> |r| <= |tags|
  {
    if on then
      assert (tags + [Str(TagName(tag))])[..|tags|] == tags;
      tags + [Str(TagName(tag))]
    else Filter(tags, NotTag(tag))
  }

  /** Turning a toggle off keeps the relative order of the other tags. */
  lemma ToggleOffKeepsOrder(a: seq<Value>, b: seq<Value>, tag: Tag)
    ensures Toggled(a + b, tag, false) == Toggled(a, tag, false) + Toggled(b, tag, false)
  {
    FilterConcat(a, b, NotTag(tag));
  }

  /** Off after on is the same as off alone. */
  lemma ToggleOffAfterOn(tags: seq<Value>, tag: Tag)
    ensures Toggled(Toggled(tags, tag, true), tag, false) == Toggled(tags, tag, false)
  {
    var x := Str(TagName(tag));
    FilterConcat(tags, [x], NotTag(tag));
    assert Filter([x], NotTag(tag)) == [] by {
      assert [x][1..] == [];
    }
  }

  /** On then off restores a list that did not hold the tag. */
  lemma ToggleOnOffRoundTrip(tags: seq<Value>, tag: Tag)
    requires Str(TagName(tag)) !in tags
    ensures Toggled(Toggled(tags, tag, true), tag, false) == tags
  {
    ToggleOffAfterOn(tags, tag);
    FilterKeepsAll(tags, NotTag(tag));
  }

  /** The patch a typography toggle hands to `updateOverlay` for `o`; it
      never touches the identifier, and applying it gives `o` the toggled
      tags. */
  function TypographyPatch(o: Record, tag: Tag, on: bool): (p: Patch)
    ensures p.Keys == {"typography"}
    ensures Get(Merge(o, p), "typography") == Some(List(Toggled(Tags(o), tag, on)))
    ensures Tags(Merge(o, p)) == Toggled(Tags(o), tag, on)
  {
    map["typography" := Some(List(Toggled(Tags(o), tag, on)))]
  }

  /** The panel's state: the overlay list with identifiers. */
  class VideoOverlaysPanel {
    var overlayList: seq<Record>

    /** Every item carries a `_uiId`, and no two carry the same one. */
    ghost predicate Valid()
      reads this
    {
      UniqueIds(overlayList, UiId)
    }

    /** The list starts as the parent's overlays, each given an identifier
        from `ids` (fresh and distinct, as generated identifiers are). */
    constructor (transforms: seq<Record>, ids: seq<string>)
      requires |ids| == |transforms|
      requires Distinct(ids)
      ensures overlayList == Seed(transforms, ids)
      ensures Valid()
    {
      overlayList := Seed(transforms, ids);
      SeedUnique(transforms, ids);
    }

    /** What the parent receives after every change. */
    function Published(): (r: seq<Record>)
      reads this
      ensures |r| == |overlayList|
      ensures forall i :: 0 <= i < |r| ==> UiId !in r[i] && SameExcept(r[i], overlayList[i], {UiId})
    {
      Publish(overlayList)
    }

    /** Adding appends the new default item, stamped with a fresh
        identifier; the items already there and their order are kept. */
    method AddOverlay(kind: Kind, freshId: string)
      requires Valid()
      requires forall i :: 0 <= i < |overlayList| ==> !HasId(overlayList[i], UiId, freshId)
      modifies this
      ensures overlayList == old(overlayList) + [Stamp(DefaultOverlay(kind), freshId)]
      ensures |overlayList| == |old(overlayList)| + 1
      ensures overlayList[..|old(overlayList)|] == old(overlayList)
      ensures Valid()
    {
      AppendKeepsUnique(overlayList, DefaultOverlay(kind), freshId);
      overlayList := overlayList + [Stamp(DefaultOverlay(kind), freshId)];
    }

    /** Spreads `p` into the item whose `_uiId` is `uiId`; `p` is an
        overlay's fields and cannot hold a `_uiId`. */
    method UpdateOverlay(uiId: string, p: Patch)
      requires Valid()
      requires UiId !in p
      modifies this
      ensures overlayList == UpdateWhere(old(overlayList), UiId, uiId, p)
      ensures Valid()
    {
      UpdateKeepsIds(overlayList, UiId, uiId, p);
      overlayList := UpdateWhere(overlayList, UiId, uiId, p);
    }

    /** Drops the item whose `_uiId` is `uiId`. */
    method RemoveOverlay(uiId: string)
      requires Valid()
      modifies this
      ensures overlayList == RemoveWhere(old(overlayList), UiId, uiId)
      ensures Valid()
    {
      RemoveKeepsUnique(overlayList, UiId, uiId);
      overlayList := RemoveWhere(overlayList, UiId, uiId);
    }

    /** A typography toggle on the item shown at position `i`: that item's
        tags are toggled, every other item is unchanged. */
    method ToggleTypography(i: nat, tag: Tag, on: bool)
      requires Valid()
      requires i < |overlayList|
      modifies this
      ensures |overlayList| == |old(overlayList)|
      ensures Get(overlayList[i], "typography") == Some(List(Toggled(Tags(old(overlayList)[i]), tag, on)))
      ensures Tags(overlayList[i]) == Toggled(Tags(old(overlayList)[i]), tag, on)
      ensures SameExcept(overlayList[i], old(overlayList)[i], {"typography"})
      ensures forall j :: 0 <= j < |overlayList| && j != i ==> overlayList[j] == old(overlayList)[j]
      ensures Valid()
    {
      var item := overlayList[i];
      var id := Get(item, UiId).value.s;
      var p := TypographyPatch(item, tag, on);
      forall j | 0 <= j < |overlayList| && j != i
        ensures !HasId(overlayList[j], UiId, id)
      {
        if j < i {
          assert Get(overlayList[j], UiId) != Get(overlayList[i], UiId);
        } else {
          assert Get(overlayList[i], UiId) != Get(overlayList[j], UiId);
        }
      }
      UpdateOverlay(id, p);
      assert overlayList[i] == Merge(item, p) by {
        RecordsEqual(overlayList[i], Merge(item, p));
      }
    }
  }
}
