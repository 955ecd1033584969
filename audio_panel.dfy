/** The audio panel: two switches over the video's `Audio` record and one
    reset, wired to both the "Reset Audio" and the "Reset All" button. */
module AudioPanel {
  import opened Sparse

  datatype AudioSwitch = Mute | ExtractAudio

  function Key(s: AudioSwitch): string
  {
    match s
    case Mute => "mute"
    case ExtractAudio => "extractAudio"
  }

  /** The presence/absence invariant of this panel: no switch is stored off. */
  ghost predicate Canonical(t: Record)
  {
    Get(t, "mute") != Some(Bool(false)) && Get(t, "extractAudio") != Some(Bool(false))
  }

  /** Flipping a switch: on stores `true`, off removes the field; nothing else
      changes. */
  function Toggle(t: Record, s: AudioSwitch, on: bool): (r: Record)
    ensures on ==> Get(r, Key(s)) == Some(Bool(true))
    ensures !on ==> Key(s) !in r
    ensures SameExcept(r, t, {Key(s)})
    ensures Canonical(t) ==> Canonical(r)
  {
    Merge(t, map[Key(s) := Switch(on)])
  }

  /** `update({mute: undefined, extractAudio: undefined})`. */
  function Reset(t: Record): (r: Record)
    ensures "mute" !in r && "extractAudio" !in r
    ensures SameExcept(r, t, {"mute", "extractAudio"})
    ensures Canonical(r)
  {
    Merge(t, Unset({"mute", "extractAudio"}))
  }

  /** Resetting twice is resetting once. */
  lemma ResetIdempotent(t: Record)
    ensures Reset(Reset(t)) == Reset(t)
  {
    RecordsEqual(Reset(Reset(t)), Reset(t));
  }

  /** A reset forgets every switch flipped before it. */
  lemma ResetAfterToggle(t: Record, s: AudioSwitch, on: bool)
    ensures Reset(Toggle(t, s, on)) == Reset(t)
  {
    RecordsEqual(Reset(Toggle(t, s, on)), Reset(t));
  }
}
