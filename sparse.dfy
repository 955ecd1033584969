/** Sparse configuration records, as every studio panel builds them.

    A panel's configuration is a JavaScript object whose fields are all
    optional. An absent key and a key holding `undefined` mean the same thing
    ("do not apply this transformation"), so a record is a finite map and a
    field that is not in the map is unset. A patch is the object literal a
    handler spreads over the current record: each of its keys either carries a
    value or carries `undefined`, which is `None` here. */
module Sparse {

  datatype Option<+T> = None | Some(value: T)

  /** The JavaScript values the panels store. `NaN` is what `parseInt` and
      `Number` give for text that is not a number. */
  datatype Value =
    | Bool(b: bool)
    | Num(n: real)
    | NaN
    | Str(s: string)
    | List(elems: seq<Value>)
    | Obj(fields: map<string, Value>)

  type Record = map<string, Value>

  type Patch = map<string, Option<Value>>

  /** The field `k` of `r`, `None` when it is unset. */
  function Get(r: Record, k: string): Option<Value>
  {
    if k in r then Some(r[k]) else None
  }

  /** `a` and `b` agree on every key outside `keys`. */
  ghost predicate SameExcept(a: Record, b: Record, keys: set<string>)
  {
    forall k :: k !in keys ==> Get(a, k) == Get(b, k)
  }

  /** Two records that agree on every key are the same record. */
  lemma RecordsEqual(a: Record, b: Record)
    requires forall k :: Get(a, k) == Get(b, k)
    ensures a == b
  {
    assert a.Keys == b.Keys by {
      forall k ensures k in a <==> k in b {
        assert Get(a, k) == Get(b, k);
      }
    }
    forall k | k in a ensures a[k] == b[k] {
      assert Get(a, k) == Get(b, k);
    }
  }

  /** `{...cur, ...patch}`: every key of the patch is overwritten or, when it
      carries `undefined`, removed; every other key is carried over. */
  function Merge(cur: Record, patch: Patch): (r: Record)
    ensures forall k :: Get(r, k) == (if k in patch then patch[k] else Get(cur, k))
    ensures r.Keys <= cur.Keys + patch.Keys
  {
    map k | k in cur.Keys + patch.Keys && (k in patch ==> patch[k].Some?) ::
      if k in patch then patch[k].value else cur[k]
  }

  /** Spreading the same patch twice changes nothing the first spread did not. */
  lemma MergeIdempotent(cur: Record, patch: Patch)
    ensures Merge(Merge(cur, patch), patch) == Merge(cur, patch)
  {
    RecordsEqual(Merge(Merge(cur, patch), patch), Merge(cur, patch));
  }

  /** Two successive spreads are one spread of the combined patch, in which
      the later patch wins. */
  lemma MergeCompose(cur: Record, p: Patch, q: Patch)
    ensures Merge(Merge(cur, p), q) == Merge(cur, p + q)
  {
    RecordsEqual(Merge(Merge(cur, p), q), Merge(cur, p + q));
  }

  /** Spreading an empty patch copies the record. */
  lemma MergeEmpty(cur: Record)
    ensures Merge(cur, map[]) == cur
  {
    RecordsEqual(Merge(cur, map[]), cur);
  }

  /** The patch `{k1: undefined, k2: undefined, ...}` a reset handler spreads. */
  function Unset(keys: set<string>): (p: Patch)
    ensures p.Keys == keys
    ensures forall k :: k in p ==> p[k] == None
  {
    map k | k in keys :: None
  }

  /** Spreading an all-`undefined` patch removes exactly its keys. */
  lemma MergeUnset(cur: Record, keys: set<string>)
    ensures Merge(cur, Unset(keys)) == cur - keys
  {
    RecordsEqual(Merge(cur, Unset(keys)), cur - keys);
  }

  /** `{...r.k}`: the fields of the nested object at `k`; spreading a missing
      (or non-object) value gives the empty object. */
  function Sub(r: Record, k: string): Record
  {
    match Get(r, k)
    case Some(Obj(fields)) => fields
    case _ => map[]
  }

  /** A nested object outside the changed keys is the same object. */
  lemma SubKept(r: Record, t: Record, keys: set<string>, k: string)
    requires SameExcept(r, t, keys)
    requires k !in keys
    ensures Sub(r, k) == Sub(t, k)
  {
    assert Get(r, k) == Get(t, k);
  }

  /** The key `k` of `r` holds an object (possibly an empty one). */
  predicate HasObj(r: Record, k: string)
  {
    k in r && r[k].Obj?
  }

  /** `update({k: {...t.k, ...p}})`: the patch merged one level down. */
  function MergeAt(t: Record, k: string, p: Patch): (r: Record)
    ensures SameExcept(r, t, {k})
    ensures HasObj(r, k)
    ensures forall f :: Get(Sub(r, k), f) == (if f in p then p[f] else Get(Sub(t, k), f))
  {
    Merge(t, map[k := Some(Obj(Merge(Sub(t, k), p)))])
  }

  /** `update({outer: {...t.outer, inner: {...t.outer?.inner, ...p}}})`: the
      patch merged two levels down. */
  function MergeAt2(t: Record, outer: string, inner: string, p: Patch): (r: Record)
    ensures SameExcept(r, t, {outer})
    ensures HasObj(r, outer)
    ensures SameExcept(Sub(r, outer), Sub(t, outer), {inner})
    ensures HasObj(Sub(r, outer), inner)
    ensures forall f :: Get(Sub(Sub(r, outer), inner), f) ==
                        (if f in p then p[f] else Get(Sub(Sub(t, outer), inner), f))
  {
    MergeAt(t, outer, map[inner := Some(Obj(Merge(Sub(Sub(t, outer), inner), p)))])
  }

  // ---------------------------------------------------------------------
  // Elision rules: the value a control writes into a patch.
  // ---------------------------------------------------------------------

  /** `checked ? true : undefined`: a switch never stores `false`. */
  function Switch(on: bool): (v: Option<Value>)
    ensures v != Some(Bool(false))
    ensures v.Some? <==> on
    ensures on ==> v == Some(Bool(true))
  {
    if on then Some(Bool(true)) else None
  }

  /** `value === off ? undefined : value` for a slider. */
  function Slider(x: real, off: real): (v: Option<Value>)
    ensures v != Some(Num(off))
    ensures v == None <==> x == off
    ensures x != off ==> v == Some(Num(x))
  {
    if x == off then None else Some(Num(x))
  }

  /** `value === off ? undefined : value` for a select. */
  function Choice(x: string, off: string): (v: Option<Value>)
    ensures v != Some(Str(off))
    ensures v == None <==> x == off
    ensures x != off ==> v == Some(Str(x))
  {
    if x == off then None else Some(Str(x))
  }

  /** `text || undefined`: empty text input clears the field. */
  function TextOrUnset(text: string): (v: Option<Value>)
    ensures v != Some(Str(""))
    ensures v == None <==> text == ""
    ensures text != "" ==> v == Some(Str(text))
  {
    if text == "" then None else Some(Str(text))
  }

  /** A number as `parseInt` or `Number` gives it, `None` standing for NaN. */
  function Number(parsed: Option<real>): Value
  {
    match parsed
    case Some(x) => Num(x)
    case None => NaN
  }

  /** The result of `parseInt`, `None` standing for NaN. */
  function IntNumber(parsed: Option<int>): Value
  {
    match parsed
    case Some(n) => Num(n as real)
    case None => NaN
  }

  /** `text ? parseInt(text) : undefined`: empty number input clears the field,
      any other text stores what `parseInt` makes of it. */
  function ParsedOrUnset(text: string, parsed: Option<int>): (v: Option<Value>)
    ensures v == None <==> text == ""
    ensures text != "" ==> v == Some(IntNumber(parsed))
  {
    if text == "" then None else Some(IntNumber(parsed))
  }

  /** JavaScript truthiness of an optional field. */
  predicate Truthy(v: Option<Value>)
  {
    match v
    case None => false
    case Some(Bool(b)) => b
    case Some(Num(x)) => x != 0.0
    case Some(NaN) => false
    case Some(Str(s)) => s != ""
    case Some(List(_)) => true
    case Some(Obj(_)) => true
  }

  /** `v || fallback`. */
  function OrElse(v: Option<Value>, fallback: Value): (r: Value)
    ensures Truthy(v) ==> Some(r) == v
    ensures !Truthy(v) ==> r == fallback
  {
    if Truthy(v) then v.value else fallback
  }

  /** `s.replace("#", "")`: the first `#` removed, the rest kept in order. */
  function RemoveFirstHash(s: string): (r: string)
    ensures '#' !in s ==> r == s
    ensures '#' in s ==> |r| == |s| - 1
    ensures |s| > 0 && s[0] == '#' ==> r == s[1..]
    ensures '#' in s ==> r == s[..FirstHash(s)] + s[FirstHash(s) + 1..]
  {
    if s == [] then []
    else if s[0] == '#' then s[1..]
    else
      var kept := [s[0]] + RemoveFirstHash(s[1..]);
      assert '#' in s[1..] ==> s[..FirstHash(s)] == [s[0]] + s[1..][..FirstHash(s[1..])];
      kept
  }

  /** The position of the first `#` in `s`. */
  function FirstHash(s: string): (i: nat)
    requires '#' in s
    ensures i < |s| && s[i] == '#' && '#' !in s[..i]
  {
    if s[0] == '#' then 0 else 1 + FirstHash(s[1..])
  }
}
