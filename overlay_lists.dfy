/** The list operations both overlay panels run on their `overlayList`:
    `list.map(o => o[key] === id ? {...o, ...patch} : o)` and
    `list.filter(o => o[key] !== id)`, where `key` is the field that carries
    the item's identifier. */
module OverlayLists {
  import opened Sparse

  /** `xs.filter(keep)`. */
  function Filter<T(!new)>(xs: seq<T>, keep: T -> bool): (r: seq<T>)
    ensures |r| <= |xs|
    ensures forall x :: x in r <==> x in xs && keep(x)
  {
    if xs == [] then []
    else if keep(xs[0]) then [xs[0]] + Filter(xs[1..], keep)
    else Filter(xs[1..], keep)
  }

  /** Filtering works piece by piece: it keeps the relative order of what it
      keeps. */
  lemma {:induction false} FilterConcat<T(!new)>(a: seq<T>, b: seq<T>, keep: T -> bool)
    ensures Filter(a + b, keep) == Filter(a, keep) + Filter(b, keep)
  {
    if a == [] {
      assert a + b == b;
    } else {
      assert (a + b)[1..] == a[1..] + b;
      FilterConcat(a[1..], b, keep);
    }
  }

  /** A filter that keeps every element returns the sequence unchanged. */
  lemma {:induction false} FilterKeepsAll<T(!new)>(xs: seq<T>, keep: T -> bool)
    requires forall i :: 0 <= i < |xs| ==> keep(xs[i])
    ensures Filter(xs, keep) == xs
  {
    if xs != [] {
      FilterKeepsAll(xs[1..], keep);
    }
  }

  /** A filter that rejects exactly the element at `k` removes it and keeps
      the rest in order. */
  lemma {:induction false} FilterDropsOne<T(!new)>(xs: seq<T>, keep: T -> bool, k: nat)
    requires k < |xs|
    requires !keep(xs[k])
    requires forall i :: 0 <= i < |xs| && i != k ==> keep(xs[i])
    ensures Filter(xs, keep) == xs[..k] + xs[k + 1..]
  {
    var tail := xs[1..];
    if k == 0 {
      assert forall i :: 0 <= i < |tail| ==> keep(tail[i]) by {
        forall i | 0 <= i < |tail| ensures keep(tail[i]) {
          assert tail[i] == xs[i + 1];
        }
      }
      FilterKeepsAll(tail, keep);
    } else {
      assert forall i :: 0 <= i < |tail| && i != k - 1 ==> keep(tail[i]) by {
        forall i | 0 <= i < |tail| && i != k - 1 ensures keep(tail[i]) {
          assert tail[i] == xs[i + 1];
        }
      }
      FilterDropsOne(tail, keep, k - 1);
      assert xs[..k] == [xs[0]] + tail[..k - 1];
      assert xs[k + 1..] == tail[k..];
    }
  }

  /** The item carries identifier `id` in its field `key`. */
  predicate HasId(o: Record, key: string, id: string)
  {
    Get(o, key) == Some(Str(id))
  }

  /** The filter callback `o => o[key] !== id`. */
  function NotId(key: string, id: string): Record -> bool
  {
    o => !HasId(o, key, id)
  }

  /** Every item carries a string identifier at `key`, and no two items carry
      the same one. */
  ghost predicate UniqueIds(xs: seq<Record>, key: string)
  {
    && (forall i :: 0 <= i < |xs| ==> Get(xs[i], key).Some? && Get(xs[i], key).value.Str?)
    && (forall i, j :: 0 <= i < j < |xs| ==> Get(xs[i], key) != Get(xs[j], key))
  }

  /** Update by identifier: the list keeps its length and order; an item with
      another identifier is unchanged; a matching item takes the patch's
      fields and keeps all its others. */
  function UpdateWhere(xs: seq<Record>, key: string, id: string, p: Patch): (r: seq<Record>)
    ensures |r| == |xs|
    ensures forall i :: 0 <= i < |xs| && !HasId(xs[i], key, id) ==> r[i] == xs[i]
    ensures forall i, f :: 0 <= i < |xs| && HasId(xs[i], key, id) ==>
              Get(r[i], f) == (if f in p then p[f] else Get(xs[i], f))
  {
    if xs == [] then []
    else [if HasId(xs[0], key, id) then Merge(xs[0], p) else xs[0]] + UpdateWhere(xs[1..], key, id, p)
  }

  /** Updating an identifier no item carries leaves the list unchanged. */
  lemma UpdateMissing(xs: seq<Record>, key: string, id: string, p: Patch)
    requires forall i :: 0 <= i < |xs| ==> !HasId(xs[i], key, id)
    ensures UpdateWhere(xs, key, id, p) == xs
  {
  }

  /** A patch that does not touch the identifier field keeps every identifier,
      so identifiers stay unique. */
  lemma UpdateKeepsIds(xs: seq<Record>, key: string, id: string, p: Patch)
    requires key !in p
    requires UniqueIds(xs, key)
    ensures var r := UpdateWhere(xs, key, id, p);
            (forall i :: 0 <= i < |xs| ==> Get(r[i], key) == Get(xs[i], key)) && UniqueIds(r, key)
  {
    var r := UpdateWhere(xs, key, id, p);
    assert forall i :: 0 <= i < |xs| ==> Get(r[i], key) == Get(xs[i], key);
  }

  /** Remove by identifier: no item with that identifier is left, every other
      item is kept. */
  function RemoveWhere(xs: seq<Record>, key: string, id: string): (r: seq<Record>)
    ensures |r| <= |xs|
    ensures forall i :: 0 <= i < |r| ==> !HasId(r[i], key, id)
    ensures forall i :: 0 <= i < |xs| && !HasId(xs[i], key, id) ==> xs[i] in r
  {
    var r := Filter(xs, NotId(key, id));
    assert forall i :: 0 <= i < |r| ==> r[i] in r && NotId(key, id)(r[i]);
    r
  }

  /** Removal keeps the relative order of the remaining items. */
  lemma RemoveConcat(a: seq<Record>, b: seq<Record>, key: string, id: string)
    ensures RemoveWhere(a + b, key, id) == RemoveWhere(a, key, id) + RemoveWhere(b, key, id)
  {
    FilterConcat(a, b, NotId(key, id));
  }

  /** Removing an identifier no item carries leaves the list unchanged. */
  lemma RemoveMissing(xs: seq<Record>, key: string, id: string)
    requires forall i :: 0 <= i < |xs| ==> !HasId(xs[i], key, id)
    ensures RemoveWhere(xs, key, id) == xs
  {
    FilterKeepsAll(xs, NotId(key, id));
  }

  /** With unique identifiers, removing the identifier of item `k` drops that
      one item: N items become the other N - 1, in their order. */
  lemma RemoveUnique(xs: seq<Record>, key: string, k: nat)
    requires UniqueIds(xs, key)
    requires k < |xs|
    ensures var r := RemoveWhere(xs, key, Get(xs[k], key).value.s);
            r == xs[..k] + xs[k + 1..] && |r| == |xs| - 1
  {
    var id := Get(xs[k], key).value.s;
    forall i | 0 <= i < |xs| && i != k
      ensures NotId(key, id)(xs[i])
    {
      if i < k {
        assert Get(xs[i], key) != Get(xs[k], key);
      } else {
        assert Get(xs[k], key) != Get(xs[i], key);
      }
    }
    FilterDropsOne(xs, NotId(key, id), k);
  }

  /** Removal keeps identifiers unique. */
  lemma {:induction false} RemoveKeepsUnique(xs: seq<Record>, key: string, id: string)
    requires UniqueIds(xs, key)
    ensures UniqueIds(RemoveWhere(xs, key, id), key)
  {
    if xs != [] {
      var tail := xs[1..];
      assert UniqueIds(tail, key) by {
        forall i, j | 0 <= i < j < |tail| ensures Get(tail[i], key) != Get(tail[j], key) {
          assert tail[i] == xs[i + 1] && tail[j] == xs[j + 1];
        }
      }
      RemoveKeepsUnique(tail, key, id);
      var rest := RemoveWhere(tail, key, id);
      assert RemoveWhere(xs, key, id) ==
             (if NotId(key, id)(xs[0]) then [xs[0]] else []) + rest;
      forall x | x in rest ensures Get(x, key) != Get(xs[0], key) {
        var j :| 0 <= j < |tail| && tail[j] == x;
        assert xs[j + 1] == x;
      }
    }
  }
}
