/**
 * The list updaters the two instrument screens pass to `setInstruments`:
 * the spread that appends, the `map` that replaces or renames by id and the
 * `filter` that drops by id. Ids are compared with `===`, which is equality
 * of the id values.
 */
module ItemList {

  datatype Item<K> = Item(id: K, name: string)

  /** No entry of the list carries this id. */
  predicate Fresh<K(==)>(xs: seq<Item<K>>, id: K)
  {
    forall i :: 0 <= i < |xs| ==> xs[i].id != id
  }

  /** `xs.map(i => i.id === id ? x : i)`. */
  function ReplaceById<K(==)>(xs: seq<Item<K>>, id: K, x: Item<K>): (r: seq<Item<K>>)
    ensures |r| == |xs|
    ensures forall i :: 0 <= i < |xs| && xs[i].id == id ==> r[i] == x
    ensures forall i :: 0 <= i < |xs| && xs[i].id != id ==> r[i] == xs[i]
  {
    if xs == [] then []
    else [if xs[0].id == id then x else xs[0]] + ReplaceById(xs[1..], id, x)
  }

  /** `xs.map(i => i.id === id ? {...i, name} : i)`. */
  function RenameById<K(==)>(xs: seq<Item<K>>, id: K, name: string): (r: seq<Item<K>>)
    ensures |r| == |xs|
    ensures forall i :: 0 <= i < |xs| ==> r[i].id == xs[i].id
    ensures forall i :: 0 <= i < |xs| && xs[i].id == id ==> r[i].name == name
    ensures forall i :: 0 <= i < |xs| && xs[i].id != id ==> r[i] == xs[i]
  {
    if xs == [] then []
    else [if xs[0].id == id then Item(xs[0].id, name) else xs[0]] + RenameById(xs[1..], id, name)
  }

  /** `xs.filter(i => i.id !== id)`. */
  function RemoveById<K(==)>(xs: seq<Item<K>>, id: K): (r: seq<Item<K>>)
    ensures |r| <= |xs|
    ensures Fresh(r, id)
    ensures forall i :: 0 <= i < |r| ==> r[i] in xs
    ensures forall i :: 0 <= i < |xs| && xs[i].id != id ==> xs[i] in r
  {
    if xs == [] then []
    else (if xs[0].id == id then [] else [xs[0]]) + RemoveById(xs[1..], id)
  }

  /** The filter keeps the order: it works on each part of a list separately. */
  lemma {:induction false} RemoveDistributes<K>(xs: seq<Item<K>>, ys: seq<Item<K>>, id: K)
    ensures RemoveById(xs + ys, id) == RemoveById(xs, id) + RemoveById(ys, id)
  {
    if xs != [] {
      assert (xs + ys)[1..] == xs[1..] + ys;
      RemoveDistributes(xs[1..], ys, id);
      var head := if xs[0].id == id then [] else [xs[0]];
      assert RemoveById(xs + ys, id) == head + (RemoveById(xs[1..], id) + RemoveById(ys, id));
      assert RemoveById(xs, id) == head + RemoveById(xs[1..], id);
    } else {
      assert xs + ys == ys;
    }
  }

  /** Filtering out an id no entry carries changes nothing. */
  lemma {:induction false} RemoveFresh<K>(xs: seq<Item<K>>, id: K)
    requires Fresh(xs, id)
    ensures RemoveById(xs, id) == xs
  {
    if xs != [] {
      RemoveFresh(xs[1..], id);
    }
  }

  /** Replacing by an id no entry carries changes nothing. */
  lemma {:induction false} ReplaceFresh<K>(xs: seq<Item<K>>, id: K, x: Item<K>)
    requires Fresh(xs, id)
    ensures ReplaceById(xs, id, x) == xs
  {
    if xs != [] {
      ReplaceFresh(xs[1..], id, x);
    }
  }

  /** The map works on each part of a list separately. */
  lemma {:induction false} ReplaceDistributes<K>(xs: seq<Item<K>>, ys: seq<Item<K>>, id: K, x: Item<K>)
    ensures ReplaceById(xs + ys, id, x) == ReplaceById(xs, id, x) + ReplaceById(ys, id, x)
  {
    if xs != [] {
      assert (xs + ys)[1..] == xs[1..] + ys;
      ReplaceDistributes(xs[1..], ys, id, x);
    } else {
      assert xs + ys == ys;
    }
  }

  /** Dropping a placeholder appended under a fresh id gives back the list before it. */
  lemma DropPlaceholder<K>(xs: seq<Item<K>>, id: K, name: string)
    requires Fresh(xs, id)
    ensures RemoveById(xs + [Item(id, name)], id) == xs
  {
    RemoveDistributes(xs, [Item(id, name)], id);
    RemoveFresh(xs, id);
  }

  /** Replacing a placeholder appended under a fresh id puts the new entry at the end. */
  lemma SwapPlaceholder<K>(xs: seq<Item<K>>, id: K, name: string, x: Item<K>)
    requires Fresh(xs, id)
    ensures ReplaceById(xs + [Item(id, name)], id, x) == xs + [x]
  {
    ReplaceDistributes(xs, [Item(id, name)], id, x);
    ReplaceFresh(xs, id, x);
  }

  /** Filtering twice by the same id is filtering once. */
  lemma RemoveIdempotent<K>(xs: seq<Item<K>>, id: K)
    ensures RemoveById(RemoveById(xs, id), id) == RemoveById(xs, id)
  {
    RemoveFresh(RemoveById(xs, id), id);
  }
}
