/** The order in which a batch's items are delivered: newest publication first, undated last,
then newest discovery first (app/worker/batching.py, _finalize_batch_delivery). */
module DeliveryOrder {
  import opened Records

  /** May a stand before b? Publication descending with nulls last, then discovery descending. */
  predicate MayPrecede(a: Item, b: Item) {
    if a.published == b.published then a.discovered >= b.discovered
    else b.published.None? || (a.published.Some? && a.published.value > b.published.value)
  }

  ghost predicate Ordered(items: map<Id, Item>, ids: seq<Id>) {
    && (forall i :: i in ids ==> i in items)
    && forall j, k :: 0 <= j < k < |ids| ==> MayPrecede(items[ids[j]], items[ids[k]])
  }

  /** Ties are the database's to break, so several listings may qualify. */
  ghost predicate IsListing(items: map<Id, Item>, chosen: set<Id>, ids: seq<Id>) {
    Distinct(ids) && Elements(ids) == chosen && Ordered(items, ids)
  }

  lemma MayPrecedeIsTotalPreorder(a: Item, b: Item, c: Item)
    ensures MayPrecede(a, b) || MayPrecede(b, a)
    ensures MayPrecede(a, b) && MayPrecede(b, c) ==> MayPrecede(a, c)
  {
  }

  /** What the order means: nothing dated follows anything undated, dates never increase, and
  among equal dates discovery times never increase. */
  lemma OrderedMeans(items: map<Id, Item>, ids: seq<Id>, j: nat, k: nat)
    requires Ordered(items, ids) && j < k < |ids|
    ensures var a, b := items[ids[j]], items[ids[k]];
            && (b.published.Some? ==> a.published.Some? && a.published.value >= b.published.value)
            && (a.published == b.published ==> a.discovered >= b.discovered)
  {
  }

  /** Insertion into an ordered listing, before the first entry the new one may precede. */
  method Insert(items: map<Id, Item>, ids: seq<Id>, i: Id) returns (r: seq<Id>)
    requires i in items && i !in ids && Distinct(ids) && Ordered(items, ids)
    ensures IsListing(items, Elements(ids) + {i}, r)
  {
    var p := 0;
    while p < |ids| && !MayPrecede(items[i], items[ids[p]])
      invariant p <= |ids|
      invariant forall j :: 0 <= j < p ==> MayPrecede(items[ids[j]], items[i])
    {
      MayPrecedeIsTotalPreorder(items[i], items[ids[p]], items[i]);
      p := p + 1;
    }
    r := ids[..p] + [i] + ids[p..];
    forall j, k | 0 <= j < k < |r|
      ensures r[j] != r[k] && MayPrecede(items[r[j]], items[r[k]])
    {
      if p < |ids| && j == p {
        MayPrecedeIsTotalPreorder(items[i], items[ids[p]], items[r[k]]);
      }
    }
    assert Elements(r) == Elements(ids) + {i} by {
      forall x ensures x in r <==> x in ids || x == i {
        assert x in ids ==> x in ids[..p] || x in ids[p..];
      }
    }
  }

  /** The listing of a batch's items, whatever order the rows are fetched in. */
  method List(items: map<Id, Item>, fetched: seq<Id>) returns (ids: seq<Id>)
    requires Distinct(fetched) && forall i :: i in fetched ==> i in items
    ensures IsListing(items, Elements(fetched), ids)
  {
    ids := [];
    for n := 0 to |fetched|
      invariant IsListing(items, Elements(fetched[..n]), ids)
    {
      assert fetched[n] !in fetched[..n];
      assert fetched[n] !in ids by {
        assert forall x :: x in ids <==> x in Elements(ids);
      }
      ids := Insert(items, ids, fetched[n]);
      assert Elements(fetched[..n + 1]) == Elements(fetched[..n]) + {fetched[n]};
    }
    assert fetched[..|fetched|] == fetched;
  }

  /** Reassembly for the payload: rows fetched by id in any order come back in the log's order. */
  method Reassemble(itemIds: seq<Id>, fetched: seq<(Id, Item)>) returns (items: seq<(Id, Item)>)
    requires forall j, k :: 0 <= j < k < |fetched| ==> fetched[j].0 != fetched[k].0
    ensures forall p :: p in items ==> p in fetched
    ensures Keys(items) == Present(itemIds, Elements(Keys(fetched)))
  {
    var byId: map<Id, Item> := map[];
    for n := 0 to |fetched|
      invariant byId.Keys == Elements(Keys(fetched[..n]))
      invariant forall i :: i in byId ==> (i, byId[i]) in fetched[..n]
    {
      KeysAppend(fetched[..n], fetched[n]);
      assert fetched[..n + 1] == fetched[..n] + [fetched[n]];
      byId := byId[fetched[n].0 := fetched[n].1];
    }
    assert fetched[..|fetched|] == fetched;
    items := [];
    for n := 0 to |itemIds|
      invariant forall p :: p in items ==> p in fetched
      invariant Keys(items) == Present(itemIds[..n], byId.Keys)
    {
      PresentAppend(itemIds[..n], itemIds[n], byId.Keys);
      assert itemIds[..n + 1] == itemIds[..n] + [itemIds[n]];
      if itemIds[n] in byId {
        KeysAppend(items, (itemIds[n], byId[itemIds[n]]));
        items := items + [(itemIds[n], byId[itemIds[n]])];
      }
    }
    assert itemIds[..|itemIds|] == itemIds;
  }

  function Keys(rows: seq<(Id, Item)>): seq<Id> {
    if rows == [] then [] else [rows[0].0] + Keys(rows[1..])
  }

  /** The ids of the listing that exist, in the listing's order. */
  function Present(ids: seq<Id>, existing: set<Id>): seq<Id> {
    if ids == [] then []
    else (if ids[0] in existing then [ids[0]] else []) + Present(ids[1..], existing)
  }

  lemma {:induction false} KeysAppend(rows: seq<(Id, Item)>, row: (Id, Item))
    ensures Keys(rows + [row]) == Keys(rows) + [row.0]
  {
    if rows == [] {
      assert rows + [row] == [row];
    } else {
      assert (rows + [row])[1..] == rows[1..] + [row];
      KeysAppend(rows[1..], row);
    }
  }

  /** Nothing is dropped but missing ids, and nothing is added; with no id missing the order is the log's own. */
  lemma {:induction false} PresentMeans(ids: seq<Id>, existing: set<Id>)
    ensures (forall i :: i in ids ==> i in existing) ==> Present(ids, existing) == ids
    ensures forall i :: i in Present(ids, existing) <==> i in ids && i in existing
  {
    if ids != [] {
      PresentMeans(ids[1..], existing);
    }
  }

  lemma {:induction false} PresentAppend(ids: seq<Id>, i: Id, existing: set<Id>)
    ensures Present(ids + [i], existing) == Present(ids, existing) + if i in existing then [i] else []
  {
    if ids == [] {
      assert ids + [i] == [i];
    } else {
      PresentAppend(ids[1..], i, existing);
      var head := if ids[0] in existing then [ids[0]] else [];
      calc {
        Present(ids + [i], existing);
        { assert (ids + [i])[0] == ids[0] && (ids + [i])[1..] == ids[1..] + [i]; }
        head + Present(ids[1..] + [i], existing);
        Present(ids, existing) + if i in existing then [i] else [];
      }
    }
  }
}
