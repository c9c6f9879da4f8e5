/** The duplicate checks made under the market lock: app/worker/tasks.py and
app/dedup/vector_dedup.py. */
module Dedup {
  import opened Records
  import opened Bits
  import opened Simhash

  type Distance = (Vector, Vector) -> real

  datatype Thresholds = Thresholds(hamming: int, similarity: real)

  /** A stored title is a near duplicate of a fresh fingerprint. */
  predicate NearTitle(fingerprint: nat, stored: Option<int>, hamming: int) {
    stored.Some? && HammingDistance(fingerprint, FromSigned64(stored.value)) <= hamming
  }

  function Similarity(distance: Distance, a: Vector, b: Vector): real {
    1.0 - distance(a, b)
  }

  ghost predicate Symmetric(distance: Distance) {
    forall a, b :: distance(a, b) == distance(b, a)
  }

  function MarketItems(items: map<Id, Item>, market: Id): set<Id> {
    set i | i in items && items[i].market == market
  }

  /** No item of the market has this URL, a near title, or a similar enough embedding. */
  ghost predicate Clear(items: map<Id, Item>, market: Id, urlHash: Hash, fingerprint: nat, v: Vector,
                        t: Thresholds, distance: Distance)
  {
    forall i :: i in MarketItems(items, market) ==>
      && items[i].urlHash != urlHash
      && !NearTitle(fingerprint, items[i].title, t.hamming)
      && Similarity(distance, v, items[i].vector) < t.similarity
  }

  ghost predicate Apart(a: Item, b: Item, t: Thresholds, distance: Distance) {
    && a.urlHash != b.urlHash
    && (a.title.Some? && b.title.Some? ==>
          HammingDistance(FromSigned64(a.title.value), FromSigned64(b.title.value)) > t.hamming)
    && 1.0 - distance(a.vector, b.vector) < t.similarity
  }

  /** Any two stored items of one market are apart in every sense the checks know. */
  ghost predicate Separated(items: map<Id, Item>, t: Thresholds, distance: Distance) {
    forall i, j :: i in items && j in items && i != j && items[i].market == items[j].market ==>
      Apart(items[i], items[j], t, distance)
  }

  /** Storing an item that passed the checks keeps all pairs apart, in both directions. */
  lemma InsertKeepsSeparated(items: map<Id, Item>, i: Id, item: Item, fingerprint: nat,
                            t: Thresholds, distance: Distance)
    requires Symmetric(distance) && Separated(items, t, distance)
    requires i !in items && fingerprint < FULL && item.title == Some(ToSigned64(fingerprint))
    requires Clear(items, item.market, item.urlHash, fingerprint, item.vector, t, distance)
    ensures Separated(items[i := item], t, distance)
  {
    SignedStorage(fingerprint, fingerprint);
    forall j | j in items && items[j].market == item.market
      ensures Apart(item, items[j], t, distance) && Apart(items[j], item, t, distance)
    {
      assert j in MarketItems(items, item.market);
      if items[j].title.Some? {
        DistanceIsMetric(fingerprint, FromSigned64(items[j].title.value), 0);
      }
    }
  }

  /** Checking only the nearest neighbour covers every item of the market: the query returns a
  nearest row, and the answer is None exactly when no item at all reaches the threshold. */
  method FindSimilar(items: map<Id, Item>, market: Id, v: Vector, threshold: real, distance: Distance)
    returns (r: Option<Id>)
    ensures r.None? <==>
              forall i :: i in items && items[i].market == market ==> 1.0 - distance(v, items[i].vector) < threshold
    ensures r.Some? ==>
              && r.value in items && items[r.value].market == market
              && 1.0 - distance(v, items[r.value].vector) >= threshold
              && forall i :: i in items && items[i].market == market ==>
                   distance(v, items[r.value].vector) <= distance(v, items[i].vector)
  {
    var rest := MarketItems(items, market);
    if rest == {} {
      return None;
    }
    var nearest :| nearest in rest;
    rest := rest - {nearest};
    while rest != {}
      invariant nearest in MarketItems(items, market) && rest <= MarketItems(items, market)
      invariant forall i :: i in MarketItems(items, market) - rest ==>
                  distance(v, items[nearest].vector) <= distance(v, items[i].vector)
      decreases rest
    {
      var i :| i in rest;
      if distance(v, items[i].vector) < distance(v, items[nearest].vector) {
        nearest := i;
      }
      rest := rest - {i};
    }
    r := if Similarity(distance, v, items[nearest].vector) >= threshold then Some(nearest) else None;
  }

  /** The fetch-and-scan for an exact URL already stored. */
  method UrlStored(items: map<Id, Item>, market: Id, urlHash: Hash) returns (found: bool)
    ensures found <==> exists i :: i in items && items[i].market == market && items[i].urlHash == urlHash
  {
    var rest := MarketItems(items, market);
    while rest != {}
      invariant rest <= MarketItems(items, market)
      invariant forall i :: i in MarketItems(items, market) - rest ==> items[i].urlHash != urlHash
      decreases rest
    {
      var i :| i in rest;
      if items[i].urlHash == urlHash {
        return true;
      }
      rest := rest - {i};
    }
    found := false;
  }

  /** The scan for a near-duplicate title; rows without a fingerprint are passed over. */
  method TitleStored(items: map<Id, Item>, market: Id, fingerprint: nat, hamming: int) returns (found: bool)
    ensures found <==>
              exists i :: i in items && items[i].market == market && items[i].title.Some?
                          && HammingDistance(fingerprint, FromSigned64(items[i].title.value)) <= hamming
  {
    var rest := MarketItems(items, market);
    while rest != {}
      invariant rest <= MarketItems(items, market)
      invariant forall i :: i in MarketItems(items, market) - rest ==> !NearTitle(fingerprint, items[i].title, hamming)
      decreases rest
    {
      var i :| i in rest;
      if NearTitle(fingerprint, items[i].title, hamming) {
        return true;
      }
      rest := rest - {i};
    }
    found := false;
  }
}
