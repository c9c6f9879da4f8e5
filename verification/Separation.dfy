/** No two stored items of a market are near duplicates, whatever order jobs run in. */
module Separation {
  import opened Records
  import opened Dedup
  import opened Protocol

  lemma MarkingKeepsSeparated(items: map<Id, Item>, ids: seq<Id>, t: Thresholds, distance: Distance)
    requires Separated(items, t, distance)
    ensures Separated(MarkDelivered(items, ids), t, distance)
  {
    var items' := MarkDelivered(items, ids);
    forall i, j | i in items' && j in items' && i != j && items'[i].market == items'[j].market
      ensures Apart(items'[i], items'[j], t, distance)
    {
      assert Apart(items[i], items[j], t, distance);
    }
  }

  lemma ApplyKeepsSeparated(s: State, ev: Event, c: Config)
    requires Enabled(s, ev, c) && Symmetric(c.distance) && Separated(s.db.items, c.thresholds, c.distance)
    ensures Separated(ApplyDb(s, ev, c).items, c.thresholds, c.distance)
  {
    if ev.Store? {
      InsertKeepsSeparated(s.db.items, ev.id, ev.item, ev.fingerprint, c.thresholds, c.distance);
    } else if ev.Work? && ev.step.Finish? {
      MarkingKeepsSeparated(s.db.items, s.db.logs[ev.log].run.value.mem.itemIds, c.thresholds, c.distance);
    } else {
      assert ApplyDb(s, ev, c).items == s.db.items;
    }
  }

  lemma {:induction false} RunKeepsSeparated(s: State, evs: seq<Event>, c: Config)
    requires Run(s, evs, c) && Symmetric(c.distance) && Separated(s.db.items, c.thresholds, c.distance)
    ensures Separated(After(s, evs, c).db.items, c.thresholds, c.distance)
    decreases |evs|
  {
    if evs != [] {
      ApplyKeepsSeparated(s, evs[0], c);
      RunKeepsSeparated(Apply(s, evs[0], c), evs[1..], c);
    }
  }

  /** In every reachable state, two different items of one market have different URLs, titles further
  apart than the threshold, and similarity below it. */
  lemma PairwiseSeparation(s: State, evs: seq<Event>, c: Config, i: Id, j: Id)
    requires Initial(s) && Run(s, evs, c) && Symmetric(c.distance)
    requires i in After(s, evs, c).db.items && j in After(s, evs, c).db.items && i != j
    requires After(s, evs, c).db.items[i].market == After(s, evs, c).db.items[j].market
    ensures Apart(After(s, evs, c).db.items[i], After(s, evs, c).db.items[j], c.thresholds, c.distance)
  {
    RunKeepsSeparated(s, evs, c);
  }
}
