/** What the protocol promises its subscribers, over every run from a fresh deployment. */
module Guarantees {
  import opened Records
  import opened DeliveryOrder
  import opened Protocol
  import opened Invariants
  import opened Safety
  import D = Delivery

  // ---- a batch closes once ----

  ghost predicate IsClosed(db: Db, b: Id) {
    b in db.batches && db.batches[b].status == Closed
  }

  lemma SettleFreezesClosed(db: Db, x: Id, slot: Hash, r: Resolution, supply: Supply, b: Id)
    requires x in db.batches && IsClosed(db, b)
    ensures b in Settle(db, x, slot, r, supply).batches && Settle(db, x, slot, r, supply).batches[b] == db.batches[b]
  {
  }

  lemma ApplyFreezesClosed(s: State, ev: Event, c: Config, b: Id)
    requires Enabled(s, ev, c) && IsClosed(s.db, b)
    ensures b in ApplyDb(s, ev, c).batches && ApplyDb(s, ev, c).batches[b] == s.db.batches[b]
  {
    match ev
    case Dispatch(x, slot, supply) =>
      SettleFreezesClosed(s.db, x, slot, Resolution(CollidedPriorCycle, None), supply, b);
    case Drop(job, outcome, _, supply) =>
      if s.q.jobs[job].Some? {
        SettleFreezesClosed(s.db, s.q.jobs[job].value, job.1, Resolution(outcome, None), supply, b);
      }
    case Store(job, i, item, _, _, supply) =>
      if s.q.jobs[job].Some? {
        SettleFreezesClosed(WithItem(s.db, i, item), s.q.jobs[job].value, job.1,
                            Resolution(Stored, Some(i)), supply, b);
      }
    case SetActive(_, _) =>
    case OpenBatch(_, _, _, _) =>
    case ReleaseId(_) =>
    case Abandon(_) =>
    case SoloCommit(_, _) =>
    case LoseStraggler(_) =>
    case Sweep(_, _) =>
    case Work(_, _) =>
  }

  /** A closed batch never reopens and its counter never moves again. */
  lemma {:induction false} ClosedForGood(s: State, evs: seq<Event>, c: Config, b: Id)
    requires Run(s, evs, c) && IsClosed(s.db, b)
    ensures b in After(s, evs, c).db.batches && After(s, evs, c).db.batches[b] == s.db.batches[b]
    decreases |evs|
  {
    if evs != [] {
      ApplyFreezesClosed(s, evs[0], c, b);
      ClosedForGood(Apply(s, evs[0], c), evs[1..], c, b);
    }
  }

  /** Two delivery logs never carry the same key, so the idempotency key sent with the webhook
  names one delivery; a log under a batch's own id belongs to that batch, closed. */
  lemma UniqueIdempotencyKey(s: State, evs: seq<Event>, c: Config, l: Id, k: Id)
    requires Initial(s) && Run(s, evs, c)
    requires l in After(s, evs, c).db.logs && k in After(s, evs, c).db.logs
    ensures var db := After(s, evs, c).db;
            && (db.logs[l].row.batchId == db.logs[k].row.batchId <==> l == k)
            && (db.logs[l].row.batchId in db.batches ==> IsClosed(db, db.logs[l].row.batchId))
            && (db.logs[l].row.batchId !in db.batches ==> |db.logs[l].row.itemIds| == 1)
  {
    SafeRun(s, evs, c);
  }

  lemma SafeRun(s: State, evs: seq<Event>, c: Config)
    requires Initial(s) && Run(s, evs, c)
    ensures Inv(After(s, evs, c), c)
  {
    InitialInv(s, c);
    RunKeepsInv(s, evs, c);
  }

  // ---- what the close delivers ----

  /** Stored for this batch and its market. */
  ghost predicate OfBatch(db: Db, b: Id, i: Id)
    requires b in db.batches
  {
    i in db.items && db.items[i].market == db.batches[b].market && db.items[i].batch == Some(b)
  }

  /** Exactly one new log, listing the batch's items in delivery order; none if there are none. */
  ghost predicate ClosedInto(db: Db, db': Db, b: Id)
    requires b in db'.batches
  {
    if forall i :: !OfBatch(db', b, i) then db'.logs == db.logs
    else exists l :: ClosingLog(db, db', b, l)
  }

  ghost predicate ClosingLog(db: Db, db': Db, b: Id, l: Id)
    requires b in db'.batches
  {
    && l !in db.logs && l in db'.logs && db'.logs == db.logs[l := db'.logs[l]]
    && var row := db'.logs[l].row;
       && row == Log(db'.batches[b].market, b, row.itemIds, row.createdAt, 0, Pending, None, None, false, [])
       && Distinct(row.itemIds) && Ordered(db'.items, row.itemIds)
       && forall i :: i in row.itemIds <==> OfBatch(db', b, i)
  }

  lemma FinalizeInto(db: Db, db': Db, b: Id, supply: Supply)
    requires b in db'.batches
    requires supply.log !in db.logs && IsListing(db'.items, BatchItems(db', b), supply.listing)
    requires db'.logs == Finalize(db.logs, db'.batches[b].market, b, supply)
    ensures ClosedInto(db, db', b)
  {
    forall i ensures OfBatch(db', b, i) <==> i in supply.listing {
      assert i in supply.listing <==> i in Elements(supply.listing);
    }
    if supply.listing != [] {
      assert OfBatch(db', b, supply.listing[0]);
      assert ClosingLog(db, db', b, supply.log);
    }
  }

  lemma SettleCloses(db: Db, x: Id, slot: Hash, r: Resolution, supply: Supply, b: Id)
    requires SettleOk(db, x, slot, supply)
    requires b in db.batches && db.batches[b].status == Open && IsClosed(Settle(db, x, slot, r, supply), b)
    ensures ClosedInto(db, Settle(db, x, slot, r, supply), b)
  {
    var db' := Settle(db, x, slot, r, supply);
    assert x == b && Completes(db, b, slot);
    assert BatchItems(db', b) == BatchItems(db, b);
    FinalizeInto(db, db', b, supply);
  }

  lemma SweepCloses(db: Db, b: Id, supply: Supply)
    requires b in db.batches && db.batches[b].status == Open && ListingOk(db, b, supply)
    ensures ClosedInto(db, ForceClose(db, b, supply), b)
  {
    var db' := ForceClose(db, b, supply);
    assert BatchItems(db', b) == BatchItems(db, b);
    FinalizeInto(db, db', b, supply);
  }

  /** Whichever transaction closes a batch, it alone builds the batch's delivery: one log listing
  exactly the items the batch has at that moment, newest first, or no log if there are none. */
  lemma CloseDelivers(s: State, ev: Event, c: Config, b: Id)
    requires Enabled(s, ev, c)
    requires b in s.db.batches && s.db.batches[b].status == Open && IsClosed(ApplyDb(s, ev, c), b)
    ensures ClosedInto(s.db, ApplyDb(s, ev, c), b)
  {
    match ev
    case Dispatch(x, slot, supply) => SettleCloses(s.db, x, slot, Resolution(CollidedPriorCycle, None), supply, b);
    case Drop(job, outcome, _, supply) =>
      SettleCloses(s.db, s.q.jobs[job].value, job.1, Resolution(outcome, None), supply, b);
    case Store(job, i, item, _, _, supply) => StoreCloses(s, ev, c, b);
    case Sweep(x, supply) => SweepCloses(s.db, b, supply);
    case SetActive(_, _) =>
    case OpenBatch(_, _, _, _) =>
    case ReleaseId(_) =>
    case Abandon(_) =>
    case SoloCommit(_, _) =>
    case LoseStraggler(_) =>
    case Work(_, _) =>
  }

  lemma StoreCloses(s: State, ev: Event, c: Config, b: Id)
    requires ev.Store? && Enabled(s, ev, c)
    requires b in s.db.batches && s.db.batches[b].status == Open && IsClosed(ApplyDb(s, ev, c), b)
    ensures ClosedInto(s.db, ApplyDb(s, ev, c), b)
  {
    var db1 := WithItem(s.db, ev.id, ev.item);
    var db' := ApplyDb(s, ev, c);
    SettleCloses(db1, s.q.jobs[ev.job].value, ev.job.1, Resolution(Stored, Some(ev.id)), ev.supply, b);
    if exists i :: OfBatch(db', b, i) {
      var l :| ClosingLog(db1, db', b, l);
      assert ClosingLog(s.db, db', b, l);
    }
  }

  // ---- the counter ----

  /** In every reachable state: while a batch is open its counter is the number of ledger rows and
  below what is expected; afterwards the counter is at most the rows, and the rows at most what
  is expected. */
  lemma CounterAgreesWithLedger(s: State, evs: seq<Event>, c: Config, b: Id)
    requires Initial(s) && Run(s, evs, c)
    requires b in After(s, evs, c).db.batches
    ensures var s' := After(s, evs, c);
            && b in s'.q.plan
            && var rows := Rows(s'.db.ledger, s'.q.plan[b], b);
               var batch := s'.db.batches[b];
               && (forall h :: h in rows <==> (b, h) in s'.db.ledger)
               && batch.expected == |s'.q.plan[b]|
               && (batch.status == Open ==> batch.resolved == |rows| < batch.expected)
               && (batch.status == Closed ==> batch.resolved <= |rows| <= batch.expected)
  {
    SafeRun(s, evs, c);
    var s' := After(s, evs, c);
    assert BatchCounted(s'.db.batches[b], Rows(s'.db.ledger, s'.q.plan[b], b));
    forall h | (b, h) in s'.db.ledger ensures h in s'.q.plan[b] {
      assert (b, h).1 in s'.q.plan[(b, h).0];
    }
  }

  /** Does the run contain a sweep that finds this batch open? */
  ghost predicate SweptOpen(s: State, evs: seq<Event>, c: Config, b: Id)
    requires Run(s, evs, c)
    decreases |evs|
  {
    evs != [] && (
      || (evs[0].Sweep? && evs[0].batch == b && b in s.db.batches && s.db.batches[b].status == Open)
      || SweptOpen(Apply(s, evs[0], c), evs[1..], c, b))
  }

  lemma SettleAtParity(db: Db, x: Id, slot: Hash, r: Resolution, supply: Supply, b: Id)
    requires x in db.batches && !IsClosed(db, b) && IsClosed(Settle(db, x, slot, r, supply), b)
    requires forall y :: y in db.batches && db.batches[y].status == Open ==>
               db.batches[y].resolved < db.batches[y].expected
    ensures var batch := Settle(db, x, slot, r, supply).batches[b]; batch.resolved == batch.expected
  {
  }

  lemma OpenBelowExpected(s: State, c: Config)
    requires Inv(s, c)
    ensures forall y :: y in s.db.batches && s.db.batches[y].status == Open ==>
              s.db.batches[y].resolved < s.db.batches[y].expected
  {
    forall y | y in s.db.batches && s.db.batches[y].status == Open
      ensures s.db.batches[y].resolved < s.db.batches[y].expected
    {
      assert BatchCounted(s.db.batches[y], Rows(s.db.ledger, s.q.plan[y], y));
    }
  }

  /** The close is at parity unless a sweep makes it. */
  lemma CloseAtParity(s: State, ev: Event, c: Config, b: Id)
    requires Inv(s, c) && Enabled(s, ev, c) && !IsClosed(s.db, b) && IsClosed(ApplyDb(s, ev, c), b)
    ensures var batch := ApplyDb(s, ev, c).batches[b];
            if ev.Sweep? then ev.batch == b && b in s.db.batches && batch.resolved < batch.expected
            else batch.resolved == batch.expected
  {
    OpenBelowExpected(s, c);
    match ev
    case Dispatch(x, slot, supply) =>
      SettleAtParity(s.db, x, slot, Resolution(CollidedPriorCycle, None), supply, b);
    case Drop(job, outcome, _, supply) =>
      SettleAtParity(s.db, s.q.jobs[job].value, job.1, Resolution(outcome, None), supply, b);
    case Store(job, i, item, _, _, supply) =>
      SettleAtParity(WithItem(s.db, i, item), s.q.jobs[job].value, job.1, Resolution(Stored, Some(i)), supply, b);
    case Sweep(_, _) =>
    case SetActive(_, _) =>
    case OpenBatch(_, _, _, _) =>
    case ReleaseId(_) =>
    case Abandon(_) =>
    case SoloCommit(_, _) =>
    case LoseStraggler(_) =>
    case Work(_, _) =>
  }

  /** In every run, a closed batch has counted all its slots exactly when no sweep found it open:
  without the sweep it closes at precisely the last expected resolution. */
  lemma {:induction false} ClosedShortIffSwept(s: State, evs: seq<Event>, c: Config, b: Id)
    requires Inv(s, c) && Run(s, evs, c) && !IsClosed(s.db, b) && IsClosed(After(s, evs, c).db, b)
    ensures var batch := After(s, evs, c).db.batches[b];
            batch.resolved <= batch.expected && (batch.resolved < batch.expected <==> SweptOpen(s, evs, c, b))
    decreases |evs|
  {
    if evs != [] {
      var ev := evs[0];
      var s1 := Apply(s, ev, c);
      ApplyKeepsInv(s, ev, c);
      if IsClosed(s1.db, b) {
        CloseAtParity(s, ev, c, b);
        ClosedForGood(s1, evs[1..], c, b);
        NotSweptOnceClosed(s1, evs[1..], c, b);
      } else {
        if ev.Sweep? && ev.batch == b && b in s.db.batches {
          assert IsClosed(s1.db, b);
        }
        ClosedShortIffSwept(s1, evs[1..], c, b);
      }
    }
  }

  lemma {:induction false} NotSweptOnceClosed(s: State, evs: seq<Event>, c: Config, b: Id)
    requires Run(s, evs, c) && IsClosed(s.db, b)
    ensures !SweptOpen(s, evs, c, b)
    decreases |evs|
  {
    if evs != [] {
      ApplyFreezesClosed(s, evs[0], c, b);
      NotSweptOnceClosed(Apply(s, evs[0], c), evs[1..], c, b);
    }
  }

  // ---- what the ledger says ----

  /** The slot an event resolves, with the outcome and item it reports: a job that stores nothing its own
  outcome, a job that stores its item, a hand-over the queue refuses the collision. */
  ghost function Reported(s: State, ev: Event): Option<((Id, Hash), Resolution)> {
    match ev
    case Drop(job, outcome, _, _) =>
      if job in s.q.jobs && s.q.jobs[job].Some?
      then Some(((s.q.jobs[job].value, job.1), Resolution(outcome, None))) else None
    case Store(job, i, _, _, _, _) =>
      if job in s.q.jobs && s.q.jobs[job].Some?
      then Some(((s.q.jobs[job].value, job.1), Resolution(Stored, Some(i)))) else None
    case Dispatch(b, slot, _) =>
      if b in s.db.batches && (s.db.batches[b].market, slot) in s.q.taken
      then Some(((b, slot), Resolution(CollidedPriorCycle, None))) else None
    case _ => None
  }

  /** A slot not in the ledger gets a row with exactly what was reported, and no row ever changes. */
  lemma EventLedger(s: State, ev: Event, c: Config)
    requires Enabled(s, ev, c)
    ensures var ledger, said := s.db.ledger, Reported(s, ev);
            ApplyDb(s, ev, c).ledger ==
              if said.Some? && said.value.0 !in ledger then ledger[said.value.0 := said.value.1] else ledger
  {
    hide StoreOk, SettleOk, SoloOk, WorkOk, ListingOk;
  }

  /** What the first event to resolve the slot reports. */
  ghost function FirstReport(s: State, evs: seq<Event>, c: Config, k: (Id, Hash)): Option<Resolution>
    requires Run(s, evs, c)
    decreases |evs|
  {
    if evs == [] then None
    else
      var said := Reported(s, evs[0]);
      if said.Some? && said.value.0 == k then Some(said.value.1) else FirstReport(Apply(s, evs[0], c), evs[1..], c, k)
  }

  /** Over every run: a ledger row never changes, and a new one holds the outcome and item of the first
  event that resolved its slot. */
  lemma {:induction false} LedgerIsFirstReport(s: State, evs: seq<Event>, c: Config, k: (Id, Hash))
    requires Run(s, evs, c)
    ensures var ledger, ledger' := s.db.ledger, After(s, evs, c).db.ledger;
            if k in ledger then k in ledger' && ledger'[k] == ledger[k]
            else (if k in ledger' then Some(ledger'[k]) else None) == FirstReport(s, evs, c, k)
    decreases |evs|
  {
    hide Enabled, ApplyDb, ApplyQueue, Reported;
    if evs != [] {
      EventLedger(s, evs[0], c);
      LedgerIsFirstReport(Apply(s, evs[0], c), evs[1..], c, k);
    }
  }

  // ---- every slot is accounted for ----

  /** A batch cannot be left waiting: it is open only while some unresolved slot is still to be
  dispatched, has a live job, or was given up by its job. So once every candidate has been handed
  over and every job has ended normally, it is closed without any sweep. */
  lemma OpenOnlyIfAwaited(s: State, evs: seq<Event>, c: Config, b: Id)
    requires Initial(s) && Run(s, evs, c)
    requires b in After(s, evs, c).db.batches && After(s, evs, c).db.batches[b].status == Open
    ensures var s' := After(s, evs, c);
            b in s'.q.plan && exists h :: h in s'.q.plan[b] && Awaited(s', b, h)
  {
    var s' := After(s, evs, c);
    SafeRun(s, evs, c);
    var slots, rows := s'.q.plan[b], Rows(s'.db.ledger, s'.q.plan[b], b);
    assert BatchCounted(s'.db.batches[b], rows);
    assert rows != slots;
    var h :| h in slots && h !in rows;
    assert SlotAccounted(s'.q, s'.db.ledger, s'.db.batches[b].market, b, h);
    assert Awaited(s', b, h);
  }

  ghost predicate Awaited(s: State, b: Id, h: Hash)
    requires b in s.db.batches
  {
    && (b, h) !in s.db.ledger
    && ((b in s.q.undispatched && h in s.q.undispatched[b])
        || HasJob(s.q, JobOf(s.db, b, h), b) || (b, h) in s.q.abandoned)
  }

  /** Progress: a job of an open batch that ends with an outcome for an unresolved slot brings the
  batch one closer to closing. */
  lemma ResolutionCounts(s: State, ev: Event, c: Config, b: Id)
    requires Inv(s, c) && Enabled(s, ev, c)
    requires (ev.Drop? || ev.Store?) && s.q.jobs[ev.job] == Some(b)
    requires b in s.db.batches && s.db.batches[b].status == Open && (b, ev.job.1) !in s.db.ledger
    ensures var batch, batch' := s.db.batches[b], ApplyDb(s, ev, c).batches[b];
            && batch'.expected - batch'.resolved == batch.expected - batch.resolved - 1
            && (batch'.status == Closed <==> batch'.resolved == batch'.expected)
  {
    assert BatchCounted(s.db.batches[b], Rows(s.db.ledger, s.q.plan[b], b));
  }

  // ---- conservation of items ----

  /** Stored, and neither waiting nor held nor listed: nothing will ever deliver it. */
  ghost predicate Orphan(db: Db, i: Id) {
    i in db.items && !Waiting(db, i) && i !in db.held && !Listed(db.logs, i)
  }

  /** The two ways to lose an item: a straggler dies between its commits, or a re-run stores an
  item for a slot that an earlier run of the same job had resolved in a batch now closed. */
  ghost predicate Loses(s: State, ev: Event, i: Id)
    requires ev.Store? ==> ev.job in s.q.jobs
  {
    || ev == LoseStraggler(i)
    || (ev.Store? && ev.id == i && s.q.jobs[ev.job].Some?
        && (s.q.jobs[ev.job].value, ev.job.1) in s.db.ledger && IsClosed(s.db, s.q.jobs[ev.job].value))
  }

  /** In every reachable state each stored item is in at most one place: waiting under its open batch,
  held by a straggler, or listed once by exactly one log. In none of them it is an orphan, which
  Conservation below characterises. */
  lemma ItemPlaces(s: State, evs: seq<Event>, c: Config, i: Id)
    requires Initial(s) && Run(s, evs, c) && i in After(s, evs, c).db.items
    ensures var db := After(s, evs, c).db;
            && !(Waiting(db, i) && i in db.held)
            && !(Waiting(db, i) && Listed(db.logs, i))
            && !(i in db.held && Listed(db.logs, i))
            && forall l :: Lists(db.logs, l, i) ==>
                 && (forall k :: Lists(db.logs, k, i) ==> k == l)
                 && (exists j :: 0 <= j < |db.logs[l].row.itemIds| && db.logs[l].row.itemIds[j] == i)
                 && Distinct(db.logs[l].row.itemIds)
  {
    SafeRun(s, evs, c);
  }

  lemma ClosePlaces(db: Db, c: Config, b: Id, batch: Batch, supply: Supply, db': Db, i: Id)
    requires b in db.batches && db.batches[b].status == Open && db.batches[b].market in db.markets
    requires batch.market == db.batches[b].market && batch.status == Closed && ListingOk(db, b, supply)
    requires RowsOk(db.logs, db.items, db.batches, db.markets) && MachinesOk(db.logs, c) && Exclusive(db)
    requires ItemShape(db.items, db.batches, db.markets)
    requires db'.items == db.items && db'.batches == db.batches[b := batch]
    requires db'.logs == Finalize(db.logs, batch.market, b, supply)
    ensures i in db.items ==>
              && (Waiting(db', i) <==> Waiting(db, i) && db.items[i].batch != Some(b))
              && (Listed(db'.logs, i) <==> Listed(db.logs, i) || db.items[i].batch == Some(b))
  {
    CloseKeepsLogs(db, c, b, batch, supply);
  }

  lemma SettleOrphan(db: Db, plan: Plan, c: Config, b: Id, slot: Hash, r: Resolution, supply: Supply, i: Id)
    requires DbInv(db, plan, c) && SettlePre(db, plan, b, slot, r, supply)
    ensures Orphan(Settle(db, b, slot, r, supply), i) <==>
            Orphan(db, i) && !(r.item == Some(i) && (b, slot) !in db.ledger && IsClosed(db, b))
  {
    var db' := Settle(db, b, slot, r, supply);
    if Completes(db, b, slot) {
      ClosePlaces(db, c, b, Count(db.batches[b]), supply, db', i);
    } else {
      assert Waiting(db', i) <==> Waiting(db, i);
    }
  }

  lemma SoloOrphan(db: Db, plan: Plan, c: Config, i: Id, supply: Supply, x: Id)
    requires DbInv(db, plan, c) && i in db.items && SoloOk(db, supply)
    ensures Orphan(Solo(db, i, supply), x) <==> Orphan(db, x) && x != i
  {
    AddLogListing(db.logs, db.items[i].market, supply.key, [i], supply, x);
    assert Waiting(Solo(db, i, supply), x) <==> Waiting(db, x);
  }

  lemma StoreOrphan(s: State, ev: Event, c: Config, i: Id)
    requires Inv(s, c) && ev.Store? && Enabled(s, ev, c)
    ensures Orphan(ApplyDb(s, ev, c), i) <==> Orphan(s.db, i) || Loses(s, ev, i)
  {
    var db1 := WithItem(s.db, ev.id, ev.item);
    WithItemKeepsDb(s.db, s.q.plan, c, ev.id, ev.item);
    assert i != ev.id ==> (Orphan(db1, i) <==> Orphan(s.db, i));
    if s.q.jobs[ev.job].Some? {
      var b := s.q.jobs[ev.job].value;
      assert Orphan(db1, ev.id) <==> IsClosed(s.db, b);
      SettleOrphan(db1, s.q.plan, c, b, ev.job.1, Resolution(Stored, Some(ev.id)), ev.supply, i);
    } else {
      SoloOrphan(db1, s.q.plan, c, ev.id, ev.supply, i);
    }
  }

  lemma SweepOrphan(db: Db, plan: Plan, c: Config, b: Id, supply: Supply, i: Id)
    requires DbInv(db, plan, c) && b in db.batches
    requires db.batches[b].status == Open ==> ListingOk(db, b, supply)
    ensures Orphan(ForceClose(db, b, supply), i) <==> Orphan(db, i)
  {
    if db.batches[b].status == Open {
      ClosePlaces(db, c, b, db.batches[b].(status := Closed), supply, ForceClose(db, b, supply), i);
    }
  }

  lemma WorkOrphan(db: Db, plan: Plan, c: Config, l: Id, step: D.Event, i: Id)
    requires DbInv(db, plan, c) && WorkOk(db, l, step)
    ensures Orphan(WorkStep(db, l, step, c), i) <==> Orphan(db, i)
  {
    var db' := WorkStep(db, l, step, c);
    WorkEffect(db, c, l, step);
    SameListingKeepsRows(db.logs, db'.logs, db.items, db'.items, db.batches, db.markets);
    assert Waiting(db', i) <==> Waiting(db, i);
  }

  lemma OpenOrphan(s: State, ev: Event, c: Config, i: Id)
    requires Inv(s, c) && ev.OpenBatch? && Enabled(s, ev, c)
    ensures Orphan(ApplyDb(s, ev, c), i) <==> Orphan(s.db, i)
  {
    hide Listed, RowsOk, Counted, MachinesOk, QueueInv, Exclusive;
    assert i in s.db.items && s.db.items[i].batch.Some? ==> s.db.items[i].batch.value in s.db.batches;
    assert Waiting(ApplyDb(s, ev, c), i) <==> Waiting(s.db, i);
  }

  /** A market switch or a straggler's death moves no other item. */
  lemma QuietOrphan(s: State, ev: Event, c: Config, i: Id)
    requires Enabled(s, ev, c) && (ev.SetActive? || ev.LoseStraggler?)
    requires ev.LoseStraggler? ==> Inv(s, c)
    ensures Orphan(ApplyDb(s, ev, c), i) <==> Orphan(s.db, i) || Loses(s, ev, i)
  {
    assert Waiting(ApplyDb(s, ev, c), i) <==> Waiting(s.db, i);
  }

  /** One event orphans an item exactly if it is one of the two losing events for that item, and no
  event ever brings an orphan back. */
  lemma OrphanStep(s: State, ev: Event, c: Config, i: Id)
    requires Inv(s, c) && Enabled(s, ev, c)
    ensures Orphan(ApplyDb(s, ev, c), i) <==> Orphan(s.db, i) || Loses(s, ev, i)
  {
    hide StoreOk, SoloOk, ListingOk, Orphan, Waiting, Settle, Solo, ForceClose, WorkStep;
    var db, plan := s.db, s.q.plan;
    match ev
    case SetActive(_, _) => QuietOrphan(s, ev, c, i);
    case OpenBatch(_, _, _, _) => OpenOrphan(s, ev, c, i);
    case Dispatch(b, slot, supply) =>
      if JobOf(db, b, slot) in s.q.taken {
        SettleOrphan(db, plan, c, b, slot, Resolution(CollidedPriorCycle, None), supply, i);
      }
    case ReleaseId(_) =>
    case Abandon(_) =>
    case Drop(job, outcome, _, supply) =>
      if s.q.jobs[job].Some? {
        SettleOrphan(db, plan, c, s.q.jobs[job].value, job.1, Resolution(outcome, None), supply, i);
      }
    case Store(_, _, _, _, _, _) => StoreOrphan(s, ev, c, i);
    case SoloCommit(x, supply) =>
      SoloOrphan(db, plan, c, x, supply, i);
      HeldIsNoOrphan(db, x);
    case LoseStraggler(_) => QuietOrphan(s, ev, c, i);
    case Sweep(b, supply) => SweepOrphan(db, plan, c, b, supply, i);
    case Work(l, step) => WorkOrphan(db, plan, c, l, step, i);
  }

  lemma HeldIsNoOrphan(db: Db, x: Id)
    requires x in db.held
    ensures !Orphan(db, x)
  {
  }

  ghost predicate LostIn(s: State, evs: seq<Event>, c: Config, i: Id)
    requires Run(s, evs, c)
    decreases |evs|
  {
    evs != [] && (Loses(s, evs[0], i) || LostIn(Apply(s, evs[0], c), evs[1..], c, i))
  }

  lemma {:induction false} OrphansFrom(s: State, evs: seq<Event>, c: Config, i: Id)
    requires Inv(s, c) && Run(s, evs, c)
    ensures Orphan(After(s, evs, c).db, i) <==> Orphan(s.db, i) || LostIn(s, evs, c, i)
    decreases |evs|
  {
    if evs != [] {
      ApplyKeepsInv(s, evs[0], c);
      OrphanStep(s, evs[0], c, i);
      OrphansFrom(Apply(s, evs[0], c), evs[1..], c, i);
    }
  }

  /** Conservation: over any run, an item ends up undeliverable if and only if the run contains one of
  the two losing events for it. Every other stored item waits under an open batch, is held by a live
  straggler, or is listed. */
  lemma Conservation(s: State, evs: seq<Event>, c: Config, i: Id)
    requires Initial(s) && Run(s, evs, c)
    ensures Orphan(After(s, evs, c).db, i) <==> LostIn(s, evs, c, i)
  {
    InitialInv(s, c);
    OrphansFrom(s, evs, c, i);
  }

  // ---- deliveries ----

  /** In every reachable state, of every delivery log: the sent list is a duplicate-free prefix of the
  sorted listing and starts only after the webhook; each channel accepted at most one call more than
  the runs that crashed; and the attempt counter is bounded by the limit, the progress there is to
  make, and the runs begun on a dead-lettered row. */
  lemma DeliveryBounds(s: State, evs: seq<Event>, c: Config, l: Id)
    requires Initial(s) && Run(s, evs, c) && l in After(s, evs, c).db.logs
    ensures var m := After(s, evs, c).db.logs[l];
            && Ordered(After(s, evs, c).db.items, m.row.itemIds)
            && m.row.telegramSent <= m.row.itemIds && Distinct(m.row.telegramSent)
            && (m.row.telegramSent != [] ==> m.row.webhookDelivered)
            && (m.row.status == Success ==> m.row.webhookDelivered)
            && (m.row.status == Success && !m.tally.skippedTelegram ==> m.row.telegramSent == m.row.itemIds)
            && m.tally.hooks <= 1 + m.tally.crashes
            && (forall i :: D.Sent(m.tally, i) <= 1 + m.tally.crashes)
            && m.row.attempt <= D.Limit(c.maxAttempts) + 1 + |m.row.itemIds| + m.tally.revived
            && (m.tally.crashes == 0 && m.run.None? && m.tally.ended >= D.Limit(c.maxAttempts) ==>
                  m.row.status in {Success, DeadLetter})
  {
    SafeRun(s, evs, c);
    var db := After(s, evs, c).db;
    assert RowOk(db.logs[l].row, db.items, db.batches, db.markets);
    assert D.MachineOk(db.logs[l], c.maxAttempts);
  }

  lemma SettleKeepsLog(db: Db, b: Id, slot: Hash, r: Resolution, supply: Supply, l: Id)
    requires SettleOk(db, b, slot, supply) && l in db.logs
    ensures var logs := Settle(db, b, slot, r, supply).logs; l in logs && logs[l] == db.logs[l]
  {
  }

  /** Only its own deliveries change a log. */
  lemma OtherLogsStay(s: State, ev: Event, c: Config, l: Id)
    requires Enabled(s, ev, c) && l in s.db.logs && (ev.Work? ==> ev.log != l)
    ensures var logs := ApplyDb(s, ev, c).logs; l in logs && logs[l] == s.db.logs[l]
  {
    hide StoreOk, ListingOk, Settle;
    match ev
    case Dispatch(b, slot, supply) =>
      if JobOf(s.db, b, slot) in s.q.taken {
        SettleKeepsLog(s.db, b, slot, Resolution(CollidedPriorCycle, None), supply, l);
      }
    case Drop(job, outcome, _, supply) =>
      if s.q.jobs[job].Some? {
        SettleKeepsLog(s.db, s.q.jobs[job].value, job.1, Resolution(outcome, None), supply, l);
      }
    case Store(job, i, item, _, _, supply) =>
      if s.q.jobs[job].Some? {
        SettleKeepsLog(WithItem(s.db, i, item), s.q.jobs[job].value, job.1, Resolution(Stored, Some(i)), supply, l);
      }
    case Sweep(b, supply) => SweepKeepsLog(s.db, b, supply, l);
    case _ =>
  }

  lemma SweepKeepsLog(db: Db, b: Id, supply: Supply, l: Id)
    requires b in db.batches && l in db.logs && (db.batches[b].status == Open ==> ListingOk(db, b, supply))
    ensures var logs := ForceClose(db, b, supply).logs; l in logs && logs[l] == db.logs[l]
  {
  }

  /** A log no worker holds stays exactly as it is until the next delivery begins on it, and once it is
  delivered for good. The sweep begins none on a dead-lettered log. */
  lemma {:induction false} UntouchedUntilBegun(s: State, evs: seq<Event>, c: Config, l: Id)
    requires Run(s, evs, c) && l in s.db.logs && s.db.logs[l].run.None?
    requires s.db.logs[l].row.status == Success || forall ev :: ev in evs && ev.Work? && ev.log == l ==> !ev.step.Begin?
    ensures var logs := After(s, evs, c).db.logs; l in logs && logs[l] == s.db.logs[l]
    decreases |evs|
  {
    if evs != [] {
      assert evs[0] in evs;
      assert evs[0].Work? ==> evs[0].log != l;
      OtherLogsStay(s, evs[0], c, l);
      UntouchedUntilBegun(Apply(s, evs[0], c), evs[1..], c, l);
    }
  }

  /** What one event does to a dead-lettered log. */
  lemma DeadLetterStep(s: State, ev: Event, c: Config, l: Id)
    requires Inv(s, c) && Enabled(s, ev, c) && l in s.db.logs && s.db.logs[l].row.status == DeadLetter
    ensures var logs := ApplyDb(s, ev, c).logs;
            l in logs && if ev == Work(l, D.Finish) then logs[l].row.status == Success && logs[l].run.None?
                         else logs[l].row.status == DeadLetter
  {
    if ev.Work? && ev.log == l {
      assert D.MachineOk(s.db.logs[l], c.maxAttempts);
      D.TerminalStatus(s.db.logs[l], ev.step, c.maxAttempts);
    } else {
      OtherLogsStay(s, ev, c, l);
    }
  }

  /** A dead-lettered log ends dead-lettered or delivered, and delivered exactly if a delivery begun on
  it in spite of that finishes. */
  lemma {:induction false} DeadLetterUnlessFinished(s: State, evs: seq<Event>, c: Config, l: Id)
    requires Inv(s, c) && Run(s, evs, c) && l in s.db.logs && s.db.logs[l].row.status == DeadLetter
    ensures var logs := After(s, evs, c).db.logs;
            l in logs && logs[l].row.status == if Work(l, D.Finish) in evs then Success else DeadLetter
    decreases |evs|
  {
    hide Inv, Enabled, ApplyDb, ApplyQueue;
    if evs != [] {
      var s' := Apply(s, evs[0], c);
      DeadLetterStep(s, evs[0], c, l);
      ApplyKeepsInv(s, evs[0], c);
      assert evs == [evs[0]] + evs[1..];
      if evs[0] == Work(l, D.Finish) {
        UntouchedUntilBegun(s', evs[1..], c, l);
      } else {
        DeadLetterUnlessFinished(s', evs[1..], c, l);
      }
    }
  }
}
