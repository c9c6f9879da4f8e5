/** Safety of the protocol over whole runs: counters, closes, logs and the conservation of items. */
module Safety {
  import opened Records
  import opened Protocol
  import opened Invariants

  // ---- the queue's side of the invariant ----

  ghost predicate JobShape(q: Queue, batches: map<Id, Batch>, markets: map<Id, Market>) {
    forall job :: job in q.jobs ==>
      && job in q.taken && job.0 in markets
      && (q.jobs[job].Some? ==>
            var b := q.jobs[job].value;
            b in batches && batches[b].market == job.0 && b in q.plan && job.1 in q.plan[b])
  }

  ghost predicate UndispatchedShape(q: Queue) {
    q.undispatched.Keys == q.plan.Keys && forall b :: b in q.plan ==> q.undispatched[b] <= q.plan[b]
  }

  ghost predicate HasJob(q: Queue, job: JobId, b: Id) {
    job in q.jobs && q.jobs[job] == Some(b)
  }

  ghost predicate SlotAccounted(q: Queue, ledger: map<(Id, Hash), Resolution>, market: Id, b: Id, h: Hash) {
    || (b in q.undispatched && h in q.undispatched[b])
    || HasJob(q, (market, h), b)
    || (b, h) in ledger
    || (b, h) in q.abandoned
  }

  /** Every slot of a batch is still to be dispatched, with a job, resolved, or given up. */
  ghost predicate Accounted(q: Queue, db: Db) {
    forall b, h :: b in db.batches && b in q.plan && h in q.plan[b] ==>
      SlotAccounted(q, db.ledger, db.batches[b].market, b, h)
  }

  ghost predicate QueueInv(q: Queue, db: Db) {
    JobShape(q, db.batches, db.markets) && UndispatchedShape(q) && Accounted(q, db)
  }

  ghost predicate Inv(s: State, c: Config) {
    DbInv(s.db, s.q.plan, c) && QueueInv(s.q, s.db)
  }

  lemma InitialInv(s: State, c: Config)
    requires Initial(s)
    ensures Inv(s, c)
  {
  }

  // ---- one event ----

  lemma DropKeepsDb(s: State, c: Config, job: JobId, outcome: Outcome, acked: bool, supply: Supply)
    requires Inv(s, c) && Enabled(s, Drop(job, outcome, acked, supply), c)
    ensures DbInv(ApplyDb(s, Drop(job, outcome, acked, supply), c), s.q.plan, c)
  {
    if s.q.jobs[job].Some? {
      SettleKeepsDb(s.db, s.q.plan, c, s.q.jobs[job].value, job.1, Resolution(outcome, None), supply);
    }
  }

  lemma DispatchKeepsDb(s: State, c: Config, b: Id, slot: Hash, supply: Supply)
    requires Inv(s, c) && Enabled(s, Dispatch(b, slot, supply), c)
    ensures DbInv(ApplyDb(s, Dispatch(b, slot, supply), c), s.q.plan, c)
  {
    if JobOf(s.db, b, slot) in s.q.taken {
      SettleKeepsDb(s.db, s.q.plan, c, b, slot, Resolution(CollidedPriorCycle, None), supply);
    }
  }

  lemma StoreKeepsDb(s: State, c: Config, ev: Event)
    requires Inv(s, c) && ev.Store? && Enabled(s, ev, c)
    ensures DbInv(ApplyDb(s, ev, c), s.q.plan, c)
  {
    var db1 := WithItem(s.db, ev.id, ev.item);
    WithItemKeepsDb(s.db, s.q.plan, c, ev.id, ev.item);
    if s.q.jobs[ev.job].Some? {
      SettleKeepsDb(db1, s.q.plan, c, s.q.jobs[ev.job].value, ev.job.1, Resolution(Stored, Some(ev.id)), ev.supply);
    } else {
      SoloKeepsDb(db1, s.q.plan, c, ev.id, ev.supply);
    }
  }

  lemma ApplyKeepsDb(s: State, ev: Event, c: Config)
    requires Inv(s, c) && Enabled(s, ev, c)
    ensures DbInv(ApplyDb(s, ev, c), ApplyQueue(s, ev, c).plan, c)
  {
    match ev
    case SetActive(m, active) => OtherMarkets(s.db, ApplyDb(s, ev, c), s.q.plan, c);
    case OpenBatch(b, m, slots, now) => OpenBatchKeepsDb(s.db, s.q.plan, c, b, m, slots, now);
    case Dispatch(b, slot, supply) => DispatchKeepsDb(s, c, b, slot, supply);
    case ReleaseId(job) =>
    case Abandon(job) =>
    case Drop(job, outcome, acked, supply) => DropKeepsDb(s, c, job, outcome, acked, supply);
    case Store(_, _, _, _, _, _) => StoreKeepsDb(s, c, ev);
    case SoloCommit(i, supply) => SoloKeepsDb(s.db, s.q.plan, c, i, supply);
    case LoseStraggler(i) => LoseKeepsDb(s.db, s.q.plan, c, i);
    case Sweep(b, supply) => ForceCloseKeepsDb(s.db, s.q.plan, c, b, supply);
    case Work(l, step) => WorkKeepsDb(s.db, s.q.plan, c, l, step);
  }

  lemma LoseKeepsDb(db: Db, plan: Plan, c: Config, i: Id)
    requires DbInv(db, plan, c)
    ensures DbInv(db.(held := db.held - {i}), plan, c)
  {
    var db' := db.(held := db.held - {i});
    assert forall x :: Waiting(db', x) <==> Waiting(db, x);
  }

  /** How an event may move the batches and the ledger. */
  ghost predicate Grows(db: Db, db': Db) {
    && (forall b :: b in db.batches ==> b in db'.batches && db'.batches[b].market == db.batches[b].market)
    && (forall m :: m in db.markets ==> m in db'.markets)
    && (forall k :: k in db.ledger ==> k in db'.ledger)
  }

  lemma ApplyGrows(s: State, ev: Event, c: Config)
    requires Enabled(s, ev, c)
    ensures Grows(s.db, ApplyDb(s, ev, c))
  {
  }

  lemma ApplyKeepsJobs(s: State, ev: Event, c: Config)
    requires Inv(s, c) && Enabled(s, ev, c)
    ensures JobShape(ApplyQueue(s, ev, c), ApplyDb(s, ev, c).batches, ApplyDb(s, ev, c).markets)
    ensures UndispatchedShape(ApplyQueue(s, ev, c))
  {
    ApplyGrows(s, ev, c);
    if ev.Dispatch? {
      assert s.db.batches[ev.batch].market in s.db.markets;
    }
    QueueKeepsJobs(s, ev, c, ApplyDb(s, ev, c));
  }

  /** A job the event leaves in place stays well placed as the tables grow. */
  lemma QueueKeepsJobs(s: State, ev: Event, c: Config, db': Db)
    requires JobShape(s.q, s.db.batches, s.db.markets) && UndispatchedShape(s.q) && s.q.plan.Keys == s.db.batches.Keys
    requires Enabled(s, ev, c) && Grows(s.db, db')
    requires ev.Dispatch? ==> s.db.batches[ev.batch].market in s.db.markets
    ensures JobShape(ApplyQueue(s, ev, c), db'.batches, db'.markets) && UndispatchedShape(ApplyQueue(s, ev, c))
  {
    hide StoreOk, SettleOk, SoloOk, WorkOk, ListingOk;
  }

  lemma SettledSlot(db: Db, b: Id, slot: Hash, r: Resolution)
    ensures (b, slot) in SettledLedger(db, b, slot, r)
  {
  }

  lemma DispatchKeepsSlot(s: State, ev: Event, c: Config, b: Id, h: Hash)
    requires ev.Dispatch? && Enabled(s, ev, c) && JobShape(s.q, s.db.batches, s.db.markets)
    requires b in s.db.batches && SlotAccounted(s.q, s.db.ledger, s.db.batches[b].market, b, h)
    ensures SlotAccounted(ApplyQueue(s, ev, c), ApplyDb(s, ev, c).ledger, s.db.batches[b].market, b, h)
  {
    SettledSlot(s.db, ev.batch, ev.slot, Resolution(CollidedPriorCycle, None));
    if HasJob(s.q, (s.db.batches[b].market, h), b) {
      assert (s.db.batches[b].market, h) in s.q.taken;
    }
  }

  lemma ResolveKeepsSlot(s: State, ev: Event, c: Config, b: Id, h: Hash)
    requires (ev.Drop? || ev.Store?) && Enabled(s, ev, c)
    requires b in s.db.batches && SlotAccounted(s.q, s.db.ledger, s.db.batches[b].market, b, h)
    ensures SlotAccounted(ApplyQueue(s, ev, c), ApplyDb(s, ev, c).ledger, s.db.batches[b].market, b, h)
  {
    if ev.Drop? {
      SettledSlot(s.db, b, h, Resolution(ev.outcome, None));
    } else {
      SettledSlot(WithItem(s.db, ev.id, ev.item), b, h, Resolution(Stored, Some(ev.id)));
    }
  }

  lemma OtherKeepsSlot(s: State, ev: Event, c: Config, b: Id, h: Hash)
    requires !ev.Dispatch? && !ev.Drop? && !ev.Store? && Enabled(s, ev, c) && s.q.plan.Keys == s.db.batches.Keys
    requires b in s.db.batches && SlotAccounted(s.q, s.db.ledger, s.db.batches[b].market, b, h)
    ensures SlotAccounted(ApplyQueue(s, ev, c), ApplyDb(s, ev, c).ledger, s.db.batches[b].market, b, h)
  {
    ApplyGrows(s, ev, c);
  }

  /** A slot stays accounted for: what takes it off one list puts it on the next. */
  lemma ApplyKeepsSlot(s: State, ev: Event, c: Config, b: Id, h: Hash)
    requires Inv(s, c) && Enabled(s, ev, c)
    requires b in s.db.batches && b in s.q.plan && h in s.q.plan[b]
    ensures SlotAccounted(ApplyQueue(s, ev, c), ApplyDb(s, ev, c).ledger, s.db.batches[b].market, b, h)
  {
    if ev.Dispatch? {
      DispatchKeepsSlot(s, ev, c, b, h);
    } else if ev.Drop? || ev.Store? {
      ResolveKeepsSlot(s, ev, c, b, h);
    } else {
      OtherKeepsSlot(s, ev, c, b, h);
    }
  }

  lemma ApplyKeepsAccounted(s: State, ev: Event, c: Config)
    requires Inv(s, c) && Enabled(s, ev, c)
    ensures Accounted(ApplyQueue(s, ev, c), ApplyDb(s, ev, c))
  {
    var q', db' := ApplyQueue(s, ev, c), ApplyDb(s, ev, c);
    forall b, h | b in db'.batches && b in q'.plan && h in q'.plan[b]
      ensures SlotAccounted(q', db'.ledger, db'.batches[b].market, b, h)
    {
      if b in s.db.batches {
        ApplyGrows(s, ev, c);
        ApplyKeepsSlot(s, ev, c, b, h);
      }
    }
  }

  lemma ApplyKeepsInv(s: State, ev: Event, c: Config)
    requires Inv(s, c) && Enabled(s, ev, c)
    ensures Inv(Apply(s, ev, c), c)
  {
    ApplyKeepsDb(s, ev, c);
    ApplyKeepsJobs(s, ev, c);
    ApplyKeepsAccounted(s, ev, c);
  }

  lemma {:induction false} RunKeepsInv(s: State, evs: seq<Event>, c: Config)
    requires Inv(s, c) && Run(s, evs, c)
    ensures Inv(After(s, evs, c), c)
    decreases |evs|
  {
    if evs != [] {
      ApplyKeepsInv(s, evs[0], c);
      RunKeepsInv(Apply(s, evs[0], c), evs[1..], c);
    }
  }

  /** A run can be extended by any event enabled at its end. */
  lemma {:induction false} RunAppend(s: State, evs: seq<Event>, ev: Event, c: Config)
    requires Run(s, evs, c) && Enabled(After(s, evs, c), ev, c)
    ensures Run(s, evs + [ev], c) && After(s, evs + [ev], c) == Apply(After(s, evs, c), ev, c)
    decreases |evs|
  {
    var more := evs + [ev];
    if evs == [] {
      assert more == [ev] && more[1..] == [];
    } else {
      assert more[0] == evs[0] && more[1..] == evs[1..] + [ev];
      RunAppend(Apply(s, evs[0], c), evs[1..], ev, c);
    }
  }

  lemma {:induction false} RunConcat(s: State, evs: seq<Event>, more: seq<Event>, c: Config)
    requires Run(s, evs, c) && Run(After(s, evs, c), more, c)
    ensures Run(s, evs + more, c) && After(s, evs + more, c) == After(After(s, evs, c), more, c)
    decreases |evs|
  {
    if evs == [] {
      assert evs + more == more;
    } else {
      assert (evs + more)[1..] == evs[1..] + more;
      RunConcat(Apply(s, evs[0], c), evs[1..], more, c);
    }
  }

  lemma RunOne(s: State, ev: Event, c: Config)
    requires Enabled(s, ev, c)
    ensures Run(s, [ev], c) && After(s, [ev], c) == Apply(s, ev, c)
  {
    assert [ev][1..] == [];
  }

  lemma RunTwo(s: State, first: Event, second: Event, c: Config)
    requires Enabled(s, first, c) && Enabled(Apply(s, first, c), second, c)
    ensures Run(s, [first, second], c) && After(s, [first, second], c) == Apply(Apply(s, first, c), second, c)
  {
    assert [first, second][1..] == [second];
    RunOne(Apply(s, first, c), second, c);
  }
}
