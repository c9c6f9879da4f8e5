/** The per-market watermark and the delivered flags that deliver_batch maintains
(app/worker/tasks.py), over whole runs. */
module Watermark {
  import opened Records
  import opened Protocol
  import opened Invariants
  import opened Safety
  import D = Delivery

  // ---- what they should mean ----

  ghost predicate Delivers(db: Db, l: Id, i: Id) {
    l in db.logs && db.logs[l].row.status == Success && i in db.logs[l].row.itemIds
  }

  /** An item is flagged exactly when a delivered log lists it. */
  ghost predicate FlagsOk(db: Db) {
    forall i :: i in db.items ==> (db.items[i].delivered <==> exists l :: Delivers(db, l, i))
  }

  /** A publication date that a delivered log of the market carries. */
  ghost predicate DeliveredDate(db: Db, m: Id, l: Id, i: Id, t: Time) {
    Delivers(db, l, i) && db.logs[l].row.market == m && i in db.items && db.items[i].published == Some(t)
  }

  /** The watermark is the maximum of the dates delivered, and null if there is none. */
  ghost predicate IsMaximum(db: Db, m: Id, mark: Option<Time>) {
    && (forall l, i, t :: DeliveredDate(db, m, l, i, t) ==> mark.Some? && t <= mark.value)
    && (mark.Some? ==> exists l, i :: DeliveredDate(db, m, l, i, mark.value))
  }

  ghost predicate Running(db: Db, l: Id) {
    l in db.logs && db.logs[l].run.Some?
  }

  /** No two deliveries of one market are under way together, and each has read the current watermark. */
  ghost predicate Alone(db: Db) {
    && (forall l, k :: Running(db, l) && Running(db, k) && db.logs[l].row.market == db.logs[k].row.market ==> l == k)
    && (forall l :: Running(db, l) && db.logs[l].row.market in db.markets ==>
          db.logs[l].run.value.seen == db.markets[db.logs[l].row.market].watermark)
  }

  /** The hypothesis on a run: a delivery does not begin while another of its market is under way. */
  ghost predicate NoOverlap(db: Db, ev: Event) {
    ev.Work? && ev.step.Begin? && ev.log in db.logs ==>
      forall k :: Running(db, k) ==> db.logs[k].row.market != db.logs[ev.log].row.market
  }

  // ---- the advance itself ----

  predicate Exceeds(t: Option<Time>, mark: Option<Time>) {
    t.Some? && (mark.None? || t.value > mark.value)
  }

  function Later(a: Option<Time>, b: Option<Time>): Option<Time> {
    if Exceeds(b, a) then b else a
  }

  /** The write at the end of a delivery leaves the later of the two dates exactly when comparing with
  the watermark read at the beginning gives the same answer as comparing with the current one, or the
  two dates are equal anyway. */
  lemma AdvanceIsLaterIff(current: Option<Time>, seen: Option<Time>, newest: Option<Time>)
    ensures Advance(current, seen, newest) == Later(current, newest)
            <==> newest == current || (Exceeds(newest, seen) <==> Exceeds(newest, current))
  {
  }

  /** The finishing step of a delivery of market m. */
  ghost predicate Finishes(db: Db, ev: Event, m: Id) {
    && ev.Work? && ev.step.Finish? && ev.log in db.logs && db.logs[ev.log].run.Some?
    && db.logs[ev.log].row.market == m && m in db.markets
  }

  /** It misjudges its newest date when the watermark read at its start answers the comparison
  differently from the one that stands now, and the difference matters. */
  ghost predicate Misjudges(db: Db, ev: Event, m: Id) {
    && Finishes(db, ev, m)
    && var current, seen := db.markets[m].watermark, db.logs[ev.log].run.value.seen;
       var newest := Newest(db.items, db.logs[ev.log].row.itemIds);
       newest != current && !(Exceeds(newest, seen) <==> Exceeds(newest, current))
  }

  /** It lowers the watermark when its newest date beats the one it read but not the one that stands. */
  ghost predicate Lowers(db: Db, ev: Event, m: Id) {
    && Finishes(db, ev, m)
    && var current, seen := db.markets[m].watermark, db.logs[ev.log].run.value.seen;
       var newest := Newest(db.items, db.logs[ev.log].row.itemIds);
       Exceeds(newest, seen) && Exceeds(current, newest)
  }

  // ---- events that are no delivery ----

  ghost predicate Quiet(db: Db, db': Db) {
    && (forall m :: m in db'.markets ==> m in db.markets && db'.markets[m].watermark == db.markets[m].watermark)
    && (forall l :: l in db.logs ==> l in db'.logs && db'.logs[l] == db.logs[l])
    && (forall l :: l in db'.logs && l !in db.logs ==> db'.logs[l].row.status == Pending && db'.logs[l].run.None?)
    && (forall i :: i in db.items ==> i in db'.items && db'.items[i] == db.items[i])
    && (forall i :: i in db'.items && i !in db.items ==> !db'.items[i].delivered)
  }

  lemma SettleIsQuiet(db: Db, b: Id, slot: Hash, r: Resolution, supply: Supply)
    requires SettleOk(db, b, slot, supply)
    ensures Quiet(db, Settle(db, b, slot, r, supply))
  {
  }

  lemma ApplyIsQuiet(s: State, ev: Event, c: Config)
    requires Enabled(s, ev, c) && !ev.Work?
    ensures Quiet(s.db, ApplyDb(s, ev, c))
  {
    match ev
    case Dispatch(x, slot, supply) =>
      if JobOf(s.db, x, slot) in s.q.taken {
        SettleIsQuiet(s.db, x, slot, Resolution(CollidedPriorCycle, None), supply);
      }
    case Drop(job, outcome, _, supply) =>
      if s.q.jobs[job].Some? {
        SettleIsQuiet(s.db, s.q.jobs[job].value, job.1, Resolution(outcome, None), supply);
      }
    case Store(job, i, item, _, _, supply) =>
      if s.q.jobs[job].Some? {
        SettleIsQuiet(WithItem(s.db, i, item), s.q.jobs[job].value, job.1, Resolution(Stored, Some(i)), supply);
      }
    case SetActive(_, _) =>
    case OpenBatch(_, _, _, _) =>
    case ReleaseId(_) =>
    case Abandon(_) =>
    case SoloCommit(_, _) =>
    case LoseStraggler(_) =>
    case Sweep(_, _) =>
  }

  /** A listed item exists. */
  ghost predicate ListedExist(db: Db) {
    forall l, i :: l in db.logs && i in db.logs[l].row.itemIds ==> i in db.items
  }

  lemma QuietDelivers(db: Db, db': Db, l: Id, i: Id)
    requires Quiet(db, db')
    ensures Delivers(db', l, i) <==> Delivers(db, l, i)
  {
  }

  lemma QuietKeepsFlags(db: Db, db': Db)
    requires Quiet(db, db') && FlagsOk(db) && ListedExist(db)
    ensures FlagsOk(db')
  {
    forall i | i in db'.items ensures db'.items[i].delivered <==> exists l :: Delivers(db', l, i) {
      forall l ensures Delivers(db', l, i) <==> Delivers(db, l, i) {
        QuietDelivers(db, db', l, i);
      }
      if i !in db.items {
        assert forall l :: !Delivers(db, l, i);
      }
    }
  }

  lemma QuietDates(db: Db, db': Db, m: Id, l: Id, i: Id, t: Time)
    requires Quiet(db, db') && ListedExist(db)
    ensures DeliveredDate(db', m, l, i, t) <==> DeliveredDate(db, m, l, i, t)
  {
    QuietDelivers(db, db', l, i);
  }

  /** The same delivered dates have the same maximum. */
  lemma SameMaximum(db: Db, db': Db, m: Id, mark: Option<Time>)
    requires IsMaximum(db, m, mark)
    requires forall l, i, t :: DeliveredDate(db', m, l, i, t) <==> DeliveredDate(db, m, l, i, t)
    ensures IsMaximum(db', m, mark)
  {
    if mark.Some? {
      var l, i :| DeliveredDate(db, m, l, i, mark.value);
      assert DeliveredDate(db', m, l, i, mark.value);
    }
  }

  // ---- delivery steps ----

  /** Only the finishing step delivers, and nothing delivered is ever taken back. */
  lemma WorkDelivers(db: Db, c: Config, l: Id, step: D.Event, k: Id, i: Id)
    requires MachinesOk(db.logs, c) && WorkOk(db, l, step)
    ensures Delivers(WorkStep(db, l, step, c), k, i) <==>
            Delivers(db, k, i) || (step.Finish? && k == l && i in db.logs[l].row.itemIds)
  {
    StepKeepsIdentity(db.logs[l], step, c.maxAttempts);
    D.TerminalStatus(db.logs[l], step, c.maxAttempts);
  }

  lemma WorkKeepsFlags(db: Db, c: Config, l: Id, step: D.Event)
    requires MachinesOk(db.logs, c) && WorkOk(db, l, step) && FlagsOk(db)
    ensures FlagsOk(WorkStep(db, l, step, c))
  {
    var db' := WorkStep(db, l, step, c);
    StepKeepsIdentity(db.logs[l], step, c.maxAttempts);
    forall i | i in db'.items ensures db'.items[i].delivered <==> exists k :: Delivers(db', k, i) {
      forall k ensures Delivers(db', k, i) <==>
          Delivers(db, k, i) || (step.Finish? && k == l && i in db.logs[l].row.itemIds) {
        WorkDelivers(db, c, l, step, k, i);
      }
      if step.Finish? && i in db.logs[l].row.itemIds {
        assert Delivers(db', l, i);
      }
    }
  }

  /** The dates delivered after a finishing step: those before, and those of the log that finished. */
  lemma FinishDates(db: Db, c: Config, l: Id, m: Id, k: Id, i: Id, t: Time)
    requires MachinesOk(db.logs, c) && WorkOk(db, l, D.Finish)
    ensures DeliveredDate(WorkStep(db, l, D.Finish, c), m, k, i, t) <==>
            || DeliveredDate(db, m, k, i, t)
            || (k == l && m == db.logs[l].row.market && i in db.logs[l].row.itemIds
                && i in db.items && db.items[i].published == Some(t))
  {
    StepKeepsIdentity(db.logs[l], D.Finish, c.maxAttempts);
    WorkDelivers(db, c, l, D.Finish, k, i);
  }

  lemma LaterIsMaximum(db: Db, c: Config, l: Id, mark: Option<Time>)
    requires MachinesOk(db.logs, c) && WorkOk(db, l, D.Finish) && IsMaximum(db, db.logs[l].row.market, mark)
    ensures IsMaximum(WorkStep(db, l, D.Finish, c), db.logs[l].row.market,
                      Later(mark, Newest(db.items, db.logs[l].row.itemIds)))
  {
    var db' := WorkStep(db, l, D.Finish, c);
    var m, ids := db.logs[l].row.market, db.logs[l].row.itemIds;
    var newest := Newest(db.items, ids);
    var mark' := Later(mark, newest);
    forall k, i, t | DeliveredDate(db', m, k, i, t) ensures mark'.Some? && t <= mark'.value {
      FinishDates(db, c, l, m, k, i, t);
      assert DeliveredDate(db, m, k, i, t) || (i in ids && i in db.items && db.items[i].published == Some(t));
    }
    if mark'.Some? {
      if Exceeds(newest, mark) {
        var i :| i in ids && i in db.items && db.items[i].published == newest;
        FinishDates(db, c, l, m, l, i, mark'.value);
      } else {
        var k, i :| DeliveredDate(db, m, k, i, mark.value);
        FinishDates(db, c, l, m, k, i, mark.value);
      }
    }
  }

  // ---- one event, exactly ----

  lemma UniqueMaximum(db: Db, m: Id, a: Option<Time>, b: Option<Time>)
    requires IsMaximum(db, m, a) && IsMaximum(db, m, b)
    ensures a == b
  {
    if a.Some? {
      var l, i :| DeliveredDate(db, m, l, i, a.value);
    }
    if b.Some? {
      var l, i :| DeliveredDate(db, m, l, i, b.value);
    }
  }

  /** A finishing step keeps the watermark the maximum exactly if it does not misjudge. */
  lemma FinishKeepsMaximumIff(db: Db, c: Config, l: Id, m: Id)
    requires MachinesOk(db.logs, c) && WorkOk(db, l, D.Finish) && db.logs[l].row.market == m
    requires IsMaximum(db, m, db.markets[m].watermark)
    ensures var db' := WorkStep(db, l, D.Finish, c);
            m in db'.markets && (IsMaximum(db', m, db'.markets[m].watermark) <==> !Misjudges(db, Work(l, D.Finish), m))
  {
    var db' := WorkStep(db, l, D.Finish, c);
    var current, newest := db.markets[m].watermark, Newest(db.items, db.logs[l].row.itemIds);
    LaterIsMaximum(db, c, l, current);
    AdvanceIsLaterIff(current, db.logs[l].run.value.seen, newest);
    assert db.logs[l].run.value.mem.itemIds == db.logs[l].row.itemIds;
    assert db'.markets[m].watermark == Advance(current, db.logs[l].run.value.seen, newest);
    if IsMaximum(db', m, db'.markets[m].watermark) {
      UniqueMaximum(db', m, db'.markets[m].watermark, Later(current, newest));
    }
  }

  /** Every other event leaves the dates of the market and its watermark alone. */
  lemma OtherwiseUnmoved(s: State, ev: Event, c: Config, m: Id)
    requires Inv(s, c) && Enabled(s, ev, c) && m in s.db.markets && !Finishes(s.db, ev, m)
    ensures var db' := ApplyDb(s, ev, c);
            && m in db'.markets && db'.markets[m].watermark == s.db.markets[m].watermark
            && forall k, i, t :: DeliveredDate(db', m, k, i, t) <==> DeliveredDate(s.db, m, k, i, t)
  {
    var db' := ApplyDb(s, ev, c);
    InvListedExist(s, c);
    MarketsStay(s, ev, c);
    if ev.Work? {
      StepKeepsIdentity(s.db.logs[ev.log], ev.step, c.maxAttempts);
    } else {
      ApplyIsQuiet(s, ev, c);
    }
    forall k, i, t ensures DeliveredDate(db', m, k, i, t) <==> DeliveredDate(s.db, m, k, i, t) {
      if !ev.Work? {
        QuietDates(s.db, db', m, k, i, t);
      } else if ev.step.Finish? {
        FinishDates(s.db, c, ev.log, m, k, i, t);
      } else {
        WorkDelivers(s.db, c, ev.log, ev.step, k, i);
      }
    }
  }

  lemma MarketsStay(s: State, ev: Event, c: Config)
    requires Enabled(s, ev, c)
    ensures ApplyDb(s, ev, c).markets.Keys == s.db.markets.Keys
  {
  }

  lemma EventKeepsMaximumIff(s: State, ev: Event, c: Config, m: Id)
    requires Inv(s, c) && Enabled(s, ev, c) && m in s.db.markets && IsMaximum(s.db, m, s.db.markets[m].watermark)
    ensures var db' := ApplyDb(s, ev, c);
            m in db'.markets && (IsMaximum(db', m, db'.markets[m].watermark) <==> !Misjudges(s.db, ev, m))
  {
    InvListedExist(s, c);
    if Finishes(s.db, ev, m) {
      FinishKeepsMaximumIff(s.db, c, ev.log, m);
    } else {
      OtherwiseUnmoved(s, ev, c, m);
      SameMaximum(s.db, ApplyDb(s, ev, c), m, s.db.markets[m].watermark);
    }
  }

  ghost predicate NotBefore(later: Option<Time>, earlier: Option<Time>) {
    earlier.Some? ==> later.Some? && later.value >= earlier.value
  }

  lemma EventLowersIff(s: State, ev: Event, c: Config, m: Id)
    requires Inv(s, c) && Enabled(s, ev, c) && m in s.db.markets
    ensures var db' := ApplyDb(s, ev, c);
            m in db'.markets
            && (NotBefore(db'.markets[m].watermark, s.db.markets[m].watermark) <==> !Lowers(s.db, ev, m))
  {
    if Finishes(s.db, ev, m) {
      InvListedExist(s, c);
      assert s.db.logs[ev.log].run.value.mem.itemIds == s.db.logs[ev.log].row.itemIds;
    } else {
      OtherwiseUnmoved(s, ev, c, m);
    }
  }

  // ---- whole runs ----

  lemma InvListedExist(s: State, c: Config)
    requires Inv(s, c)
    ensures ListedExist(s.db) && MachinesOk(s.db.logs, c)
  {
    forall l, i | l in s.db.logs && i in s.db.logs[l].row.itemIds ensures i in s.db.items {
      assert RowOk(s.db.logs[l].row, s.db.items, s.db.batches, s.db.markets);
    }
  }

  lemma ApplyKeepsFlags(s: State, ev: Event, c: Config)
    requires Inv(s, c) && Enabled(s, ev, c) && FlagsOk(s.db)
    ensures FlagsOk(ApplyDb(s, ev, c))
  {
    InvListedExist(s, c);
    if ev.Work? {
      WorkKeepsFlags(s.db, c, ev.log, ev.step);
    } else {
      ApplyIsQuiet(s, ev, c);
      QuietKeepsFlags(s.db, ApplyDb(s, ev, c));
    }
  }

  lemma {:induction false} RunKeepsFlags(s: State, evs: seq<Event>, c: Config)
    requires Inv(s, c) && Run(s, evs, c) && FlagsOk(s.db)
    ensures FlagsOk(After(s, evs, c).db)
    decreases |evs|
  {
    if evs != [] {
      ApplyKeepsInv(s, evs[0], c);
      ApplyKeepsFlags(s, evs[0], c);
      RunKeepsFlags(Apply(s, evs[0], c), evs[1..], c);
    }
  }

  /** Over every run, an item is flagged delivered exactly when some delivered log lists it. */
  lemma DeliveredFlags(s: State, evs: seq<Event>, c: Config, i: Id)
    requires Initial(s) && Run(s, evs, c) && i in After(s, evs, c).db.items
    ensures After(s, evs, c).db.items[i].delivered <==> exists l :: Delivers(After(s, evs, c).db, l, i)
  {
    InitialInv(s, c);
    RunKeepsFlags(s, evs, c);
  }

  /** The watermark is the maximum in every state of the run. */
  ghost predicate AlwaysMaximum(s: State, evs: seq<Event>, c: Config, m: Id)
    requires Run(s, evs, c)
    decreases |evs|
  {
    && m in s.db.markets && IsMaximum(s.db, m, s.db.markets[m].watermark)
    && (evs == [] || AlwaysMaximum(Apply(s, evs[0], c), evs[1..], c, m))
  }

  /** No step of the run takes the watermark back. */
  ghost predicate NeverBack(s: State, evs: seq<Event>, c: Config, m: Id)
    requires Run(s, evs, c)
    decreases |evs|
  {
    evs == [] ||
    var s' := Apply(s, evs[0], c);
    && m in s.db.markets && m in s'.db.markets
    && NotBefore(s'.db.markets[m].watermark, s.db.markets[m].watermark)
    && NeverBack(s', evs[1..], c, m)
  }

  ghost predicate NeverMisjudges(s: State, evs: seq<Event>, c: Config, m: Id)
    requires Run(s, evs, c)
    decreases |evs|
  {
    evs == [] || (!Misjudges(s.db, evs[0], m) && NeverMisjudges(Apply(s, evs[0], c), evs[1..], c, m))
  }

  ghost predicate NeverLowers(s: State, evs: seq<Event>, c: Config, m: Id)
    requires Run(s, evs, c)
    decreases |evs|
  {
    evs == [] || (!Lowers(s.db, evs[0], m) && NeverLowers(Apply(s, evs[0], c), evs[1..], c, m))
  }

  lemma {:induction false} MaximumFromIff(s: State, evs: seq<Event>, c: Config, m: Id)
    requires Inv(s, c) && Run(s, evs, c) && m in s.db.markets && IsMaximum(s.db, m, s.db.markets[m].watermark)
    ensures AlwaysMaximum(s, evs, c, m) <==> NeverMisjudges(s, evs, c, m)
    decreases |evs|
  {
    if evs != [] {
      var s' := Apply(s, evs[0], c);
      ApplyKeepsInv(s, evs[0], c);
      EventKeepsMaximumIff(s, evs[0], c, m);
      if Misjudges(s.db, evs[0], m) {
        assert !AlwaysMaximum(s', evs[1..], c, m);
      } else {
        MaximumFromIff(s', evs[1..], c, m);
      }
    }
  }

  lemma InitialMaximum(s: State, m: Id)
    requires Initial(s) && m in s.db.markets
    ensures IsMaximum(s.db, m, s.db.markets[m].watermark)
  {
  }

  /** The exact condition. From a fresh deployment on, the watermark of a market is at all times the
  maximum publication date over all items of its delivered logs, if and only if no delivery of the
  market misjudges its newest date when it finishes. */
  lemma MaximumIff(s: State, evs: seq<Event>, c: Config, m: Id)
    requires Initial(s) && Run(s, evs, c) && m in s.db.markets
    ensures AlwaysMaximum(s, evs, c, m) <==> NeverMisjudges(s, evs, c, m)
  {
    InitialInv(s, c);
    InitialMaximum(s, m);
    MaximumFromIff(s, evs, c, m);
  }

  /** And it never moves backwards if and only if no delivery that finishes beats the watermark it had
  read with a date older than the one that stands. */
  lemma {:induction false} NeverBackIff(s: State, evs: seq<Event>, c: Config, m: Id)
    requires Inv(s, c) && Run(s, evs, c) && m in s.db.markets
    ensures NeverBack(s, evs, c, m) <==> NeverLowers(s, evs, c, m)
    decreases |evs|
  {
    if evs != [] {
      ApplyKeepsInv(s, evs[0], c);
      EventLowersIff(s, evs[0], c, m);
      NeverBackIff(Apply(s, evs[0], c), evs[1..], c, m);
    }
  }

  lemma {:induction false} AlwaysAtEnd(s: State, evs: seq<Event>, c: Config, m: Id)
    requires Run(s, evs, c) && AlwaysMaximum(s, evs, c, m)
    ensures var db := After(s, evs, c).db; m in db.markets && IsMaximum(db, m, db.markets[m].watermark)
    decreases |evs|
  {
    if evs != [] {
      AlwaysAtEnd(Apply(s, evs[0], c), evs[1..], c, m);
    }
  }

  lemma {:induction false} NeverBackAtEnd(s: State, evs: seq<Event>, c: Config, m: Id)
    requires Run(s, evs, c) && NeverBack(s, evs, c, m) && m in s.db.markets
    ensures var db := After(s, evs, c).db;
            m in db.markets && NotBefore(db.markets[m].watermark, s.db.markets[m].watermark)
    decreases |evs|
  {
    if evs != [] {
      NeverBackAtEnd(Apply(s, evs[0], c), evs[1..], c, m);
    }
  }

  // ---- deliveries that do not overlap ----

  ghost predicate NeverOverlaps(s: State, evs: seq<Event>, c: Config)
    requires Run(s, evs, c)
    decreases |evs|
  {
    evs == [] || (NoOverlap(s.db, evs[0]) && NeverOverlaps(Apply(s, evs[0], c), evs[1..], c))
  }

  /** A delivery that ends leaves the others of other markets, and their watermarks. */
  lemma FinishKeepsAlone(db: Db, c: Config, l: Id)
    requires WorkOk(db, l, D.Finish) && Alone(db)
    ensures Alone(WorkStep(db, l, D.Finish, c))
  {
    assert Running(db, l);
    forall k | Running(WorkStep(db, l, D.Finish, c), k) ensures k != l && Running(db, k) {}
  }

  lemma MidwayKeepsAlone(db: Db, c: Config, l: Id, step: D.Event)
    requires MachinesOk(db.logs, c) && WorkOk(db, l, step) && NoOverlap(db, Work(l, step)) && Alone(db) && !step.Finish?
    ensures Alone(WorkStep(db, l, step, c))
  {
    StepKeepsIdentity(db.logs[l], step, c.maxAttempts);
    assert step.Begin? || Running(db, l);
    forall k | Running(WorkStep(db, l, step, c), k) && k != l ensures Running(db, k) {}
  }

  lemma QuietKeepsAlone(db: Db, db': Db)
    requires Quiet(db, db') && Alone(db)
    ensures Alone(db')
  {
    forall l | Running(db', l) ensures Running(db, l) {}
  }

  lemma ApplyKeepsAlone(s: State, ev: Event, c: Config)
    requires Inv(s, c) && Enabled(s, ev, c) && NoOverlap(s.db, ev) && Alone(s.db)
    ensures Alone(ApplyDb(s, ev, c))
  {
    if ev.Work? {
      if ev.step.Finish? {
        FinishKeepsAlone(s.db, c, ev.log);
      } else {
        MidwayKeepsAlone(s.db, c, ev.log, ev.step);
      }
    } else {
      ApplyIsQuiet(s, ev, c);
      QuietKeepsAlone(s.db, ApplyDb(s, ev, c));
    }
  }

  /** With no other delivery of the market in between, the watermark read is the one that stands. */
  lemma {:induction false} AloneJudgesRight(s: State, evs: seq<Event>, c: Config, m: Id)
    requires Inv(s, c) && Run(s, evs, c) && NeverOverlaps(s, evs, c) && Alone(s.db)
    ensures NeverMisjudges(s, evs, c, m) && NeverLowers(s, evs, c, m)
    decreases |evs|
  {
    if evs != [] {
      assert Finishes(s.db, evs[0], m) ==> Running(s.db, evs[0].log);
      ApplyKeepsInv(s, evs[0], c);
      ApplyKeepsAlone(s, evs[0], c);
      AloneJudgesRight(Apply(s, evs[0], c), evs[1..], c, m);
    }
  }

  /** So over every run in which deliveries of one market do not overlap, the watermark ends up as the
  maximum publication date over all items of its delivered logs. */
  lemma WatermarkIsMaximum(s: State, evs: seq<Event>, c: Config, m: Id)
    requires Initial(s) && Run(s, evs, c) && NeverOverlaps(s, evs, c) && m in s.db.markets
    ensures var db := After(s, evs, c).db; m in db.markets && IsMaximum(db, m, db.markets[m].watermark)
  {
    InitialInv(s, c);
    AloneJudgesRight(s, evs, c, m);
    MaximumIff(s, evs, c, m);
    AlwaysAtEnd(s, evs, c, m);
  }

  /** And between any two states of such a run it has not moved backwards. */
  lemma WatermarkNeverDecreases(s: State, evs: seq<Event>, c: Config, m: Id)
    requires Inv(s, c) && Alone(s.db) && Run(s, evs, c) && NeverOverlaps(s, evs, c) && m in s.db.markets
    ensures var db := After(s, evs, c).db;
            m in db.markets && NotBefore(db.markets[m].watermark, s.db.markets[m].watermark)
  {
    AloneJudgesRight(s, evs, c, m);
    NeverBackIff(s, evs, c, m);
    NeverBackAtEnd(s, evs, c, m);
  }
}
