/** The batch-and-deliver protocol as one state and the transactions that change it.

Every event is one committed database transaction, one queue operation, or one death of a
worker; a run is any interleaving of them. The per-market advisory lock makes the transactions
of app/worker/batching.py atomic, so an event changes the state in one go. */
module Protocol {
  import opened Records
  import opened DeliveryOrder
  import opened Dedup
  import D = Delivery
  import Simhash

  datatype Config = Config(maxAttempts: int, thresholds: Thresholds, distance: Distance)

  /** The tables, with the in-memory state of the workers that sit between two of their commits. */
  datatype Db = Db(
    markets: map<Id, Market>,
    batches: map<Id, Batch>,
    ledger: map<(Id, Hash), Resolution>,
    items: map<Id, Item>,
    logs: map<Id, D.Machine>,  // delivery_log rows, each with the worker driving it
    held: set<Id>)             // items a straggler holds between the two commits of the late path

  /** Candidate jobs are known to the queue by market and candidate hash. */
  type JobId = (Id, Hash)

  datatype Queue = Queue(
    plan: map<Id, set<Hash>>,          // the candidates a batch was opened for
    undispatched: map<Id, set<Hash>>,  // those process_market has not handed over yet
    jobs: map<JobId, Option<Id>>,      // queued or running candidate jobs, with their batch argument
    taken: set<JobId>,                 // job ids the queue refuses: live jobs and kept results
    abandoned: set<(Id, Hash)>)        // slots whose job ended without resolving

  datatype State = State(db: Db, q: Queue)

  /** What the environment supplies to a transaction: a fresh log id, a fresh uuid for a solo
  delivery, the listing the database returns, and the clock. */
  datatype Supply = Supply(log: Id, key: Id, listing: seq<Id>, now: Time)

  datatype Event =
    | SetActive(market: Id, active: bool)
    | OpenBatch(batch: Id, market: Id, slots: set<Hash>, now: Time)
    | Dispatch(batch: Id, slot: Hash, supply: Supply)
    | ReleaseId(job: JobId)
    | Abandon(job: JobId)
    | Drop(job: JobId, outcome: Outcome, acked: bool, supply: Supply)
    | Store(job: JobId, id: Id, item: Item, fingerprint: nat, acked: bool, supply: Supply)
    | SoloCommit(id: Id, supply: Supply)
    | LoseStraggler(id: Id)
    | Sweep(batch: Id, supply: Supply)
    | Work(log: Id, step: D.Event)

  // ---- app/worker/batching.py ----

  function BatchItems(db: Db, b: Id): (r: set<Id>)
    requires b in db.batches
    ensures r <= db.items.Keys
  {
    set i | i in db.items && db.items[i].market == db.batches[b].market && db.items[i].batch == Some(b)
  }

  function AddLog(logs: map<Id, D.Machine>, market: Id, key: Id, ids: seq<Id>, supply: Supply): map<Id, D.Machine> {
    logs[supply.log := D.NewMachine(NewLog(market, key, ids, supply.now))]
  }

  /** The delivery log is inserted unless every candidate was dropped. */
  function Finalize(logs: map<Id, D.Machine>, market: Id, b: Id, supply: Supply): map<Id, D.Machine> {
    if supply.listing == [] then logs else AddLog(logs, market, b, supply.listing, supply)
  }

  /** One more resolution of an open batch, closing it at parity. */
  function Count(batch: Batch): Batch {
    batch.(resolved := batch.resolved + 1,
           status := if batch.resolved + 1 >= batch.expected then Closed else batch.status)
  }

  /** Does this resolution enter the ledger, and does it count? */
  predicate Counts(db: Db, b: Id, slot: Hash)
    requires b in db.batches
  {
    (b, slot) !in db.ledger && db.batches[b].status == Open
  }

  /** Would this resolution close the batch? */
  predicate Completes(db: Db, b: Id, slot: Hash)
    requires b in db.batches
  {
    Counts(db, b, slot) && Count(db.batches[b]).status == Closed
  }

  function SettledLedger(db: Db, b: Id, slot: Hash, r: Resolution): map<(Id, Hash), Resolution> {
    if (b, slot) in db.ledger then db.ledger else db.ledger[(b, slot) := r]
  }

  function SettledBatches(db: Db, b: Id, slot: Hash): map<Id, Batch>
    requires b in db.batches
  {
    if Counts(db, b, slot) then db.batches[b := Count(db.batches[b])] else db.batches
  }

  function SettledLogs(db: Db, b: Id, slot: Hash, supply: Supply): map<Id, D.Machine>
    requires b in db.batches
  {
    if Completes(db, b, slot) then Finalize(db.logs, db.batches[b].market, b, supply) else db.logs
  }

  /** An item whose resolution finds the batch closed waits for the late path's second transaction. */
  function SettledHeld(db: Db, b: Id, slot: Hash, r: Resolution): set<Id>
    requires b in db.batches
  {
    if (b, slot) !in db.ledger && db.batches[b].status == Closed && r.item.Some?
    then db.held + {r.item.value} else db.held
  }

  /** resolve_batch_candidate up to its first commit: insert into the ledger unless the slot is
  there, count if the batch is open, close at parity and list the items. */
  function Settle(db: Db, b: Id, slot: Hash, r: Resolution, supply: Supply): Db
    requires b in db.batches
  {
    Db(db.markets, SettledBatches(db, b, slot), SettledLedger(db, b, slot, r), db.items,
       SettledLogs(db, b, slot, supply), SettledHeld(db, b, slot, r))
  }

  /** create_solo_delivery for an item that missed its batch: the late path's second transaction. */
  function Solo(db: Db, i: Id, supply: Supply): Db
    requires i in db.items
  {
    db.(held := db.held - {i}, logs := AddLog(db.logs, db.items[i].market, supply.key, [i], supply))
  }

  /** force_close_batch: the same close, triggered by age instead of parity. */
  function ForceClose(db: Db, b: Id, supply: Supply): Db
    requires b in db.batches
  {
    if db.batches[b].status == Closed then db
    else db.(batches := db.batches[b := db.batches[b].(status := Closed)],
             logs := Finalize(db.logs, db.batches[b].market, b, supply))
  }

  function WithItem(db: Db, i: Id, item: Item): Db {
    db.(items := db.items[i := item])
  }

  // ---- deliver_batch ----

  /** The latest publication date among the listed items, if any is dated. */
  function Newest(items: map<Id, Item>, ids: seq<Id>): (r: Option<Time>)
    ensures r.None? <==> forall i :: i in ids && i in items ==> items[i].published.None?
    ensures r.Some? ==> exists i :: i in ids && i in items && items[i].published == r
    ensures r.Some? ==> forall i :: i in ids && i in items && items[i].published.Some? ==>
              items[i].published.value <= r.value
  {
    if ids == [] then None
    else
      var rest := Newest(items, ids[1..]);
      if ids[0] !in items || items[ids[0]].published.None? then rest
      else if rest.Some? && rest.value >= items[ids[0]].published.value then rest
      else items[ids[0]].published
  }

  /** The watermark after a delivery that read `seen` when it began. */
  function Advance(current: Option<Time>, seen: Option<Time>, newest: Option<Time>): Option<Time> {
    if newest.Some? && (seen.None? || newest.value > seen.value) then newest else current
  }

  function MarkDelivered(items: map<Id, Item>, ids: seq<Id>): map<Id, Item> {
    map i | i in items :: if i in ids then items[i].(delivered := true) else items[i]
  }

  function AdvanceMarket(market: Market, items: map<Id, Item>, run: D.Run): Market {
    market.(watermark := Advance(market.watermark, run.seen, Newest(items, run.mem.itemIds)))
  }

  function WorkStep(db: Db, l: Id, step: D.Event, c: Config): Db
    requires l in db.logs && D.CanStep(db.logs[l], step) && db.logs[l].row.market in db.markets
  {
    var m := db.logs[l];
    var logs := db.logs[l := D.Step(m, step, c.maxAttempts)];
    if !step.Finish? then db.(logs := logs)
    else db.(logs := logs,
             items := MarkDelivered(db.items, m.run.value.mem.itemIds),
             markets := db.markets[m.row.market := AdvanceMarket(db.markets[m.row.market], db.items, m.run.value)])
  }

  // ---- what the environment guarantees ----

  ghost predicate FreshKey(db: Db, key: Id) {
    key !in db.batches && forall l :: l in db.logs ==> db.logs[l].row.batchId != key
  }

  ghost predicate ListingOk(db: Db, b: Id, supply: Supply)
    requires b in db.batches
  {
    supply.log !in db.logs && IsListing(db.items, BatchItems(db, b), supply.listing)
  }

  ghost predicate SettleOk(db: Db, b: Id, slot: Hash, supply: Supply) {
    b in db.batches && (Completes(db, b, slot) ==> ListingOk(db, b, supply))
  }

  ghost predicate SoloOk(db: Db, supply: Supply) {
    supply.log !in db.logs && FreshKey(db, supply.key)
  }

  /** The guard of the insert: the row is new, the market active, and no stored item is a duplicate. */
  ghost predicate StoreOk(db: Db, job: JobId, batch: Option<Id>, i: Id, item: Item, fingerprint: nat, c: Config) {
    && job.0 in db.markets && db.markets[job.0].active
    && i !in db.items && item.market == job.0 && item.batch == batch && !item.delivered
    && fingerprint < Simhash.FULL && item.title == Some(Simhash.ToSigned64(fingerprint))
    && Clear(db.items, item.market, item.urlHash, fingerprint, item.vector, c.thresholds, c.distance)
  }

  /** A run begins on an active market and reads its watermark. */
  ghost predicate WorkOk(db: Db, l: Id, step: D.Event) {
    && l in db.logs && D.CanStep(db.logs[l], step)
    && db.logs[l].row.market in db.markets
    && (step.Begin? ==>
          var market := db.markets[db.logs[l].row.market];
          market.active && step.seen == market.watermark)
  }

  function JobOf(db: Db, b: Id, slot: Hash): JobId
    requires b in db.batches
  {
    (db.batches[b].market, slot)
  }

  ghost predicate Enabled(s: State, ev: Event, c: Config) {
    match ev
    case SetActive(m, _) => m in s.db.markets
    case OpenBatch(b, m, slots, _) => FreshKey(s.db, b) && m in s.db.markets && slots != {}
    case Dispatch(b, slot, supply) =>
      && b in s.db.batches && b in s.q.undispatched && slot in s.q.undispatched[b]
      && (JobOf(s.db, b, slot) in s.q.taken ==> SettleOk(s.db, b, slot, supply))
    case ReleaseId(job) => job !in s.q.jobs
    case Abandon(job) => job in s.q.jobs
    case Drop(job, _, _, supply) =>
      job in s.q.jobs && (s.q.jobs[job].Some? ==> SettleOk(s.db, s.q.jobs[job].value, job.1, supply))
    case Store(job, i, item, fingerprint, _, supply) =>
      && job in s.q.jobs && StoreOk(s.db, job, s.q.jobs[job], i, item, fingerprint, c)
      && (s.q.jobs[job].Some? ==> SettleOk(WithItem(s.db, i, item), s.q.jobs[job].value, job.1, supply))
      && (s.q.jobs[job].None? ==> SoloOk(s.db, supply))
    case SoloCommit(i, supply) => i in s.db.held && i in s.db.items && SoloOk(s.db, supply)
    case LoseStraggler(i) => i in s.db.held
    case Sweep(b, supply) => b in s.db.batches && (s.db.batches[b].status == Open ==> ListingOk(s.db, b, supply))
    case Work(l, step) => WorkOk(s.db, l, step)
  }

  // ---- the events ----

  function Ack(jobs: map<JobId, Option<Id>>, job: JobId, acked: bool): map<JobId, Option<Id>> {
    if acked then jobs - {job} else jobs
  }

  function ApplyDb(s: State, ev: Event, c: Config): Db
    requires Enabled(s, ev, c)
  {
    var db := s.db;
    match ev
    case SetActive(m, active) => db.(markets := db.markets[m := db.markets[m].(active := active)])
    case OpenBatch(b, m, slots, now) => db.(batches := db.batches[b := Batch(m, |slots|, 0, Open, now)])
    case Dispatch(b, slot, supply) =>
      if JobOf(db, b, slot) in s.q.taken then Settle(db, b, slot, Resolution(CollidedPriorCycle, None), supply) else db
    case ReleaseId(job) => db
    case Abandon(job) => db
    case Drop(job, outcome, _, supply) =>
      if s.q.jobs[job].Some? then Settle(db, s.q.jobs[job].value, job.1, Resolution(outcome, None), supply) else db
    case Store(job, i, item, _, _, supply) =>
      if s.q.jobs[job].Some?
      then Settle(WithItem(db, i, item), s.q.jobs[job].value, job.1, Resolution(Stored, Some(i)), supply)
      else Solo(WithItem(db, i, item), i, supply)
    case SoloCommit(i, supply) => Solo(db, i, supply)
    case LoseStraggler(i) => db.(held := db.held - {i})
    case Sweep(b, supply) => ForceClose(db, b, supply)
    case Work(l, step) => WorkStep(db, l, step, c)
  }

  function ApplyQueue(s: State, ev: Event, c: Config): Queue
    requires Enabled(s, ev, c)
  {
    var q := s.q;
    match ev
    case OpenBatch(b, _, slots, _) => q.(plan := q.plan[b := slots], undispatched := q.undispatched[b := slots])
    case Dispatch(b, slot, _) =>
      var undispatched := q.undispatched[b := q.undispatched[b] - {slot}];
      var job := JobOf(s.db, b, slot);
      if job in q.taken then q.(undispatched := undispatched)
      else q.(undispatched := undispatched, jobs := q.jobs[job := Some(b)], taken := q.taken + {job})
    case ReleaseId(job) => q.(taken := q.taken - {job})
    case Abandon(job) =>
      q.(jobs := q.jobs - {job},
         abandoned := q.abandoned + if q.jobs[job].Some? then {(q.jobs[job].value, job.1)} else {})
    case Drop(job, _, acked, _) => q.(jobs := Ack(q.jobs, job, acked))
    case Store(job, _, _, _, acked, _) => q.(jobs := Ack(q.jobs, job, acked))
    case SetActive(_, _) => q
    case SoloCommit(_, _) => q
    case LoseStraggler(_) => q
    case Sweep(_, _) => q
    case Work(_, _) => q
  }

  function Apply(s: State, ev: Event, c: Config): State
    requires Enabled(s, ev, c)
  {
    State(ApplyDb(s, ev, c), ApplyQueue(s, ev, c))
  }

  // ---- runs ----

  /** A fresh deployment: known markets, nothing delivered, perhaps jobs queued by the version
  that had no batches. */
  ghost predicate Initial(s: State) {
    && s.db.batches == map[] && s.db.ledger == map[] && s.db.items == map[] && s.db.logs == map[] && s.db.held == {}
    && (forall m :: m in s.db.markets ==> s.db.markets[m].watermark == None)
    && s.q.plan == map[] && s.q.undispatched == map[] && s.q.abandoned == {}
    && (forall job :: job in s.q.jobs ==> s.q.jobs[job] == None && job in s.q.taken && job.0 in s.db.markets)
  }

  ghost predicate Run(s: State, evs: seq<Event>, c: Config)
    decreases |evs|
  {
    evs == [] || (Enabled(s, evs[0], c) && Run(Apply(s, evs[0], c), evs[1..], c))
  }

  ghost function After(s: State, evs: seq<Event>, c: Config): State
    requires Run(s, evs, c)
    decreases |evs|
  {
    if evs == [] then s else After(Apply(s, evs[0], c), evs[1..], c)
  }
}
