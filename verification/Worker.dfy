/** The worker's methods over the shared tables and queues, each proved to make exactly the
transactions of the protocol. */
module Worker {
  import opened Records
  import opened DeliveryOrder
  import opened Dedup
  import opened Protocol
  import opened Invariants
  import opened Safety
  import Bits
  import D = Delivery
  import Pipeline
  import Simhash

  const STUCK_DELIVERY_THRESHOLD: Time := 5 * MINUTE
  const STUCK_BATCH_THRESHOLD: Time := 30 * MINUTE

  /** uuid4 as the source relies on it: an id nothing else has. */
  method FreshId(used: set<Id>) returns (r: Id)
    ensures r !in used
  {
    r := 0;
    var rest := used;
    while rest != {}
      invariant rest <= used
      invariant forall x :: x in used && x !in rest ==> x < r
      decreases rest
    {
      var x :| x in rest;
      if x >= r {
        r := x + 1;
      }
      rest := rest - {x};
    }
  }

  /** The rows of a query, in whatever order the database returns them. */
  method Fetch(ids: set<Id>) returns (rows: seq<Id>)
    ensures Distinct(rows) && Elements(rows) == ids
  {
    rows := [];
    var rest := ids;
    while rest != {}
      invariant rest <= ids && Distinct(rows)
      invariant forall x :: x in rows <==> x in ids && x !in rest
      decreases rest
    {
      var x :| x in rest;
      rows := rows + [x];
      rest := rest - {x};
    }
  }

  /** What the foreign steps of a candidate job report: entry check, scrape, extraction, title
  fingerprint, embedding and dates. */
  datatype Report = Report(
    activeAtEntry: bool,
    scraped: bool,
    urlHash: Hash,               // of the final URL
    relevant: Option<bool>,      // None when the extraction raised
    fingerprint: nat,
    embedding: Option<Vector>,   // None when the embedding raised
    sourceDate: Option<Time>,
    pageDate: Option<Time>,
    discovered: Time)

  /** The row stored for a candidate; the search source's date wins over the page's own. */
  function NewItem(job: JobId, batch: Option<Id>, r: Report): Item
    requires r.embedding.Some?
  {
    Item(job.0, batch, r.urlHash, Some(Simhash.ToSigned64(r.fingerprint)), r.embedding.value,
         if r.sourceDate.Some? then r.sourceDate else r.pageDate, r.discovered, false)
  }

  /** The outcome the checks prescribe, in the order they are made. */
  ghost function Verdict(db: Db, market: Id, r: Report, c: Config): Outcome {
    if !r.activeAtEntry then MarketInactive
    else if !r.scraped then ScrapeFailed
    else if r.relevant.None? then ExtractionError
    else if !r.relevant.value then NotRelevant
    else if r.embedding.None? then EmbedError
    else if !(market in db.markets && db.markets[market].active) then MarketInactive
    else if exists i :: i in MarketItems(db.items, market) && db.items[i].urlHash == r.urlHash then DupUrl
    else if exists i :: i in MarketItems(db.items, market)
                        && NearTitle(r.fingerprint, db.items[i].title, c.thresholds.hamming)
         then DupTitle
    else if exists i :: i in MarketItems(db.items, market)
                        && Similarity(c.distance, r.embedding.value, db.items[i].vector) >= c.thresholds.similarity
         then DupSemantic
    else Stored
  }

  /** Every outcome in its own terms: an article that could be read, judged and embedded for an active
  market is stored unless an item of that market has its URL, else a title within the threshold, else an
  embedding that is similar enough. */
  lemma VerdictTable(db: Db, market: Id, r: Report, c: Config)
    ensures var o := Verdict(db, market, r, c);
            var active := market in db.markets && db.markets[market].active;
            var judged := r.activeAtEntry && r.scraped && r.relevant == Some(true);
            var ready := judged && r.embedding.Some? && active;
            var sameUrl := exists i ::
              i in db.items && db.items[i].market == market && db.items[i].urlHash == r.urlHash;
            var nearTitle := exists i ::
              && i in db.items && db.items[i].market == market && db.items[i].title.Some?
              && Bits.HammingDistance(r.fingerprint, Simhash.FromSigned64(db.items[i].title.value))
                 <= c.thresholds.hamming;
            var similar := r.embedding.Some? && exists i ::
              && i in db.items && db.items[i].market == market
              && 1.0 - c.distance(r.embedding.value, db.items[i].vector) >= c.thresholds.similarity;
            && (o == Stored <==> ready && !sameUrl && !nearTitle && !similar)
            && (o == DupSemantic <==> ready && !sameUrl && !nearTitle && similar)
            && (o == DupTitle <==> ready && !sameUrl && nearTitle)
            && (o == DupUrl <==> ready && sameUrl)
            && (o == EmbedError <==> judged && r.embedding.None?)
            && (o == NotRelevant <==> r.activeAtEntry && r.scraped && r.relevant == Some(false))
            && (o == ExtractionError <==> r.activeAtEntry && r.scraped && r.relevant.None?)
            && (o == ScrapeFailed <==> r.activeAtEntry && !r.scraped)
            && (o == MarketInactive <==> !r.activeAtEntry || (judged && r.embedding.Some? && !active))
  {
    assert forall i :: i in MarketItems(db.items, market) <==> i in db.items && db.items[i].market == market;
  }

  /** The transactions of one candidate job: one resolution, and the late path's second commit if the
  resolution missed its batch and the worker lives on. */
  ghost function CandidateEvents(s: State, job: JobId, outcome: Outcome, id: Id, r: Report, dies: bool,
                                supply: Supply): seq<Event>
    requires job in s.q.jobs && (outcome == Stored ==> r.embedding.Some?)
    requires s.q.jobs[job].Some? ==> s.q.jobs[job].value in s.db.batches
  {
    if outcome != Stored then [Drop(job, outcome, !dies, supply)]
    else
      var store := Store(job, id, NewItem(job, s.q.jobs[job], r), r.fingerprint, !dies, supply);
      var late := s.q.jobs[job].Some? && (s.q.jobs[job].value, job.1) !in s.db.ledger
                  && s.db.batches[s.q.jobs[job].value].status == Closed;
      if late && !dies then [store, SoloCommit(id, supply)] else [store]
  }

  /** The guard of the insert is what the checks established. */
  lemma StorePassesChecks(s: State, job: JobId, id: Id, r: Report, c: Config)
    requires Inv(s, c) && job in s.q.jobs && id !in s.db.items && r.fingerprint < Simhash.FULL
    requires Verdict(s.db, job.0, r, c) == Stored
    ensures StoreOk(s.db, job, s.q.jobs[job], id, NewItem(job, s.q.jobs[job], r), r.fingerprint, c)
    ensures id !in s.db.held
    ensures s.q.jobs[job].Some? ==> s.q.jobs[job].value in s.db.batches
  {
  }

  /** What a storing job does to the tables, read as events. */
  lemma StoreIsEvents(s: State, job: JobId, id: Id, r: Report, dies: bool, supply: Supply, s': State, c: Config)
    requires job in s.q.jobs && r.embedding.Some?
    requires s.q.jobs[job].Some? ==> s.q.jobs[job].value in s.db.batches
    requires StoreOk(s.db, job, s.q.jobs[job], id, NewItem(job, s.q.jobs[job], r), r.fingerprint, c) && id !in s.db.held
    requires s'.q == s.q.(jobs := Ack(s.q.jobs, job, !dies))
    requires var db1 := WithItem(s.db, id, NewItem(job, s.q.jobs[job], r));
             match s.q.jobs[job]
             case None => SoloOk(s.db, supply) && s'.db == Solo(db1, id, supply)
             case Some(b) =>
               && SettleOk(db1, b, job.1, supply)
               && var settled := Settle(db1, b, job.1, Resolution(Stored, Some(id)), supply);
                  if id in settled.held && !dies
                  then SoloOk(settled, supply) && s'.db == Solo(settled, id, supply)
                  else s'.db == settled
    ensures var evs := CandidateEvents(s, job, Stored, id, r, dies, supply); Run(s, evs, c) && After(s, evs, c) == s'
  {
    var store := Store(job, id, NewItem(job, s.q.jobs[job], r), r.fingerprint, !dies, supply);
    var evs := CandidateEvents(s, job, Stored, id, r, dies, supply);
    if |evs| == 1 {
      RunOne(s, store, c);
    } else {
      RunTwo(s, store, SoloCommit(id, supply), c);
    }
  }

  // ---- what one deliver_batch does to the tables ----

  predicate Deliverable(db: Db, l: Id) {
    && l in db.logs && db.logs[l].row.status != Success
    && db.logs[l].row.market in db.markets && db.markets[db.logs[l].row.market].active
  }

  function Delivered(db: Db, l: Id, telegram: bool, replies: seq<Reply>, fuel: nat, c: Config): Db
    requires l in db.logs ==> db.logs[l].run.None?
  {
    if !Deliverable(db, l) then db
    else
      var market := db.logs[l].row.market;
      var begun := D.Step(db.logs[l], D.Begin(telegram, db.markets[market].watermark), c.maxAttempts);
      var after := D.Drive(begun, replies, fuel, c.maxAttempts);
      if after.row.status != Success then db.(logs := db.logs[l := after])
      else db.(logs := db.logs[l := after],
               items := MarkDelivered(db.items, after.row.itemIds),
               markets := db.markets[market := AdvanceMarket(db.markets[market], db.items, begun.run.value)])
  }

  /** The tables after a run of log l that read `seen` at its start has ended in `after`. */
  function Ended(db: Db, l: Id, after: D.Machine, seen: Option<Time>, ids: seq<Id>): Db
    requires l in db.logs && db.logs[l].row.market in db.markets
  {
    var market := db.logs[l].row.market;
    if after.row.status != Success then db.(logs := db.logs[l := after])
    else db.(logs := db.logs[l := after],
             items := MarkDelivered(db.items, ids),
             markets := db.markets[market := db.markets[market].(
                          watermark := Advance(db.markets[market].watermark, seen, Newest(db.items, ids)))])
  }

  /** What a step of a run under way does to the tables: it ends the run, or only its log has moved. */
  lemma WorkMoves(db: Db, l: Id, step: D.Event, c: Config)
    requires WorkOk(db, l, step) && db.logs[l].run.Some? && D.ProgressOk(db.logs[l])
    ensures var run := db.logs[l].run.value;
            var m1 := D.Step(db.logs[l], step, c.maxAttempts);
            && D.ProgressOk(m1)
            && m1.row.market == db.logs[l].row.market
            && if m1.run.None? then WorkStep(db, l, step, c) == Ended(db, l, m1, run.seen, run.mem.itemIds)
               else WorkStep(db, l, step, c) == db.(logs := db.logs[l := m1])
                    && m1.run.value.seen == run.seen && m1.run.value.mem.itemIds == run.mem.itemIds
  {
    D.StepKeepsProgress(db.logs[l], step, c.maxAttempts);
    StepKeepsIdentity(db.logs[l], step, c.maxAttempts);
  }

  lemma EndedLater(db: Db, l: Id, m1: D.Machine, after: D.Machine, seen: Option<Time>, ids: seq<Id>)
    requires l in db.logs && db.logs[l].row.market in db.markets && m1.row.market == db.logs[l].row.market
    ensures Ended(db.(logs := db.logs[l := m1]), l, after, seen, ids) == Ended(db, l, after, seen, ids)
  {
    assert db.logs[l := m1][l := after] == db.logs[l := after];
  }

  /** The event a worker's next step is. */
  function NextStep(m: D.Machine, replies: seq<Reply>, fuel: nat): (step: D.Event)
    requires m.run.Some?
    ensures D.CanStep(m, step) && !step.Begin?
  {
    var phase := m.run.value.phase;
    if fuel == 0 then D.Crash
    else if phase.SaveWebhook? || phase.SaveMessage? then D.Commit
    else if phase.Closing? then D.Finish
    else if replies == [] then D.Crash else D.Answer(replies[0])
  }

  lemma DriveByStep(m: D.Machine, replies: seq<Reply>, fuel: nat, maxAttempts: int)
    requires m.run.Some?
    ensures var step := NextStep(m, replies, fuel);
            var m1 := D.Step(m, step, maxAttempts);
            && (m1.run.Some? ==> fuel > 0 && (step.Answer? ==> replies != []))
            && D.Drive(m, replies, fuel, maxAttempts) ==
               if m1.run.None? then m1
               else D.Drive(m1, if step.Answer? then replies[1..] else replies, fuel - 1, maxAttempts)
  {
  }

  lemma RunPrepend(s: State, ev: Event, rest: seq<Event>, c: Config)
    requires Enabled(s, ev, c) && Run(Apply(s, ev, c), rest, c)
    ensures Run(s, [ev] + rest, c) && After(s, [ev] + rest, c) == After(Apply(s, ev, c), rest, c)
  {
    assert ([ev] + rest)[1..] == rest;
  }

  /** A worker under way makes only delivery steps of its own log. */
  lemma {:induction false} DriveIsRun(s: State, l: Id, replies: seq<Reply>, fuel: nat, c: Config)
    returns (evs: seq<Event>)
    requires l in s.db.logs && s.db.logs[l].run.Some? && D.ProgressOk(s.db.logs[l])
             && s.db.logs[l].row.market in s.db.markets
    ensures Run(s, evs, c)
    ensures var m := s.db.logs[l];
            After(s, evs, c) ==
              State(Ended(s.db, l, D.Drive(m, replies, fuel, c.maxAttempts),
                          m.run.value.seen, m.run.value.mem.itemIds), s.q)
    ensures forall ev :: ev in evs ==> ev.Work? && ev.log == l && !ev.step.Begin?
    decreases fuel
  {
    var m := s.db.logs[l];
    var step := NextStep(m, replies, fuel);
    var ev := Work(l, step);
    var m1 := D.Step(m, step, c.maxAttempts);
    DriveByStep(m, replies, fuel, c.maxAttempts);
    WorkMoves(s.db, l, step, c);
    if m1.run.None? {
      RunOne(s, ev, c);
      evs := [ev];
    } else {
      var s1 := State(s.db.(logs := s.db.logs[l := m1]), s.q);
      assert Apply(s, ev, c) == s1;
      var rest := DriveIsRun(s1, l, if step.Answer? then replies[1..] else replies, fuel - 1, c);
      RunPrepend(s, ev, rest, c);
      EndedLater(s.db, l, m1, D.Drive(m, replies, fuel, c.maxAttempts), m.run.value.seen, m.run.value.mem.itemIds);
      evs := [ev] + rest;
    }
  }

  lemma DeliveredIsEnded(db: Db, l: Id, telegram: bool, replies: seq<Reply>, fuel: nat, c: Config)
    requires Deliverable(db, l) && db.logs[l].run.None?
    ensures var seen := db.markets[db.logs[l].row.market].watermark;
            var begun := D.Step(db.logs[l], D.Begin(telegram, seen), c.maxAttempts);
            Delivered(db, l, telegram, replies, fuel, c) ==
              Ended(db, l, D.Drive(begun, replies, fuel, c.maxAttempts), seen, db.logs[l].row.itemIds)
  {
    var begun := D.Step(db.logs[l], D.Begin(telegram, db.markets[db.logs[l].row.market].watermark), c.maxAttempts);
    D.DriveKeepsItems(begun, replies, fuel, c.maxAttempts);
  }

  /** So deliver_batch, run start to end, is a run of the protocol, and everything proved of runs holds
  at each of its commits. */
  lemma DeliveredIsRun(s: State, l: Id, telegram: bool, replies: seq<Reply>, fuel: nat, c: Config)
    returns (evs: seq<Event>)
    requires l in s.db.logs ==> s.db.logs[l].run.None? && D.ProgressOk(s.db.logs[l])
    ensures Run(s, evs, c) && After(s, evs, c) == State(Delivered(s.db, l, telegram, replies, fuel, c), s.q)
    ensures forall ev :: ev in evs ==> ev.Work? && ev.log == l
  {
    evs := [];
    if Deliverable(s.db, l) {
      var step := D.Begin(telegram, s.db.markets[s.db.logs[l].row.market].watermark);
      var ev := Work(l, step);
      var m1 := D.Step(s.db.logs[l], step, c.maxAttempts);
      D.StepKeepsProgress(s.db.logs[l], step, c.maxAttempts);
      var s1 := State(s.db.(logs := s.db.logs[l := m1]), s.q);
      assert Apply(s, ev, c) == s1;
      var rest := DriveIsRun(s1, l, replies, fuel, c);
      RunPrepend(s, ev, rest, c);
      DeliveredIsEnded(s.db, l, telegram, replies, fuel, c);
      EndedLater(s.db, l, m1, D.Drive(m1, replies, fuel, c.maxAttempts), step.seen, s.db.logs[l].row.itemIds);
      evs := [ev] + rest;
    }
  }

  /** What one call of deliver_batch does to the tables, in terms of the replies. Only an undelivered log
  of an active market is worked on; its row ends as the replies say. Unless it is delivered, no item and
  no market changes. If it is, exactly its items are flagged, and the watermark becomes the latest of the
  one before and their dates. */
  lemma DeliveredMeans(db: Db, l: Id, telegram: bool, replies: seq<Reply>, fuel: nat, c: Config)
    requires l in db.logs ==> db.logs[l].run.None? && D.ProgressOk(db.logs[l])
    requires l in db.logs ==> forall i :: i in db.logs[l].row.itemIds ==> i in db.items
    ensures var db' := Delivered(db, l, telegram, replies, fuel, c);
            if l in db.logs && db.logs[l].row.status != Success
               && db.logs[l].row.market in db.markets && db.markets[db.logs[l].row.market].active
            then DeliveredRow(db, db', l, telegram, replies, fuel, c) else db' == db
  {
    hide D.Leaves, D.Drive, D.ProgressOk, DeliveredRow, Ended;
    if Deliverable(db, l) {
      var seen := db.markets[db.logs[l].row.market].watermark;
      var begun := D.Step(db.logs[l], D.Begin(telegram, seen), c.maxAttempts);
      var after := D.Drive(begun, replies, fuel, c.maxAttempts);
      D.RunLeaves(db.logs[l], telegram, seen, replies, fuel, c.maxAttempts);
      D.DriveEnds(begun, replies, fuel, c.maxAttempts);
      DeliveredIsEnded(db, l, telegram, replies, fuel, c);
      hide Delivered;
      EndedMeans(db, l, telegram, replies, fuel, c, after);
    }
  }

  lemma EndedMeans(db: Db, l: Id, telegram: bool, replies: seq<Reply>, fuel: nat, c: Config, after: D.Machine)
    requires Deliverable(db, l) && D.ProgressOk(db.logs[l]) && after.run.None?
    requires var row := db.logs[l].row;
             D.Leaves(row, row.(attempt := row.attempt + 1), telegram, replies, fuel, c.maxAttempts, after.row)
    ensures var row := db.logs[l].row;
            DeliveredRow(db, Ended(db, l, after, db.markets[row.market].watermark, row.itemIds),
                         l, telegram, replies, fuel, c)
  {
    hide D.Leaves, NewestOf, Newest, Advance, D.ProgressOk;
    AdvanceIsLatest(db.items, db.logs[l].row.itemIds, db.markets[db.logs[l].row.market].watermark);
  }

  lemma AdvanceIsLatest(items: map<Id, Item>, ids: seq<Id>, mark: Option<Time>)
    ensures NewestOf(items, ids, mark, Advance(mark, mark, Newest(items, ids)))
  {
  }

  ghost predicate DeliveredRow(db: Db, db': Db, l: Id, telegram: bool, replies: seq<Reply>, fuel: nat, c: Config)
    requires l in db.logs && D.ProgressOk(db.logs[l])
  {
    var row := db.logs[l].row;
    && l in db'.logs && db'.logs == db.logs[l := db'.logs[l]] && db'.logs[l].run.None?
    && D.Leaves(row, row.(attempt := row.attempt + 1), telegram, replies, fuel, c.maxAttempts, db'.logs[l].row)
    && db'.batches == db.batches && db'.ledger == db.ledger && db'.held == db.held
    && if db'.logs[l].row.status != Success then db'.items == db.items && db'.markets == db.markets
       else && db'.items.Keys == db.items.Keys
            && (forall i :: i in db.items ==>
                  db'.items[i] == if i in row.itemIds then db.items[i].(delivered := true) else db.items[i])
            && row.market in db.markets && row.market in db'.markets
            && db'.markets == db.markets[row.market := db'.markets[row.market]]
            && NewestOf(db.items, row.itemIds, db.markets[row.market].watermark, db'.markets[row.market].watermark)
            && db'.markets[row.market].active == db.markets[row.market].active
  }

  /** The latest of a mark and the dates of these items, null if there is neither. */
  ghost predicate NewestOf(items: map<Id, Item>, ids: seq<Id>, mark: Option<Time>, latest: Option<Time>) {
    && (latest == mark || (latest.Some? && exists i :: i in ids && i in items && items[i].published == latest))
    && (mark.Some? ==> latest.Some? && latest.value >= mark.value)
    && forall i :: i in ids && i in items && items[i].published.Some? ==>
         latest.Some? && latest.value >= items[i].published.value
  }

  /** A call that did not deliver the log and has attempts left leaves it for the sweep, whose selection it
  meets from its fifth minute on while its market is active. */
  lemma UnfinishedIsRetried(db: Db, l: Id, telegram: bool, replies: seq<Reply>, fuel: nat, c: Config, now: Time)
    requires l in db.logs && db.logs[l].run.None? && D.ProgressOk(db.logs[l]) && Deliverable(db, l)
    requires db.logs[l].row.status == Pending || db.logs[l].row.status == Failed
    requires db.logs[l].row.attempt + 1 < c.maxAttempts && now >= db.logs[l].row.createdAt + 300_000_000
    ensures var db' := Delivered(db, l, telegram, replies, fuel, c);
            && l in db'.logs
            && var row := db'.logs[l].row;
               row.status == Success
               || ((row.status == Pending || row.status == Failed) && row.createdAt <= now - 300_000_000
                   && row.market in db'.markets && db'.markets[row.market].active)
  {
    var seen := db.markets[db.logs[l].row.market].watermark;
    var begun := D.Step(db.logs[l], D.Begin(telegram, seen), c.maxAttempts);
    D.RunLeaves(db.logs[l], telegram, seen, replies, fuel, c.maxAttempts);
    D.DriveKeepsItems(begun, replies, fuel, c.maxAttempts);
    hide D.Drive;
  }

  /** The latest date, as the running maximum the source takes. */
  method LatestDate(items: map<Id, Item>, ids: seq<Id>) returns (newest: Option<Time>)
    ensures newest == Newest(items, ids)
  {
    newest := None;
    for n := 0 to |ids|
      invariant newest.None? <==> forall k :: 0 <= k < n && ids[k] in items ==> items[ids[k]].published.None?
      invariant newest.Some? ==> exists k :: 0 <= k < n && ids[k] in items && items[ids[k]].published == newest
      invariant newest.Some? ==> forall k :: 0 <= k < n && ids[k] in items && items[ids[k]].published.Some? ==>
                                   items[ids[k]].published.value <= newest.value
    {
      if ids[n] in items && items[ids[n]].published.Some?
         && (newest.None? || items[ids[n]].published.value > newest.value) {
        newest := items[ids[n]].published;
      }
    }
    var spec := Newest(items, ids);
    if newest.Some? {
      var k :| 0 <= k < |ids| && ids[k] in items && items[ids[k]].published == newest;
      assert ids[k] in ids;
      var i :| i in ids && i in items && items[i].published == spec;
      var j :| 0 <= j < |ids| && ids[j] == i;
      assert items[ids[j]].published.value <= newest.value;
    } else {
      forall i | i in ids && i in items ensures items[i].published.None? {
        var j :| 0 <= j < |ids| && ids[j] == i;
        assert items[ids[j]].published.None?;
      }
    }
  }

  class Database {
    var markets: map<Id, Market>
    var batches: map<Id, Batch>
    var ledger: map<(Id, Hash), Resolution>
    var items: map<Id, Item>
    var logs: map<Id, D.Machine>
    var held: set<Id>
    var plan: map<Id, set<Hash>>
    var undispatched: map<Id, set<Hash>>
    var jobs: map<JobId, Option<Id>>
    var taken: set<JobId>
    var abandoned: set<(Id, Hash)>
    var deliveries: set<Id>  // delivery logs with a queued deliver_batch job

    ghost function Tables(): Db
      reads this
    {
      Db(markets, batches, ledger, items, logs, held)
    }

    ghost function View(): State
      reads this
    {
      State(Tables(), Queue(plan, undispatched, jobs, taken, abandoned))
    }

    // ---- app/worker/batching.py ----

    /** _finalize_batch_delivery: list the batch's items in delivery order and insert one log, unless
    every candidate was dropped. */
    method FinalizeBatchDelivery(b: Id, now: Time) returns (log: Option<Id>, ghost supply: Supply)
      requires b in batches
      modifies this`logs
      ensures ListingOk(old(Tables()), b, supply) && supply.now == now
      ensures log.None? ==> logs == old(logs)
      ensures log.None? ==> forall i :: i in items && items[i].batch == Some(b) ==> items[i].market != batches[b].market
      ensures log.Some? ==>
                && log.value !in old(logs) && log.value in logs && logs == old(logs)[log.value := logs[log.value]]
                && var row := logs[log.value].row;
                   && row == Log(batches[b].market, b, row.itemIds, now, 0, Pending, None, None, false, [])
                   && Distinct(row.itemIds) && Ordered(items, row.itemIds)
                   && forall i :: i in row.itemIds <==>
                        i in items && items[i].market == batches[b].market && items[i].batch == Some(b)
      ensures logs == Finalize(old(logs), batches[b].market, b, supply)
      ensures log == if supply.listing == [] then None else Some(supply.log)
      ensures supply.listing == [] <==> BatchItems(old(Tables()), b) == {}
    {
      var chosen := set i | i in items && items[i].market == batches[b].market && items[i].batch == Some(b);
      var rows := Fetch(chosen);
      assert forall i :: i in rows ==> i in Elements(rows);
      var listing := List(items, rows);
      var newId := FreshId(logs.Keys);
      supply := Supply(newId, 0, listing, now);
      if listing == [] {
        log := None;
        assert Elements(listing) == {} == chosen;
        assert forall i ::
          i in items && items[i].market == batches[b].market && items[i].batch == Some(b) ==> i in chosen;
      } else {
        assert listing[0] in Elements(listing);
        assert forall i :: i in listing <==> i in Elements(listing);
        logs := logs[newId := D.NewMachine(NewLog(batches[b].market, b, listing, now))];
        log := Some(newId);
      }
    }

    /** create_solo_delivery: one item, delivered on its own under a key nothing else uses. */
    method CreateSoloDelivery(market: Id, item: Id, now: Time) returns (log: Id, ghost supply: Supply)
      modifies this`logs
      ensures SoloOk(old(Tables()), supply) && log == supply.log && supply.now == now
      ensures log !in old(logs) && log in logs && logs == old(logs)[log := logs[log]]
      ensures logs[log].row == Log(market, supply.key, [item], now, 0, Pending, None, None, false, [])
      ensures supply.key !in batches && forall l :: l in old(logs) ==> old(logs)[l].row.batchId != supply.key
      ensures logs == AddLog(old(logs), market, supply.key, [item], supply)
    {
      log := FreshId(logs.Keys);
      var keys := set l | l in logs :: logs[l].row.batchId;
      var key := FreshId(batches.Keys + keys);
      supply := Supply(log, key, [], now);
      assert forall l :: l in logs ==> logs[l].row.batchId in keys;
      logs := logs[log := D.NewMachine(NewLog(market, key, [item], now))];
    }

    /** resolve_batch_candidate. `dies` is a crash between the two commits of the late path. */
    method ResolveBatchCandidate(b: Id, slot: Hash, outcome: Outcome, item: Option<Id>, now: Time, dies: bool)
      returns (log: Option<Id>, ghost supply: Supply)
      requires b in batches && (item.Some? ==> item.value in items && item.value !in held)
      modifies this`ledger, this`batches, this`logs, this`held
      ensures ledger == if (b, slot) in old(ledger) then old(ledger)
                        else old(ledger)[(b, slot) := Resolution(outcome, item)]
      ensures batches ==
              if (b, slot) in old(ledger) || old(batches)[b].status == Closed then old(batches)
              else var count := old(batches)[b].resolved + 1;
                   old(batches)[b := old(batches)[b].(
                     resolved := count, status := if count >= old(batches)[b].expected then Closed else Open)]
      ensures SettleOk(old(Tables()), b, slot, supply)
      ensures var settled := Settle(old(Tables()), b, slot, Resolution(outcome, item), supply);
              if item.Some? && item.value in settled.held && !dies
              then SoloOk(settled, supply) && Tables() == Solo(settled, item.value, supply) && log == Some(supply.log)
              else Tables() == settled
                   && log == if Completes(old(Tables()), b, slot) && supply.listing != []
                             then Some(supply.log) else None
      ensures Created(old(logs).Keys, logs.Keys, log)
    {
      supply := Supply(0, 0, [], now);
      log := None;
      // insert ... on conflict do nothing
      if (b, slot) in ledger {
        return;
      }
      ledger := ledger[(b, slot) := Resolution(outcome, item)];
      // update ... where status = open
      if batches[b].status == Closed {
        if item.None? {
          return;
        }
        held := held + {item.value};
        if dies {
          return;
        }
        ghost var settled := Tables();
        var solo;
        solo, supply := CreateSoloDelivery(items[item.value].market, item.value, now);
        held := held - {item.value};
        log := Some(solo);
        assert Tables() == Solo(settled, item.value, supply);
        return;
      }
      var count := batches[b].resolved + 1;
      batches := batches[b := batches[b].(resolved := count,
                                          status := if count >= batches[b].expected then Closed
                                                    else batches[b].status)];
      if batches[b].status != Closed {
        return;
      }
      log, supply := FinalizeBatchDelivery(b, now);
    }

    /** force_close_batch: the sweep's close, a no-op if the batch is closed already. */
    method ForceCloseBatch(b: Id, now: Time) returns (log: Option<Id>, ghost supply: Supply)
      requires b in batches
      modifies this`batches, this`logs
      ensures old(batches)[b].status == Open ==> ListingOk(old(Tables()), b, supply)
      ensures Tables() == ForceClose(old(Tables()), b, supply)
      ensures batches == old(batches)[b := old(batches)[b].(status := Closed)]
      ensures log == if old(batches)[b].status == Open && supply.listing != [] then Some(supply.log) else None
      ensures Created(old(logs).Keys, logs.Keys, log)
    {
      supply := Supply(0, 0, [], now);
      log := None;
      if batches[b].status == Open {
        ghost var before := Tables();
        batches := batches[b := batches[b].(status := Closed)];
        assert BatchItems(Tables(), b) == BatchItems(before, b);
        log, supply := FinalizeBatchDelivery(b, now);
      }
    }

    // ---- app/worker/scheduler.py ----

    predicate Stuck(b: Id, now: Time)
      reads this
    {
      && b in batches && batches[b].status == Open && batches[b].createdAt <= now - STUCK_BATCH_THRESHOLD
      && batches[b].market in markets && markets[batches[b].market].active
    }

    /** One turn of the sweep's loop: close the batch and queue the delivery this makes, if any. */
    method SweepOne(b: Id, now: Time, c: Config, ghost start: State, ghost done: seq<Event>)
      returns (ghost evs: seq<Event>)
      requires b in batches && Run(start, done, c) && After(start, done, c) == View()
      modifies this`batches, this`logs, this`deliveries
      ensures |evs| == |done| + 1 && evs[..|done|] == done && evs[|done|].Sweep? && evs[|done|].batch == b
      ensures Run(start, evs, c) && After(start, evs, c) == View()
      ensures batches == old(batches)[b := old(batches)[b].(status := Closed)]
      ensures Queued(old(logs).Keys, logs.Keys, old(deliveries), deliveries)
    {
      var log; ghost var supply;
      log, supply := ForceCloseBatch(b, now);
      evs := done + [Sweep(b, supply)];
      RunAppend(start, done, Sweep(b, supply), c);
      if log.Some? {
        deliveries := deliveries + {log.value};
      }
    }

    /** The loop of the sweep over the batches its query returned. */
    method SweepAll(stuck: set<Id>, now: Time, c: Config, ghost start: State) returns (ghost evs: seq<Event>)
      requires stuck <= batches.Keys && start == View()
      modifies this`batches, this`logs, this`deliveries
      ensures Run(start, evs, c) && After(start, evs, c) == View()
      ensures SweepsOf(evs, stuck)
      ensures batches == CloseAll(old(batches), stuck)
      ensures Queued(old(logs).Keys, logs.Keys, old(deliveries), deliveries)
    {
      evs := [];
      assert Run(start, evs, c) && After(start, evs, c) == View();
      assert batches == CloseAll(batches, {}) && Queued(logs.Keys, logs.Keys, deliveries, deliveries);
      assert SweepsOf(evs, stuck);
      hide Run, After, CloseAll, Queued, SweepsOf;
      var rest := stuck;
      ghost var swept: set<Id> := {};
      while rest != {}
        invariant swept + rest == stuck <= batches.Keys
        invariant Run(start, evs, c) && After(start, evs, c) == View()
        invariant SweepsOf(evs, stuck)
        invariant batches == CloseAll(old(batches), swept)
        invariant Queued(old(logs).Keys, logs.Keys, old(deliveries), deliveries)
        decreases rest
      {
        var b :| b in rest;
        ghost var keys, queued, before := logs.Keys, deliveries, evs;
        evs := SweepOne(b, now, c, start, evs);
        CloseOneMore(old(batches), swept, b);
        QueuedOnward(old(logs).Keys, keys, logs.Keys, old(deliveries), queued, deliveries);
        SweepsMore(before, evs, stuck);
        rest, swept := rest - {b}, swept + {b};
      }
      assert swept == stuck;
    }

    /** enqueue_stuck_batches: close every batch of an active market that has been open too long, and
    queue the deliveries this makes; touch no other batch. */
    method EnqueueStuckBatches(now: Time, c: Config) returns (ghost evs: seq<Event>)
      modifies this`batches, this`logs, this`deliveries
      ensures Run(old(View()), evs, c) && After(old(View()), evs, c) == View()
      ensures forall ev :: ev in evs ==> ev.Sweep?
      ensures batches.Keys == old(batches).Keys
      ensures forall b :: b in batches ==>
                var batch := old(batches)[b];
                batches[b] == batch.(status :=
                  if batch.createdAt <= now - 1_800_000_000 && batch.market in markets && markets[batch.market].active
                  then Closed else batch.status)
      ensures Queued(old(logs).Keys, logs.Keys, old(deliveries), deliveries)
    {
      var stuck := set b | b in batches && Stuck(b, now);
      evs := SweepAll(stuck, now, c, View());
    }

    predicate Recoverable(l: Id, now: Time)
      reads this
    {
      && l in logs && logs[l].row.status in {Pending, Failed} && logs[l].row.createdAt <= now - STUCK_DELIVERY_THRESHOLD
      && logs[l].row.market in markets && markets[logs[l].row.market].active
    }

    /** enqueue_stuck_deliveries: queue every old pending or failed delivery of an active market, and
    nothing else; in particular no delivered and no dead-lettered one. */
    method EnqueueStuckDeliveries(now: Time)
      modifies this`deliveries
      ensures forall l :: l in deliveries <==>
                || l in old(deliveries)
                || (l in logs && (logs[l].row.status == Pending || logs[l].row.status == Failed)
                    && logs[l].row.createdAt <= now - 300_000_000
                    && logs[l].row.market in markets && markets[logs[l].row.market].active)
    {
      var rest := set l | l in logs && Recoverable(l, now);
      ghost var chosen := rest;
      while rest != {}
        invariant rest <= chosen && deliveries == old(deliveries) + (chosen - rest)
        decreases rest
      {
        var l :| l in rest;
        deliveries := deliveries + {l};
        rest := rest - {l};
      }
    }

    // ---- app/worker/tasks.py: process_market ----

    /** One turn of the fan-out: queue the candidate's job, or, when the queue refuses the id, resolve
    the slot as collided. */
    method DispatchOne(b: Id, slot: Hash, now: Time, c: Config, ghost start: State, ghost done: seq<Event>)
      returns (ghost evs: seq<Event>)
      requires b in batches && b in undispatched && slot in undispatched[b]
      requires Run(start, done, c) && After(start, done, c) == View()
      modifies this`ledger, this`batches, this`logs, this`held
      modifies this`undispatched, this`jobs, this`taken, this`deliveries
      ensures |evs| == |done| + 1 && evs[..|done|] == done
      ensures evs[|done|].Dispatch? && evs[|done|].batch == b && evs[|done|].slot == slot
      ensures Run(start, evs, c) && After(start, evs, c) == View()
      ensures SameBatch(old(batches), batches, b)
      ensures undispatched == old(undispatched)[b := old(undispatched)[b] - {slot}]
      ensures var job := (batches[b].market, slot);
              if job in old(taken) then jobs == old(jobs) && taken == old(taken) && (b, slot) in ledger
              else jobs == old(jobs)[job := Some(b)] && taken == old(taken) + {job}
      ensures forall k :: k in old(ledger) ==> k in ledger
      ensures Queued(old(logs).Keys, logs.Keys, old(deliveries), deliveries)
    {
      hide Run, After, Enabled, Apply, ApplyDb, ApplyQueue, Settle, SettleOk;
      ghost var before := View();
      var job := (batches[b].market, slot);
      ghost var supply := Supply(0, 0, [], now);
      undispatched := undispatched[b := undispatched[b] - {slot}];
      if job !in taken {
        jobs := jobs[job := Some(b)];
        taken := taken + {job};
        DispatchQueues(before, b, slot, supply, c);
      } else {
        var log;
        log, supply := ResolveBatchCandidate(b, slot, CollidedPriorCycle, None, now, false);
        DispatchCollides(before, b, slot, supply, c);
        if log.Some? {
          deliveries := deliveries + {log.value};
        }
      }
      evs := done + [Dispatch(b, slot, supply)];
      RunAppend(start, done, Dispatch(b, slot, supply), c);
    }

    /** The batch row is committed before any candidate job can start. */
    method OpenNewBatch(market: Id, selected: seq<Hash>, now: Time, c: Config) returns (b: Id, ghost evs: seq<Event>)
      requires market in markets && selected != [] && Distinct(selected)
      modifies this`batches, this`plan, this`undispatched
      ensures Enabled(old(View()), OpenBatch(b, market, Elements(selected), now), c)
      ensures evs == [OpenBatch(b, market, Elements(selected), now)]
      ensures Run(old(View()), evs, c) && After(old(View()), evs, c) == View()
      ensures b !in old(batches) && batches == old(batches)[b := Batch(market, |selected|, 0, Open, now)]
      ensures undispatched == old(undispatched)[b := Elements(selected)]
      ensures plan == old(plan)[b := Elements(selected)] && |plan[b]| == |selected|
    {
      var keys := set l | l in logs :: logs[l].row.batchId;
      b := FreshId(batches.Keys + keys);
      assert forall l :: l in logs ==> logs[l].row.batchId in keys;
      DistinctSize(selected);
      batches := batches[b := Batch(market, |selected|, 0, Open, now)];
      var slots := set h | h in selected;
      plan := plan[b := slots];
      undispatched := undispatched[b := slots];
      assert slots == Elements(selected);
      assert selected[0] in slots;
      evs := [OpenBatch(b, market, slots, now)];
      assert evs[1..] == [];
    }

    /** The fan-out loop of process_market. */
    method FanOut(b: Id, selected: seq<Hash>, now: Time, c: Config, ghost start: State, ghost done: seq<Event>)
      returns (ghost evs: seq<Event>)
      requires b in batches && b in undispatched && undispatched[b] == Elements(selected) && Distinct(selected)
      requires Run(start, done, c) && After(start, done, c) == View()
      modifies this`ledger, this`batches, this`logs, this`held
      modifies this`undispatched, this`jobs, this`taken, this`deliveries
      ensures SameBatch(old(batches), batches, b) && b in undispatched && undispatched[b] == {}
      ensures |evs| == |done| + |selected| && evs[..|done|] == done && DispatchesOf(evs[|done|..], b, selected)
      ensures Run(start, evs, c) && After(start, evs, c) == View()
      ensures forall h :: h in selected ==> Handed(jobs, ledger, b, (batches[b].market, h), old(taken))
      ensures Queued(old(logs).Keys, logs.Keys, old(deliveries), deliveries)
    {
      hide Run, After;
      ghost var market := batches[b].market;
      evs := done;
      for n := 0 to |selected|
        invariant SameBatch(old(batches), batches, b) && b in undispatched
        invariant undispatched[b] == Elements(selected[n..])
        invariant Run(start, evs, c) && After(start, evs, c) == View()
        invariant |evs| == |done| + n && evs[..|done|] == done && DispatchesOf(evs[|done|..], b, selected[..n])
        invariant HandedAll(jobs, ledger, b, market, selected[..n], old(taken))
        invariant forall k :: n <= k < |selected| ==>
                    ((market, selected[k]) in taken <==> (market, selected[k]) in old(taken))
        invariant Queued(old(logs).Keys, logs.Keys, old(deliveries), deliveries)
      {
        assert selected[n..] == [selected[n]] + selected[n + 1..];
        assert Elements(selected[n + 1..]) == Elements(selected[n..]) - {selected[n]};
        assert selected[..n + 1] == selected[..n] + [selected[n]];
        ghost var jobs0, ledger0, evs0 := jobs, ledger, evs;
        evs := DispatchOne(b, selected[n], now, c, start, evs);
        assert evs[|done|..] == evs0[|done|..] + [evs[|evs0|]];
        assert selected[n] !in selected[..n];
        HandedMore(jobs0, jobs, ledger0, ledger, b, market, selected[..n], selected[n], old(taken));
      }
      assert selected[..|selected|] == selected;
    }

    /** process_market. `entry` is the market's row as read at the start and never again, so neither a
    pause nor a delivery during the search is seen; `existing` are the hashes read after it. One batch is
    opened for the selected candidates, and every one of them is handed over: afterwards no slot is left
    undispatched, and each has a queued job carrying this batch or, if the queue still knew its job id, a
    ledger row. The batch expects as many resolutions as it has possible ledger keys. */
    method ProcessMarket(market: Id, entry: Option<Market>, answers: seq<Pipeline.Answer>, hash: string -> Hash,
                         existing: set<Hash>, policy: Pipeline.Policy, similarity: Pipeline.Candidate -> real,
                         now: Time, c: Config)
      returns (batch: Option<Id>, selected: seq<Pipeline.Candidate>, ghost evs: seq<Event>)
      requires entry.Some? ==> market in markets
      modifies this
      ensures selected ==
              if entry.Some? && entry.value.active
              then Pipeline.Selected(Pipeline.Hits(answers), hash, existing, policy, now,
                                     entry.value.watermark, similarity)
              else []
      ensures entry.Some? && entry.value.active ==>
                Pipeline.GoodSelection(selected, Pipeline.Hits(answers), hash, existing, policy, now,
                                       entry.value.watermark, similarity)
      ensures batch.Some? <==> selected != []
      ensures batch.None? ==> View() == old(View()) && deliveries == old(deliveries)
      ensures Run(old(View()), evs, c) && After(old(View()), evs, c) == View()
      ensures batch.Some? ==>
                var b, slots := batch.value, Pipeline.Hashes(selected);
                && b !in old(batches) && b in batches && batches[b].market == market
                && b in plan && plan[b] == Elements(slots) && batches[b].expected == |plan[b]| == |selected|
                && b in undispatched && undispatched[b] == {}
                && evs != [] && evs[0] == OpenBatch(b, market, Elements(slots), now) && DispatchesOf(evs[1..], b, slots)
                && (forall h :: h in slots ==> Handed(jobs, ledger, b, (market, h), old(taken)))
                && Queued(old(logs).Keys, logs.Keys, old(deliveries), deliveries)
    {
      evs, batch, selected := [], None, [];
      if entry.None? || !entry.value.active {
        return;
      }
      selected := Pipeline.Select(answers, hash, existing, policy, now, entry.value.watermark, similarity);
      if selected == [] {
        return;
      }
      Pipeline.SlotsDistinct(Pipeline.Hits(answers), hash, existing, policy, now, entry.value.watermark, similarity);
      ghost var start := View();
      var b;
      var slots := Pipeline.Hashes(selected);
      b, evs := OpenNewBatch(market, slots, now, c);
      evs := FanOut(b, slots, now, c, start, evs);
      batch := Some(b);
    }

    // ---- app/worker/tasks.py: process_candidate ----

    /** The `resolve` closure: settle the slot of the job's batch, or, for a job queued without one,
    deliver a stored item on its own. `dies` is a crash before the job is acknowledged. */
    method Resolve(job: JobId, outcome: Outcome, item: Option<Id>, now: Time, dies: bool) returns (ghost supply: Supply)
      requires job in jobs && (jobs[job].Some? ==> jobs[job].value in batches)
      requires item.Some? ==> item.value in items && item.value !in held && items[item.value].market == job.0
      modifies this`ledger, this`batches, this`logs, this`held, this`deliveries
      ensures jobs[job].Some? ==>
                && SettleOk(old(Tables()), jobs[job].value, job.1, supply)
                && var settled := Settle(old(Tables()), jobs[job].value, job.1, Resolution(outcome, item), supply);
                   if item.Some? && item.value in settled.held && !dies
                   then SoloOk(settled, supply) && Tables() == Solo(settled, item.value, supply)
                   else Tables() == settled
      ensures jobs[job].None? && item.Some? ==>
                SoloOk(old(Tables()), supply) && Tables() == Solo(old(Tables()), item.value, supply)
      ensures jobs[job].None? && item.None? ==> Tables() == old(Tables())
      ensures Queued(old(logs).Keys, logs.Keys, old(deliveries), deliveries)
    {
      supply := Supply(0, 0, [], now);
      var log: Option<Id> := None;
      if jobs[job].None? {
        if item.Some? {
          ghost var before := Tables();
          var solo;
          solo, supply := CreateSoloDelivery(job.0, item.value, now);
          assert held == held - {item.value};
          assert Tables() == Solo(before, item.value, supply);
          log := Some(solo);
        }
      } else {
        log, supply := ResolveBatchCandidate(jobs[job].value, job.1, outcome, item, now, dies);
      }
      if log.Some? {
        deliveries := deliveries + {log.value};
      }
    }

    /** The checks of process_candidate, up to and including the duplicate scans under the lock. */
    method Check(market: Id, r: Report, c: Config) returns (outcome: Outcome)
      ensures outcome == Verdict(Tables(), market, r, c)
    {
      if !r.activeAtEntry {
        return MarketInactive;
      }
      if !r.scraped {
        return ScrapeFailed;
      }
      if r.relevant.None? {
        return ExtractionError;
      }
      if !r.relevant.value {
        return NotRelevant;
      }
      if r.embedding.None? {
        return EmbedError;
      }
      if !(market in markets && markets[market].active) {
        return MarketInactive;
      }
      var sameUrl := UrlStored(items, market, r.urlHash);
      if sameUrl {
        return DupUrl;
      }
      var sameTitle := TitleStored(items, market, r.fingerprint, c.thresholds.hamming);
      if sameTitle {
        return DupTitle;
      }
      var similar := FindSimilar(items, market, r.embedding.value, c.thresholds.similarity, c.distance);
      if similar.Some? {
        return DupSemantic;
      }
      outcome := Stored;
    }

    /** A job that stores nothing: one resolution, then the acknowledgement. */
    method DropCandidate(job: JobId, outcome: Outcome, now: Time, dies: bool, c: Config) returns (ghost supply: Supply)
      requires job in jobs && (jobs[job].Some? ==> jobs[job].value in batches)
      modifies this`ledger, this`batches, this`logs, this`held, this`jobs, this`deliveries
      ensures Enabled(old(View()), Drop(job, outcome, !dies, supply), c)
      ensures View() == Apply(old(View()), Drop(job, outcome, !dies, supply), c)
      ensures Queued(old(logs).Keys, logs.Keys, old(deliveries), deliveries)
    {
      supply := Resolve(job, outcome, None, now, dies);
      if !dies {
        jobs := jobs - {job};
      }
    }

    /** A job that stores its item: the insert and the resolution in one transaction, then, if the
    resolution missed its batch, the solo delivery. */
    method StoreCandidate(job: JobId, id: Id, r: Report, now: Time, dies: bool, c: Config)
      returns (ghost supply: Supply)
      requires job in jobs && r.embedding.Some? && (jobs[job].Some? ==> jobs[job].value in batches) && id !in held
      requires StoreOk(Tables(), job, jobs[job], id, NewItem(job, jobs[job], r), r.fingerprint, c)
      modifies this`items, this`ledger, this`batches, this`logs, this`held, this`jobs, this`deliveries
      ensures var evs := CandidateEvents(old(View()), job, Stored, id, r, dies, supply);
              Run(old(View()), evs, c) && After(old(View()), evs, c) == View()
      ensures items == old(items)[id := NewItem(job, old(jobs)[job], r)]
      ensures Queued(old(logs).Keys, logs.Keys, old(deliveries), deliveries)
    {
      ghost var start := View();
      items := items[id := NewItem(job, jobs[job], r)];
      supply := Resolve(job, Stored, Some(id), now, dies);
      if !dies {
        jobs := jobs - {job};
      }
      StoreIsEvents(start, job, id, r, dies, supply, View(), c);
    }

    /** process_candidate: one job, from the entry check to its single resolution. The job ends with
    exactly the outcome the checks prescribe, and it resolves exactly once on every path. */
    method ProcessCandidate(job: JobId, r: Report, now: Time, dies: bool, c: Config)
      returns (outcome: Outcome, ghost id: Id, ghost supply: Supply)
      requires job in jobs && r.fingerprint < Simhash.FULL && Inv(View(), c)
      modifies this`items, this`ledger, this`batches, this`logs, this`held, this`jobs, this`deliveries
      ensures outcome == Verdict(old(Tables()), job.0, r, c)
      ensures outcome != Stored ==> items == old(items)
      ensures outcome == Stored ==>
                && id !in old(items) && id in items && items == old(items)[id := items[id]]
                && var item := items[id];
                   && item.published == (if r.sourceDate.Some? then r.sourceDate else r.pageDate)
                   && item.market == job.0 && item.batch == old(jobs)[job]
                   && item.urlHash == r.urlHash && Some(item.vector) == r.embedding
                   && item.title.Some? && Simhash.FromSigned64(item.title.value) == r.fingerprint
                   && item.discovered == r.discovered && !item.delivered
      ensures var evs := CandidateEvents(old(View()), job, outcome, id, r, dies, supply);
              Run(old(View()), evs, c) && After(old(View()), evs, c) == View()
      ensures Queued(old(logs).Keys, logs.Keys, old(deliveries), deliveries)
    {
      id := 0;
      ghost var start := View();
      outcome := Check(job.0, r, c);
      if outcome != Stored {
        supply := DropCandidate(job, outcome, now, dies, c);
        RunOne(start, Drop(job, outcome, !dies, supply), c);
      } else {
        var newId := FreshId(items.Keys);
        id := newId;
        StorePassesChecks(start, job, id, r, c);
        Simhash.SignedStorage(r.fingerprint, r.fingerprint);
        supply := StoreCandidate(job, newId, r, now, dies, c);
      }
    }

    // ---- app/worker/tasks.py: deliver_batch ----

    /** deliver_batch, with the replies its calls will get and the point at which it dies. The payload
    carries the log's items in the log's order, whatever order the rows come back in. */
    method DeliverBatch(l: Id, telegram: bool, replies: seq<Reply>, fuel: nat, c: Config)
      returns (payload: seq<(Id, Item)>)
      requires l in logs ==> logs[l].run.None? && forall i :: i in logs[l].row.itemIds ==> i in items
      modifies this`logs, this`items, this`markets
      ensures Tables() == Delivered(old(Tables()), l, telegram, replies, fuel, c)
      ensures l in old(logs) && D.ProgressOk(old(logs)[l]) && old(logs)[l].row.status != Success
              && old(logs)[l].row.market in old(markets) && old(markets)[old(logs)[l].row.market].active ==>
                DeliveredRow(old(Tables()), Tables(), l, telegram, replies, fuel, c)
      ensures Deliverable(old(Tables()), l) ==>
                && DeliveryOrder.Keys(payload) == old(logs)[l].row.itemIds
                && forall p :: p in payload ==> p.0 in old(items) && p.1 == old(items)[p.0]
    {
      ghost var before := Tables();
      payload := [];
      if l !in logs || logs[l].row.status == Success {
        return;
      }
      var market := logs[l].row.market;
      if market !in markets || !markets[market].active {
        return;
      }
      var seen := markets[market].watermark;
      payload := LoadItems(logs[l].row.itemIds);
      ghost var begun := D.Step(logs[l], D.Begin(telegram, seen), c.maxAttempts);
      var after := D.Deliver(logs[l], telegram, seen, replies, fuel, c.maxAttempts);
      D.DriveKeepsItems(begun, replies, fuel, c.maxAttempts);
      assert after.row.itemIds == logs[l].row.itemIds;
      logs := logs[l := after];
      if after.row.status == Success {
        RecordSuccess(market, after.row.itemIds, seen);
      }
      if D.ProgressOk(before.logs[l]) {
        DeliveredMeans(before, l, telegram, replies, fuel, c);
      }
    }

    /** The last commit's item and market rows. */
    method RecordSuccess(market: Id, ids: seq<Id>, seen: Option<Time>)
      requires market in markets && forall i :: i in ids ==> i in items
      modifies this`items, this`markets
      ensures items == MarkDelivered(old(items), ids)
      ensures markets == old(markets)[market := old(markets)[market].(
                           watermark := Advance(old(markets)[market].watermark, seen, Newest(old(items), ids)))]
    {
      var newest := LatestDate(items, ids);
      FlagItems(ids);
      if newest.Some? && (seen.None? || newest.value > seen.value) {
        markets := markets[market := markets[market].(watermark := newest)];
      }
    }

    /** One query for all the items, reassembled in the log's order. */
    method LoadItems(ids: seq<Id>) returns (rows: seq<(Id, Item)>)
      requires forall i :: i in ids ==> i in items
      ensures DeliveryOrder.Keys(rows) == ids
      ensures forall p :: p in rows ==> p.0 in items && p.1 == items[p.0]
    {
      var found := set i | i in ids && i in items;
      var order := Fetch(found);
      var fetched: seq<(Id, Item)> := [];
      for n := 0 to |order|
        invariant |fetched| == n && forall k :: 0 <= k < n ==>
                    fetched[k].0 == order[k] && order[k] in items && fetched[k].1 == items[order[k]]
        invariant DeliveryOrder.Keys(fetched) == order[..n]
      {
        assert order[n] in Elements(order);
        KeysAppend(fetched, (order[n], items[order[n]]));
        fetched := fetched + [(order[n], items[order[n]])];
      }
      assert order[..|order|] == order;
      rows := Reassemble(ids, fetched);
      PresentMeans(ids, Elements(order));
    }

    /** Flag every delivered item. */
    method FlagItems(ids: seq<Id>)
      requires forall i :: i in ids ==> i in items
      modifies this`items
      ensures items == MarkDelivered(old(items), ids)
    {
      for n := 0 to |ids|
        invariant items == MarkDelivered(old(items), ids[..n])
      {
        assert ids[..n + 1] == ids[..n] + [ids[n]];
        items := items[ids[n] := items[ids[n]].(delivered := true)];
      }
      assert ids[..|ids|] == ids;
    }
  }

  /** A batch keeps what it was opened with. */
  ghost predicate SameBatch(batches: map<Id, Batch>, batches': map<Id, Batch>, b: Id) {
    && b in batches && batches'.Keys == batches.Keys
    && batches'[b].market == batches[b].market && batches'[b].expected == batches[b].expected
  }

  /** A hand-over the queue accepts. */
  lemma DispatchQueues(s: State, b: Id, slot: Hash, supply: Supply, c: Config)
    requires b in s.db.batches && b in s.q.undispatched && slot in s.q.undispatched[b]
    requires JobOf(s.db, b, slot) !in s.q.taken
    ensures var ev, job := Dispatch(b, slot, supply), JobOf(s.db, b, slot);
            && Enabled(s, ev, c)
            && Apply(s, ev, c) == State(s.db, s.q.(undispatched := s.q.undispatched[b := s.q.undispatched[b] - {slot}],
                                                  jobs := s.q.jobs[job := Some(b)], taken := s.q.taken + {job}))
  {
  }

  /** A hand-over whose job id is taken: the slot ends in the ledger. */
  lemma DispatchCollides(s: State, b: Id, slot: Hash, supply: Supply, c: Config)
    requires b in s.db.batches && b in s.q.undispatched && slot in s.q.undispatched[b]
    requires JobOf(s.db, b, slot) in s.q.taken && SettleOk(s.db, b, slot, supply)
    ensures var ev := Dispatch(b, slot, supply);
            var settled := Settle(s.db, b, slot, Resolution(CollidedPriorCycle, None), supply);
            && Enabled(s, ev, c)
            && Apply(s, ev, c) == State(settled,
                  s.q.(undispatched := s.q.undispatched[b := s.q.undispatched[b] - {slot}]))
            && SameBatch(s.db.batches, settled.batches, b)
            && (b, slot) in settled.ledger
            && (forall k :: k in s.db.ledger ==> k in settled.ledger)
  {
  }

  /** A log is returned exactly if one was created, and it is that one. */
  ghost predicate Created(logs: set<Id>, logs': set<Id>, log: Option<Id>) {
    if log.Some? then log.value !in logs && logs' == logs + {log.value} else logs' == logs
  }

  /** Every delivery log created has been queued, and nothing else. */
  ghost predicate Queued(logs: set<Id>, logs': set<Id>, deliveries: set<Id>, deliveries': set<Id>) {
    logs <= logs' && deliveries' == deliveries + (logs' - logs)
  }

  /** Exactly these batches closed, their counters and all other batches untouched. */
  function CloseAll(batches: map<Id, Batch>, which: set<Id>): map<Id, Batch> {
    map b | b in batches :: if b in which then batches[b].(status := Closed) else batches[b]
  }

  /** Sweeps of these batches, and nothing else. */
  ghost predicate SweepsOf(evs: seq<Event>, which: set<Id>) {
    forall ev :: ev in evs ==> ev.Sweep? && ev.batch in which
  }

  lemma SweepsMore(evs: seq<Event>, evs': seq<Event>, which: set<Id>)
    requires SweepsOf(evs, which) && |evs'| == |evs| + 1 && evs'[..|evs|] == evs
    requires evs'[|evs|].Sweep? && evs'[|evs|].batch in which
    ensures SweepsOf(evs', which)
  {
    assert evs' == evs + [evs'[|evs|]];
  }

  lemma CloseOneMore(batches: map<Id, Batch>, which: set<Id>, b: Id)
    requires b in batches
    ensures var closed := CloseAll(batches, which);
            closed.Keys == batches.Keys && closed[b := closed[b].(status := Closed)] == CloseAll(batches, which + {b})
  {
  }

  lemma QueuedOnward(logs: set<Id>, logs': set<Id>, logs'': set<Id>,
                     deliveries: set<Id>, deliveries': set<Id>, deliveries'': set<Id>)
    requires Queued(logs, logs', deliveries, deliveries') && Queued(logs', logs'', deliveries', deliveries'')
    ensures Queued(logs, logs'', deliveries, deliveries'')
  {
  }

  ghost predicate DispatchesOf(evs: seq<Event>, b: Id, slots: seq<Hash>) {
    |evs| == |slots| && forall k :: 0 <= k < |evs| ==> evs[k].Dispatch? && evs[k].batch == b && evs[k].slot == slots[k]
  }

  /** The slot's job carries the batch, or its id was taken and the slot is resolved already. */
  ghost predicate Handed(jobs: map<JobId, Option<Id>>, ledger: map<(Id, Hash), Resolution>, b: Id,
                         job: JobId, wasTaken: set<JobId>) {
    if job in wasTaken then (b, job.1) in ledger else job in jobs && jobs[job] == Some(b)
  }

  ghost predicate HandedAll(jobs: map<JobId, Option<Id>>, ledger: map<(Id, Hash), Resolution>, b: Id, market: Id,
                            slots: seq<Hash>, wasTaken: set<JobId>)
  {
    forall h :: h in slots ==> Handed(jobs, ledger, b, (market, h), wasTaken)
  }

  lemma HandedMore(jobs: map<JobId, Option<Id>>, jobs': map<JobId, Option<Id>>, ledger: map<(Id, Hash), Resolution>,
                   ledger': map<(Id, Hash), Resolution>, b: Id, market: Id,
                   slots: seq<Hash>, slot: Hash, wasTaken: set<JobId>)
    requires HandedAll(jobs, ledger, b, market, slots, wasTaken) && slot !in slots
    requires forall k :: k in ledger ==> k in ledger'
    requires jobs' == jobs || jobs' == jobs[(market, slot) := Some(b)]
    requires Handed(jobs', ledger', b, (market, slot), wasTaken)
    ensures HandedAll(jobs', ledger', b, market, slots + [slot], wasTaken)
  {
  }
}
