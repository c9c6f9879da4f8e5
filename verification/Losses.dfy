/** Runs from a fresh deployment in which the obvious promise fails: the two ways to lose an item, the
watermark that moves backwards, and the dead letter that is delivered after all. */
module Losses {
  import opened Records
  import opened Dedup
  import opened Protocol
  import opened Guarantees
  import opened Watermark
  import Bits
  import D = Delivery
  import Safety
  import Simhash

  const CONFIG := Config(1, Thresholds(0, 0.9), (a, b) => 1.0)

  // ---- lost items ----

  /** One active market and nothing else. */
  function Start(): State {
    State(Db(map[0 := Market(true, None)], map[], map[], map[], map[], {}), Queue(map[], map[], map[], {}, {}))
  }

  /** The one candidate of batch 1. */
  const JOB: JobId := (0, 7)

  const NOTHING_LISTED := Supply(0, 0, [], 0)

  function News(): Item {
    Item(0, Some(1), 7, Some(Simhash.ToSigned64(0)), 0, None, 0, false)
  }

  function StoreLate(acked: bool): Event {
    Store(JOB, 2, News(), 0, acked, NOTHING_LISTED)
  }

  function Opening(): seq<Event> {
    [OpenBatch(1, 0, {7}, 0), Dispatch(1, 7, NOTHING_LISTED)]
  }

  /** The sweep closes the batch before its candidate is stored, and the straggler dies after its
  first commit. */
  function CrashRun(): seq<Event> {
    Opening() + [Sweep(1, NOTHING_LISTED), StoreLate(true), LoseStraggler(2)]
  }

  /** The candidate fails, which closes its batch of one, but the job is not acknowledged; its
  re-run stores the item. */
  function RerunRun(): seq<Event> {
    Opening() + [Drop(JOB, ScrapeFailed, false, NOTHING_LISTED), StoreLate(true)]
  }

  lemma RunStep(s: State, evs: seq<Event>, c: Config)
    requires evs != [] && Enabled(s, evs[0], c) && Run(Apply(s, evs[0], c), evs[1..], c)
    ensures Run(s, evs, c) && After(s, evs, c) == After(Apply(s, evs[0], c), evs[1..], c)
  {
  }

  /** The state once the candidate's job is queued. */
  function Opened(): State {
    State(Db(map[0 := Market(true, None)], map[1 := Batch(0, 1, 0, Open, 0)], map[], map[], map[], {}),
          Queue(map[1 := {7}], map[1 := {}], map[JOB := Some(1)], {JOB}, {}))
  }

  lemma OpeningRuns(evs: seq<Event>)
    requires Run(Opened(), evs, CONFIG)
    ensures Run(Start(), Opening() + evs, CONFIG)
    ensures After(Start(), Opening() + evs, CONFIG) == After(Opened(), evs, CONFIG)
  {
    var open, dispatch := OpenBatch(1, 0, {7}, 0), Dispatch(1, 7, NOTHING_LISTED);
    assert |{7}| == 1;
    var s1 := Apply(Start(), open, CONFIG);
    assert s1.q.undispatched[1] - {7} == {};
    assert Apply(s1, dispatch, CONFIG).q == Opened().q;
    assert Apply(s1, dispatch, CONFIG).db == Opened().db;
    assert ([dispatch] + evs)[1..] == evs;
    RunStep(s1, [dispatch] + evs, CONFIG);
    assert (Opening() + evs)[1..] == [dispatch] + evs;
    RunStep(Start(), Opening() + evs, CONFIG);
  }

  /** The batch closed and empty; the job is still queued. */
  function Closed(ledger: map<(Id, Hash), Resolution>, resolved: nat): State {
    State(Db(map[0 := Market(true, None)],
             map[1 := Batch(0, 1, resolved, BatchStatus.Closed, 0)], ledger, map[], map[], {}),
          Queue(map[1 := {7}], map[1 := {}], map[JOB := Some(1)], {JOB}, {}))
  }

  lemma LateStoreLoses()
    ensures var evs := [StoreLate(true), LoseStraggler(2)];
            Run(Closed(map[], 0), evs, CONFIG) && Orphan(After(Closed(map[], 0), evs, CONFIG).db, 2)
  {
    var s4 := Apply(Closed(map[], 0), StoreLate(true), CONFIG);
    RunStep(s4, [LoseStraggler(2)], CONFIG);
    RunStep(Closed(map[], 0), [StoreLate(true), LoseStraggler(2)], CONFIG);
    assert Apply(s4, LoseStraggler(2), CONFIG).db.logs == map[];
  }

  lemma SweepCloses()
    ensures Enabled(Opened(), Sweep(1, NOTHING_LISTED), CONFIG)
    ensures Apply(Opened(), Sweep(1, NOTHING_LISTED), CONFIG) == Closed(map[], 0)
  {
    assert forall i :: i !in BatchItems(Opened().db, 1);
  }

  /** An item is stored and no log will ever list it. */
  lemma CrashLoses()
    ensures Initial(Start()) && Run(Start(), CrashRun(), CONFIG) && Orphan(After(Start(), CrashRun(), CONFIG).db, 2)
  {
    var sweep := Sweep(1, NOTHING_LISTED);
    var evs := [sweep, StoreLate(true), LoseStraggler(2)];
    SweepCloses();
    LateStoreLoses();
    assert evs[1..] == [StoreLate(true), LoseStraggler(2)];
    RunStep(Opened(), evs, CONFIG);
    OpeningRuns(evs);
  }

  lemma DropCloses()
    ensures var drop := Drop(JOB, ScrapeFailed, false, NOTHING_LISTED);
            && Enabled(Opened(), drop, CONFIG)
            && Apply(Opened(), drop, CONFIG) == Closed(map[(1, 7) := Resolution(ScrapeFailed, None)], 1)
  {
    assert forall i :: i !in BatchItems(Opened().db, 1);
  }

  /** Here no pair of commits is interrupted: a job that runs twice is enough. */
  lemma RerunLoses()
    ensures Initial(Start()) && Run(Start(), RerunRun(), CONFIG) && Orphan(After(Start(), RerunRun(), CONFIG).db, 2)
  {
    var drop := Drop(JOB, ScrapeFailed, false, NOTHING_LISTED);
    var s3 := Closed(map[(1, 7) := Resolution(ScrapeFailed, None)], 1);
    DropCloses();
    RunStep(s3, [StoreLate(true)], CONFIG);
    assert [drop, StoreLate(true)][1..] == [StoreLate(true)];
    RunStep(Opened(), [drop, StoreLate(true)], CONFIG);
    OpeningRuns([drop, StoreLate(true)]);
    assert Apply(s3, StoreLate(true), CONFIG).db.logs == map[];
  }

  // ---- two deliveries of one market ----

  /** The article of job 7 or 8, whichever the title fingerprint tells. */
  function Article(hash: Hash, fingerprint: nat, published: Time): Item {
    Item(0, None, hash, Some(Simhash.ToSigned64(fingerprint)), 0, Some(published), 0, false)
  }

  const NEWER := Article(7, 0, 100)
  const OLDER := Article(8, 1, 50)

  /** Two jobs queued before there were batches. */
  function Queued(): State {
    State(Db(map[0 := Market(true, None)], map[], map[], map[], map[], {}),
          Queue(map[], map[], map[(0, 7) := None, (0, 8) := None], {(0, 7), (0, 8)}, {}))
  }

  function Stores(): seq<Event> {
    [Store((0, 7), 1, NEWER, 0, true, Supply(11, 21, [], 0)), Store((0, 8), 2, OLDER, 1, true, Supply(12, 22, [], 0))]
  }

  const FIRST := D.NewMachine(NewLog(0, 21, [1], 0))
  const SECOND := D.NewMachine(NewLog(0, 22, [2], 0))

  /** Both articles stored, and their logs where these machines stand. */
  function Both(first: D.Machine, second: D.Machine): State {
    State(Db(map[0 := Market(true, None)], map[], map[],
             map[1 := NEWER, 2 := OLDER], map[11 := first, 12 := second], {}),
          Queue(map[], map[], map[], {(0, 7), (0, 8)}, {}))
  }

  /** The titles are different enough, the other checks are passed at once. */
  lemma OlderIsClear()
    ensures Clear(map[1 := NEWER], 0, 8, 1, 0, CONFIG.thresholds, CONFIG.distance)
  {
    Simhash.SignedStorage(0, 0);
    Bits.DistanceIsMetric(1, 0, 0);
  }

  lemma NewerStored()
    ensures Enabled(Queued(), Stores()[0], CONFIG) && Apply(Queued(), Stores()[0], CONFIG) == OneStored()
  {
  }

  function OneStored(): State {
    State(Db(map[0 := Market(true, None)], map[], map[], map[1 := NEWER], map[11 := FIRST], {}),
          Queue(map[], map[], map[(0, 8) := None], {(0, 7), (0, 8)}, {}))
  }

  lemma OlderStored()
    ensures Enabled(OneStored(), Stores()[1], CONFIG) && Apply(OneStored(), Stores()[1], CONFIG) == Both(FIRST, SECOND)
  {
    OlderIsClear();
  }

  lemma StoresRun()
    ensures Run(Queued(), Stores(), CONFIG) && After(Queued(), Stores(), CONFIG) == Both(FIRST, SECOND)
  {
    NewerStored();
    OlderStored();
    hide Enabled, Apply, Run, After, OneStored, Both, Queued;
    Safety.RunTwo(Queued(), Stores()[0], Stores()[1], CONFIG);
  }

  lemma FirstMoves(first: D.Machine, second: D.Machine, step: D.Event)
    requires D.CanStep(first, step) && !step.Finish? && first.row.market == 0 && (step.Begin? ==> step.seen == None)
    ensures var ev := Work(11, step);
            Enabled(Both(first, second), ev, CONFIG)
            && Apply(Both(first, second), ev, CONFIG) == Both(D.Step(first, step, CONFIG.maxAttempts), second)
  {
  }

  lemma SecondMoves(first: D.Machine, second: D.Machine, step: D.Event)
    requires D.CanStep(second, step) && !step.Finish? && second.row.market == 0 && (step.Begin? ==> step.seen == None)
    ensures var ev := Work(12, step);
            Enabled(Both(first, second), ev, CONFIG)
            && Apply(Both(first, second), ev, CONFIG) == Both(first, D.Step(second, step, CONFIG.maxAttempts))
  {
  }

  const OK := D.Answer(Reply(Some(200), None))
  const REFUSED := D.Answer(Reply(Some(500), None))
  const BEGIN := D.Begin(false, None)

  /** A log that has posted its webhook and has nothing left to send. */
  function Sent(m: D.Machine): D.Machine
    requires m.run.None? && m.row.status != Success && !m.row.webhookDelivered
  {
    var m1 := D.Step(m, BEGIN, CONFIG.maxAttempts);
    var m2 := D.Step(m1, OK, CONFIG.maxAttempts);
    D.Step(m2, D.Commit, CONFIG.maxAttempts)
  }

  /** Both deliveries begin before either finishes, so both have read that there is no watermark. */
  function Overlapping(): seq<Event> {
    [Work(11, BEGIN), Work(12, BEGIN), Work(11, OK), Work(11, D.Commit), Work(12, OK), Work(12, D.Commit)]
  }

  lemma OverlappingRun()
    ensures Run(Both(FIRST, SECOND), Overlapping(), CONFIG)
    ensures After(Both(FIRST, SECOND), Overlapping(), CONFIG) == Both(Sent(FIRST), Sent(SECOND))
  {
    var f1 := D.Step(FIRST, BEGIN, CONFIG.maxAttempts);
    var f2 := D.Step(f1, OK, CONFIG.maxAttempts);
    var g1 := D.Step(SECOND, BEGIN, CONFIG.maxAttempts);
    var g2 := D.Step(g1, OK, CONFIG.maxAttempts);
    FirstMoves(FIRST, SECOND, BEGIN);
    SecondMoves(f1, SECOND, BEGIN);
    FirstMoves(f1, g1, OK);
    FirstMoves(f2, g1, D.Commit);
    SecondMoves(Sent(FIRST), g1, OK);
    SecondMoves(Sent(FIRST), g2, D.Commit);
    assert Overlapping() == [Work(11, BEGIN), Work(12, BEGIN)] +
      ([Work(11, OK), Work(11, D.Commit)] + [Work(12, OK), Work(12, D.Commit)]);
    hide Enabled, Apply, Run, After, Both, Overlapping;
    Safety.RunTwo(Both(FIRST, SECOND), Work(11, BEGIN), Work(12, BEGIN), CONFIG);
    Safety.RunTwo(Both(f1, g1), Work(11, OK), Work(11, D.Commit), CONFIG);
    Safety.RunTwo(Both(Sent(FIRST), g1), Work(12, OK), Work(12, D.Commit), CONFIG);
    Safety.RunConcat(Both(f1, g1), [Work(11, OK), Work(11, D.Commit)], [Work(12, OK), Work(12, D.Commit)], CONFIG);
    Safety.RunConcat(Both(FIRST, SECOND), [Work(11, BEGIN), Work(12, BEGIN)],
                     [Work(11, OK), Work(11, D.Commit)] + [Work(12, OK), Work(12, D.Commit)], CONFIG);
  }

  /** The delivery of the older article finishes last. */
  function Finishing(): seq<Event> {
    [Work(11, D.Finish), Work(12, D.Finish)]
  }

  /** The worker of the second log has read no watermark, and the standing one makes no difference to it. */
  lemma FinishingRun()
    ensures var s := Both(Sent(FIRST), Sent(SECOND));
            && Run(s, Finishing(), CONFIG)
            && var db := After(s, Finishing(), CONFIG).db;
               && 0 in db.markets && db.markets[0].watermark == Some(50)
               && DeliveredDate(db, 0, 11, 1, 100)
  {
    var s := Both(Sent(FIRST), Sent(SECOND));
    var s1 := Apply(s, Work(11, D.Finish), CONFIG);
    assert s1.db.logs[12] == Sent(SECOND);
    hide Run, After;
    Safety.RunTwo(s, Work(11, D.Finish), Work(12, D.Finish), CONFIG);
  }

  function OverlapRun(): seq<Event> {
    Stores() + (Overlapping() + Finishing())
  }

  /** From a fresh deployment, a run of ten events leaves the watermark at 50 with a date of 100
  delivered. */
  lemma OverlapLosesMaximum()
    ensures Initial(Queued()) && Run(Queued(), OverlapRun(), CONFIG)
    ensures var db := After(Queued(), OverlapRun(), CONFIG).db;
            0 in db.markets && db.markets[0].watermark == Some(50)
            && DeliveredDate(db, 0, 11, 1, 100) && !IsMaximum(db, 0, db.markets[0].watermark)
  {
    StoresRun();
    OverlappingRun();
    FinishingRun();
    hide Enabled, Apply, Run, After, Both, Overlapping, Finishing, Stores;
    Safety.RunConcat(Both(FIRST, SECOND), Overlapping(), Finishing(), CONFIG);
    Safety.RunConcat(Queued(), Stores(), Overlapping() + Finishing(), CONFIG);
  }

  // ---- a dead letter delivered ----

  /** With one attempt allowed, a refusal dead-letters the log. */
  function Refusal(): seq<Event> {
    [Work(11, BEGIN), Work(11, REFUSED)]
  }

  /** A repeated job begins a delivery on it all the same, and this one is accepted. */
  function Revival(): seq<Event> {
    [Work(11, BEGIN), Work(11, OK)] + [Work(11, D.Commit), Work(11, D.Finish)]
  }

  lemma RefusalRun()
    ensures Run(Both(FIRST, SECOND), Refusal(), CONFIG)
    ensures After(Both(FIRST, SECOND), Refusal(), CONFIG) == Both(DeadLettered(), SECOND)
  {
    FirstMoves(FIRST, SECOND, BEGIN);
    FirstMoves(D.Step(FIRST, BEGIN, CONFIG.maxAttempts), SECOND, REFUSED);
    hide Enabled, Apply, Run, After, Both;
    Safety.RunTwo(Both(FIRST, SECOND), Work(11, BEGIN), Work(11, REFUSED), CONFIG);
  }

  function DeadLettered(): (m: D.Machine)
    ensures m.run.None? && m.row.status == DeadLetter && !m.row.webhookDelivered && m.row.market == 0
  {
    D.Step(D.Step(FIRST, BEGIN, CONFIG.maxAttempts), REFUSED, CONFIG.maxAttempts)
  }

  lemma RevivalRun()
    ensures var s := Both(DeadLettered(), SECOND);
            && Run(s, Revival(), CONFIG)
            && var db := After(s, Revival(), CONFIG).db; 11 in db.logs && db.logs[11].row.status == Success
  {
    var m1 := D.Step(DeadLettered(), BEGIN, CONFIG.maxAttempts);
    var m2 := D.Step(m1, OK, CONFIG.maxAttempts);
    FirstMoves(DeadLettered(), SECOND, BEGIN);
    FirstMoves(m1, SECOND, OK);
    FirstMoves(m2, SECOND, D.Commit);
    assert Apply(Both(Sent(DeadLettered()), SECOND), Work(11, D.Finish), CONFIG).db.logs[11].row.status == Success;
    hide Enabled, Apply, Run, After, Both, D.Step, DeadLettered;
    Safety.RunTwo(Both(DeadLettered(), SECOND), Work(11, BEGIN), Work(11, OK), CONFIG);
    Safety.RunTwo(Both(m2, SECOND), Work(11, D.Commit), Work(11, D.Finish), CONFIG);
    Safety.RunConcat(Both(DeadLettered(), SECOND), [Work(11, BEGIN), Work(11, OK)],
                     [Work(11, D.Commit), Work(11, D.Finish)], CONFIG);
  }

  /** From a fresh deployment, a run in which a log is dead-lettered, and a longer one in which that log
  is delivered. */
  lemma DeadLetterRevives()
    ensures Initial(Queued())
    ensures Run(Queued(), Stores() + Refusal(), CONFIG)
    ensures var db := After(Queued(), Stores() + Refusal(), CONFIG).db;
            11 in db.logs && db.logs[11].row.status == DeadLetter
    ensures Run(Queued(), Stores() + Refusal() + Revival(), CONFIG)
    ensures var db := After(Queued(), Stores() + Refusal() + Revival(), CONFIG).db;
            11 in db.logs && db.logs[11].row.status == Success
  {
    StoresRun();
    RefusalRun();
    RevivalRun();
    hide Enabled, Apply, Run, After, Stores, Refusal, Revival;
    Safety.RunConcat(Queued(), Stores(), Refusal(), CONFIG);
    Safety.RunConcat(Queued(), Stores() + Refusal(), Revival(), CONFIG);
  }
}
