/** One delivery log and the worker that drives it: deliver_batch of app/worker/tasks.py.

The row is what the database holds; the run is the copy a worker has loaded and changed
but not yet committed; the tally is history that only the theorems read. A crash throws
the run away and keeps the row. */
module Delivery {
  import opened Records

  /** Where a worker stands between two of its commits. */
  datatype Phase =
    | AwaitWebhook               // the webhook has been posted
    | SaveWebhook                // a 2xx came back and is not committed yet
    | AwaitMessage(item: Id)     // the Telegram message for this item has been posted
    | SaveMessage(item: Id)      // a 2xx came back and is not committed yet
    | Closing                    // nothing left to send

  /** `seen` is the market watermark read when the run began. */
  datatype Run = Run(mem: Log, telegram: bool, seen: Option<Time>, phase: Phase)

  datatype Tally = Tally(
    hooks: nat,              // 2xx webhook replies so far
    messages: map<Id, nat>,  // 2xx Telegram replies so far, by item
    crashes: nat,            // runs that died
    ended: nat,              // runs that ended with a commit of their outcome
    revived: nat,            // runs begun on a dead-lettered row
    skippedTelegram: bool)   // some run had Telegram switched off

  datatype Machine = Machine(row: Log, run: Option<Run>, tally: Tally)

  datatype Event = Begin(telegram: bool, seen: Option<Time>) | Answer(reply: Reply) | Commit | Finish | Crash

  const NOTHING_YET := Tally(0, map[], 0, 0, 0, false)

  function NewMachine(row: Log): Machine {
    Machine(row, None, NOTHING_YET)
  }

  predicate Accepted(r: Reply) {
    r.error.None? && r.code.Some? && 200 <= r.code.value < 300
  }

  function Sent(t: Tally, i: Id): nat {
    if i in t.messages then t.messages[i] else 0
  }

  /** The first item, in delivery order, that Telegram has not been sent. */
  function FirstUnsent(items: seq<Id>, sent: seq<Id>): (r: Option<Id>)
    ensures r.None? <==> forall i :: i in items ==> i in sent
    ensures r.Some? ==> r.value in items && r.value !in sent
  {
    if items == [] then None
    else if items[0] !in sent then Some(items[0])
    else FirstUnsent(items[1..], sent)
  }

  /** What comes after the webhook, or after a message, has been committed. */
  function Onward(mem: Log, telegram: bool): Phase {
    if !telegram then Closing
    else match FirstUnsent(mem.itemIds, mem.telegramSent)
      case Some(i) => AwaitMessage(i)
      case None => Closing
  }

  /** record_failure: the outcome written when a channel refuses. */
  function Refused(mem: Log, channel: Channel, reply: Reply, maxAttempts: int): Log {
    mem.(statusCode := reply.code,
         error := Some(Failure(channel, reply)),
         status := if mem.attempt >= maxAttempts then DeadLetter else Failed)
  }

  predicate CanStep(m: Machine, ev: Event) {
    match ev
    case Begin(_, _) => m.run.None? && m.row.status != Success
    case Answer(_) => m.run.Some? && (m.run.value.phase.AwaitWebhook? || m.run.value.phase.AwaitMessage?)
    case Commit => m.run.Some? && (m.run.value.phase.SaveWebhook? || m.run.value.phase.SaveMessage?)
    case Finish => m.run.Some? && m.run.value.phase.Closing?
    case Crash => m.run.Some?
  }

  function Step(m: Machine, ev: Event, maxAttempts: int): Machine
    requires CanStep(m, ev)
  {
    match ev
    case Begin(telegram, seen) =>
      var mem := m.row.(attempt := m.row.attempt + 1);
      var phase := if mem.webhookDelivered then Onward(mem, telegram) else AwaitWebhook;
      Machine(m.row, Some(Run(mem, telegram, seen, phase)),
              m.tally.(revived := m.tally.revived + (if m.row.status == DeadLetter then 1 else 0),
                       skippedTelegram := m.tally.skippedTelegram || !telegram))
    case Answer(reply) =>
      var run := m.run.value;
      var channel := if run.phase.AwaitWebhook? then Webhook else Telegram;
      if !Accepted(reply) then
        Machine(Refused(run.mem, channel, reply, maxAttempts), None, m.tally.(ended := m.tally.ended + 1))
      else
        var mem := run.mem.(statusCode := reply.code, error := None);
        if run.phase.AwaitWebhook? then
          Machine(m.row, Some(run.(mem := mem.(webhookDelivered := true), phase := SaveWebhook)),
                  m.tally.(hooks := m.tally.hooks + 1))
        else
          var i := run.phase.item;
          Machine(m.row, Some(run.(mem := mem.(telegramSent := mem.telegramSent + [i]), phase := SaveMessage(i))),
                  m.tally.(messages := m.tally.messages[i := Sent(m.tally, i) + 1]))
    case Commit =>
      var run := m.run.value;
      Machine(run.mem, Some(run.(phase := Onward(run.mem, run.telegram))), m.tally)
    case Finish =>
      Machine(m.run.value.mem.(status := Success, error := None), None, m.tally.(ended := m.tally.ended + 1))
    case Crash =>
      Machine(m.row, None, m.tally.(crashes := m.tally.crashes + 1))
  }

  // ---- what every step keeps ----

  function Progress(row: Log): nat {
    (if row.webhookDelivered then 1 else 0) + |row.telegramSent|
  }

  function Limit(maxAttempts: int): nat {
    if maxAttempts < 1 then 1 else maxAttempts
  }

  /** Telegram's committed list is a prefix of the delivery order and never runs ahead of the webhook. */
  ghost predicate InOrder(row: Log) {
    && row.telegramSent <= row.itemIds
    && (row.telegramSent != [] ==> row.webhookDelivered)
  }

  ghost predicate Identical(a: Log, b: Log) {
    a.market == b.market && a.batchId == b.batchId && a.itemIds == b.itemIds && a.createdAt == b.createdAt
  }

  ghost predicate RunOk(m: Machine)
    requires m.run.Some?
  {
    var run := m.run.value;
    var mem := run.mem;
    && Identical(mem, m.row)
    && InOrder(mem)
    && mem.status == m.row.status && mem.status != Success
    && (!run.telegram ==> m.tally.skippedTelegram)
    && match run.phase
       case AwaitWebhook => !mem.webhookDelivered && Progress(mem) == Progress(m.row)
       case SaveWebhook => mem.webhookDelivered && !m.row.webhookDelivered && mem.telegramSent == m.row.telegramSent
       case AwaitMessage(i) =>
         && run.telegram
         && mem.webhookDelivered && m.row.webhookDelivered && mem.telegramSent == m.row.telegramSent
         && FirstUnsent(mem.itemIds, mem.telegramSent) == Some(i)
       case SaveMessage(i) =>
         && run.telegram
         && mem.webhookDelivered && m.row.webhookDelivered
         && mem.telegramSent == m.row.telegramSent + [i] && i !in m.row.telegramSent
       case Closing =>
         && mem.webhookDelivered && m.row.webhookDelivered && mem.telegramSent == m.row.telegramSent
         && (run.telegram ==> mem.telegramSent == mem.itemIds)
  }

  /** How far a worker has got: the committed progress and what each channel has accepted. */
  ghost predicate ProgressOk(m: Machine) {
    && Distinct(m.row.itemIds)
    && InOrder(m.row)
    && (m.run.Some? ==> RunOk(m))
    && (m.row.status == Success ==>
          m.row.webhookDelivered && (m.tally.skippedTelegram || m.row.telegramSent == m.row.itemIds))
  }

  /** Accepted calls exceed what is recorded only by calls that crashed before their commit. */
  ghost predicate CallsOk(m: Machine) {
    var saving := m.run.Some? && m.run.value.phase.SaveWebhook?;
    && m.tally.hooks <= m.tally.crashes + (if m.row.webhookDelivered || saving then 1 else 0)
    && (m.row.webhookDelivered || saving ==> m.tally.hooks >= 1)
    && forall i ::
         var saving := m.run.Some? && m.run.value.phase == SaveMessage(i);
         && Sent(m.tally, i) <= m.tally.crashes + (if i in m.row.telegramSent || saving then 1 else 0)
         && (i in m.row.telegramSent || saving ==> Sent(m.tally, i) >= 1)
  }

  /** The attempt counter, bounded by the limit plus the progress committed so far. */
  ghost predicate AttemptsOk(m: Machine, maxAttempts: int) {
    var bound := Limit(maxAttempts) + Progress(m.row) + m.tally.revived;
    && m.row.attempt <= bound
    && (m.row.status in {Pending, Failed} ==> m.row.attempt < bound)
    && (m.row.status == DeadLetter ==> m.row.attempt >= maxAttempts)
    && (m.run.Some? ==> m.row.attempt <= m.run.value.mem.attempt <= bound)
    && (m.tally.crashes == 0 ==>
          && (if m.run.Some? then m.run.value.mem.attempt == m.tally.ended + 1 else m.row.attempt == m.tally.ended)
          && (m.run.None? && m.row.status in {Pending, Failed} ==> m.tally.ended < Limit(maxAttempts)))
  }

  ghost predicate MachineOk(m: Machine, maxAttempts: int) {
    ProgressOk(m) && CallsOk(m) && AttemptsOk(m, maxAttempts)
  }

  // ---- proofs, one concern at a time ----

  /** With everything before position k sent and position k not, k is the next to send. */
  lemma {:induction false} FirstUnsentAt(items: seq<Id>, sent: seq<Id>, k: nat)
    requires k < |items| && items[k] !in sent
    requires forall j :: 0 <= j < k ==> items[j] in sent
    ensures FirstUnsent(items, sent) == Some(items[k])
  {
    if k > 0 {
      FirstUnsentAt(items[1..], sent, k - 1);
    }
  }

  /** When the sent list is a prefix, sending the next unsent item extends the prefix. */
  lemma NextExtendsPrefix(items: seq<Id>, sent: seq<Id>)
    requires Distinct(items) && sent <= items
    ensures match FirstUnsent(items, sent)
            case None => sent == items
            case Some(i) => i !in sent && sent + [i] <= items
  {
    if |sent| < |items| {
      var k := |sent|;
      assert forall j :: 0 <= j < k ==> sent[j] == items[j];
      assert items[k] !in sent;
      FirstUnsentAt(items, sent, k);
      assert sent + [items[k]] == items[..k + 1];
    } else {
      assert sent == items;
      forall i | i in items ensures i in sent {}
    }
  }

  lemma OnwardOk(m: Machine)
    requires Distinct(m.row.itemIds) && InOrder(m.row)
    requires m.run.Some? && m.run.value.mem == m.row && m.row.webhookDelivered && m.row.status != Success
    requires !m.run.value.telegram ==> m.tally.skippedTelegram
    requires m.run.value.phase == Onward(m.row, m.run.value.telegram)
    ensures RunOk(m)
  {
    NextExtendsPrefix(m.row.itemIds, m.row.telegramSent);
  }

  lemma StepKeepsProgress(m: Machine, ev: Event, maxAttempts: int)
    requires ProgressOk(m) && CanStep(m, ev)
    ensures ProgressOk(Step(m, ev, maxAttempts))
  {
    var m' := Step(m, ev, maxAttempts);
    match ev
    case Begin(telegram, seen) =>
      NextExtendsPrefix(m.row.itemIds, m.row.telegramSent);
    case Answer(reply) =>
      NextExtendsPrefix(m.row.itemIds, m.row.telegramSent);
    case Commit =>
      OnwardOk(m');
    case Finish =>
    case Crash =>
  }

  lemma StepKeepsCalls(m: Machine, ev: Event, maxAttempts: int)
    requires ProgressOk(m) && CallsOk(m) && CanStep(m, ev)
    ensures CallsOk(Step(m, ev, maxAttempts))
  {
    var m' := Step(m, ev, maxAttempts);
    forall i
      ensures var saving := m'.run.Some? && m'.run.value.phase == SaveMessage(i);
              && Sent(m'.tally, i) <= m'.tally.crashes + (if i in m'.row.telegramSent || saving then 1 else 0)
              && (i in m'.row.telegramSent || saving ==> Sent(m'.tally, i) >= 1)
    {
      assert Sent(m.tally, i) <= m.tally.crashes + 1;
    }
  }

  lemma StepKeepsAttempts(m: Machine, ev: Event, maxAttempts: int)
    requires ProgressOk(m) && AttemptsOk(m, maxAttempts) && CanStep(m, ev)
    ensures AttemptsOk(Step(m, ev, maxAttempts), maxAttempts)
  {
  }

  lemma StepKeepsMachine(m: Machine, ev: Event, maxAttempts: int)
    requires MachineOk(m, maxAttempts) && CanStep(m, ev)
    ensures MachineOk(Step(m, ev, maxAttempts), maxAttempts)
  {
    StepKeepsProgress(m, ev, maxAttempts);
    StepKeepsCalls(m, ev, maxAttempts);
    StepKeepsAttempts(m, ev, maxAttempts);
  }

  lemma NewMachineOk(row: Log, maxAttempts: int)
    requires Distinct(row.itemIds)
    requires row == NewLog(row.market, row.batchId, row.itemIds, row.createdAt)
    ensures MachineOk(NewMachine(row), maxAttempts)
  {
  }

  // ---- whole histories of one delivery log ----

  ghost predicate History(m: Machine, evs: seq<Event>, maxAttempts: int)
    decreases |evs|
  {
    evs == [] || (CanStep(m, evs[0]) && History(Step(m, evs[0], maxAttempts), evs[1..], maxAttempts))
  }

  ghost function Outcome(m: Machine, evs: seq<Event>, maxAttempts: int): Machine
    requires History(m, evs, maxAttempts)
    decreases |evs|
  {
    if evs == [] then m else Outcome(Step(m, evs[0], maxAttempts), evs[1..], maxAttempts)
  }

  lemma {:induction false} HistoryKeepsMachine(m: Machine, evs: seq<Event>, maxAttempts: int)
    requires MachineOk(m, maxAttempts) && History(m, evs, maxAttempts)
    ensures MachineOk(Outcome(m, evs, maxAttempts), maxAttempts)
    decreases |evs|
  {
    if evs != [] {
      StepKeepsMachine(m, evs[0], maxAttempts);
      HistoryKeepsMachine(Step(m, evs[0], maxAttempts), evs[1..], maxAttempts);
    }
  }

  /** Whatever a log goes through: its Telegram list is a duplicate-free prefix of the delivery
  order that never precedes the webhook, and accepted calls per channel are at most one more
  than the crashes and at least one per recorded delivery. */
  lemma ChannelProgress(row: Log, evs: seq<Event>, maxAttempts: int)
    requires Distinct(row.itemIds) && row == NewLog(row.market, row.batchId, row.itemIds, row.createdAt)
    requires History(NewMachine(row), evs, maxAttempts)
    ensures var m := Outcome(NewMachine(row), evs, maxAttempts);
            && m.row.itemIds == row.itemIds && m.row.batchId == row.batchId
            && m.row.telegramSent <= row.itemIds && Distinct(m.row.telegramSent)
            && (m.row.telegramSent != [] ==> m.row.webhookDelivered)
            && m.tally.hooks <= 1 + m.tally.crashes
            && (forall i :: Sent(m.tally, i) <= 1 + m.tally.crashes)
            && (m.row.webhookDelivered ==> m.tally.hooks >= 1)
            && (forall i :: i in m.row.telegramSent ==> Sent(m.tally, i) >= 1)
            && (m.row.status == Success ==> m.row.webhookDelivered)
            && (m.row.status == Success && !m.tally.skippedTelegram ==> m.row.telegramSent == row.itemIds)
  {
    NewMachineOk(row, maxAttempts);
    HistoryKeepsMachine(NewMachine(row), evs, maxAttempts);
    HistoryKeepsIdentity(NewMachine(row), evs, maxAttempts);
  }

  lemma {:induction false} HistoryKeepsIdentity(m: Machine, evs: seq<Event>, maxAttempts: int)
    requires ProgressOk(m) && History(m, evs, maxAttempts)
    ensures Identical(Outcome(m, evs, maxAttempts).row, m.row)
    decreases |evs|
  {
    if evs != [] {
      StepKeepsProgress(m, evs[0], maxAttempts);
      HistoryKeepsIdentity(Step(m, evs[0], maxAttempts), evs[1..], maxAttempts);
    }
  }

  /** Delivery gives up in time. Without crashes, once as many runs have ended as attempts are
  allowed, the log is delivered or dead-lettered. With crashes, the attempt counter still never
  exceeds the limit by more than the progress there is to commit, plus the runs begun on a row
  that was dead-lettered already. */
  lemma AttemptsTerminate(row: Log, evs: seq<Event>, maxAttempts: int)
    requires Distinct(row.itemIds) && row == NewLog(row.market, row.batchId, row.itemIds, row.createdAt)
    requires History(NewMachine(row), evs, maxAttempts)
    ensures var m := Outcome(NewMachine(row), evs, maxAttempts);
            && m.row.attempt <= Limit(maxAttempts) + 1 + |row.itemIds| + m.tally.revived
            && (m.tally.crashes == 0 && m.run.None? && m.tally.ended >= Limit(maxAttempts) ==>
                  m.row.status in {Success, DeadLetter})
  {
    NewMachineOk(row, maxAttempts);
    HistoryKeepsMachine(NewMachine(row), evs, maxAttempts);
    HistoryKeepsIdentity(NewMachine(row), evs, maxAttempts);
  }

  /** A delivered row never starts another run, and a dead-lettered row leaves that status
  exactly when a run begun on it gets every remaining call accepted and finishes. */
  lemma TerminalStatus(m: Machine, ev: Event, maxAttempts: int)
    requires MachineOk(m, maxAttempts) && CanStep(m, ev)
    ensures m.row.status != Success
    ensures m.row.status == DeadLetter ==> (Step(m, ev, maxAttempts).row.status == DeadLetter <==> !ev.Finish?)
    ensures ev.Finish? ==> Step(m, ev, maxAttempts).row.status == Success
  {
  }

  lemma NothingAfterSuccess(m: Machine, evs: seq<Event>, maxAttempts: int)
    requires m.run.None? && m.row.status == Success && History(m, evs, maxAttempts)
    ensures evs == []
  {
  }

  /** Over every history of a dead-lettered row, however often it is run again: it is dead-lettered to
  the end, or delivered, and delivered exactly if some run got as far as finishing. */
  lemma {:induction false} DeadLetterUnlessFinished(m: Machine, evs: seq<Event>, maxAttempts: int)
    requires MachineOk(m, maxAttempts) && m.row.status == DeadLetter && History(m, evs, maxAttempts)
    ensures Outcome(m, evs, maxAttempts).row.status == if Finish in evs then Success else DeadLetter
    decreases |evs|
  {
    if evs != [] {
      var m' := Step(m, evs[0], maxAttempts);
      TerminalStatus(m, evs[0], maxAttempts);
      StepKeepsMachine(m, evs[0], maxAttempts);
      assert evs == [evs[0]] + evs[1..];
      if evs[0].Finish? {
        NothingAfterSuccess(m', evs[1..], maxAttempts);
      } else {
        DeadLetterUnlessFinished(m', evs[1..], maxAttempts);
      }
    }
  }

  /** A refusal ends the run, but loses no committed progress: the next run begins with the very call
  that was refused. */
  lemma RefusalResumes(m: Machine, reply: Reply, maxAttempts: int, seen: Option<Time>)
    requires ProgressOk(m) && CanStep(m, Answer(reply)) && !Accepted(reply)
    ensures var m' := Step(m, Answer(reply), maxAttempts);
            && m'.run.None?
            && (m'.row.status == DeadLetter <==> m.run.value.mem.attempt >= maxAttempts)
            && m'.row.webhookDelivered == m.row.webhookDelivered && m'.row.telegramSent == m.row.telegramSent
            && CanStep(m', Begin(m.run.value.telegram, seen))
            && Step(m', Begin(m.run.value.telegram, seen), maxAttempts).run.value.phase == m.run.value.phase
  {
  }

  // ---- one run, start to end ----

  /** The run a worker makes with these replies arriving in order, dying after `fuel` steps or
  when no further reply comes. */
  function Drive(m: Machine, replies: seq<Reply>, fuel: nat, maxAttempts: int): Machine
    requires m.run.Some?
    decreases fuel
  {
    if fuel == 0 then Step(m, Crash, maxAttempts)
    else match m.run.value.phase
      case AwaitWebhook => DriveAnswer(m, replies, fuel, maxAttempts)
      case AwaitMessage(_) => DriveAnswer(m, replies, fuel, maxAttempts)
      case SaveWebhook => Drive(Step(m, Commit, maxAttempts), replies, fuel - 1, maxAttempts)
      case SaveMessage(_) => Drive(Step(m, Commit, maxAttempts), replies, fuel - 1, maxAttempts)
      case Closing => Step(m, Finish, maxAttempts)
  }

  function DriveAnswer(m: Machine, replies: seq<Reply>, fuel: nat, maxAttempts: int): Machine
    requires m.run.Some? && (m.run.value.phase.AwaitWebhook? || m.run.value.phase.AwaitMessage?)
    requires fuel > 0
    decreases fuel, 0
  {
    if replies == [] then Step(m, Crash, maxAttempts)
    else
      var m' := Step(m, Answer(replies[0]), maxAttempts);
      if m'.run.None? then m' else Drive(m', replies[1..], fuel - 1, maxAttempts)
  }

  /** A run is a history of single steps that leaves the row without a worker, so everything
  proved of histories holds of it at each of its commits. */
  lemma {:induction false} DriveIsHistory(m: Machine, replies: seq<Reply>, fuel: nat, maxAttempts: int)
    returns (evs: seq<Event>)
    requires m.run.Some?
    ensures History(m, evs, maxAttempts) && Outcome(m, evs, maxAttempts) == Drive(m, replies, fuel, maxAttempts)
    ensures Drive(m, replies, fuel, maxAttempts).run.None?
    ensures forall ev :: ev in evs ==> !ev.Begin?
    decreases fuel
  {
    var phase := m.run.value.phase;
    var ev := if fuel == 0 then Crash
              else if phase.SaveWebhook? || phase.SaveMessage? then Commit
              else if phase.Closing? then Finish
              else if replies == [] then Crash else Answer(replies[0]);
    var m' := Step(m, ev, maxAttempts);
    evs := [ev];
    if m'.run.Some? {
      var rest := DriveIsHistory(m', if ev.Answer? then replies[1..] else replies, fuel - 1, maxAttempts);
      evs := [ev] + rest;
      assert evs[1..] == rest;
    } else {
      assert evs[1..] == [];
    }
  }

  lemma DriveEnds(m: Machine, replies: seq<Reply>, fuel: nat, maxAttempts: int)
    requires m.run.Some?
    ensures Drive(m, replies, fuel, maxAttempts).run.None?
  {
    var evs := DriveIsHistory(m, replies, fuel, maxAttempts);
  }

  /** A run never changes what a log lists or the key it carries. */
  lemma {:induction false} DriveKeepsItems(m: Machine, replies: seq<Reply>, fuel: nat, maxAttempts: int)
    requires m.run.Some? && Identical(m.run.value.mem, m.row)
    ensures Identical(Drive(m, replies, fuel, maxAttempts).row, m.row)
    decreases fuel
  {
    if fuel > 0 {
      var phase := m.run.value.phase;
      if phase.SaveWebhook? || phase.SaveMessage? {
        DriveKeepsItems(Step(m, Commit, maxAttempts), replies, fuel - 1, maxAttempts);
      } else if !phase.Closing? && replies != [] && Accepted(replies[0]) {
        DriveKeepsItems(Step(m, Answer(replies[0]), maxAttempts), replies[1..], fuel - 1, maxAttempts);
      }
    }
  }

  /** Calls a worker still has to make. */
  function Owed(m: Machine): nat
    requires m.run.Some? && |m.run.value.mem.telegramSent| <= |m.run.value.mem.itemIds|
  {
    var run := m.run.value;
    2 * (|run.mem.itemIds| - |run.mem.telegramSent|) + (if run.phase.AwaitWebhook? then 2 else 0)
    + (if run.phase.SaveWebhook? || run.phase.SaveMessage? then 1 else 0)
  }

  /** The step a worker that hears only 2xx replies takes next. */
  function Smooth(phase: Phase, reply: Reply): Event
    requires !phase.Closing?
  {
    if phase.SaveWebhook? || phase.SaveMessage? then Commit else Answer(reply)
  }

  lemma SmoothStep(m: Machine, reply: Reply, maxAttempts: int)
    requires ProgressOk(m) && m.run.Some? && !m.run.value.phase.Closing? && Accepted(reply)
    ensures var ev := Smooth(m.run.value.phase, reply);
            && CanStep(m, ev)
            && var m' := Step(m, ev, maxAttempts);
               && ProgressOk(m') && m'.run.Some? && m'.row.itemIds == m.row.itemIds
               && m'.run.value.telegram == m.run.value.telegram
               && Owed(m') < Owed(m)
               && (ev.Answer? ==> Owed(m) > 0)
  {
    NextExtendsPrefix(m.row.itemIds, m.row.telegramSent);
    NextExtendsPrefix(m.row.itemIds, m.run.value.mem.telegramSent);
    StepKeepsProgress(m, Smooth(m.run.value.phase, reply), maxAttempts);
  }

  /** With every reply a 2xx and no crash point in the way, one run delivers the log. */
  lemma {:induction false} DriveDelivers(m: Machine, replies: seq<Reply>, fuel: nat, maxAttempts: int)
    requires ProgressOk(m) && m.run.Some?
    requires fuel > Owed(m) && |replies| >= Owed(m)
    requires forall r :: r in replies ==> Accepted(r)
    ensures Drive(m, replies, fuel, maxAttempts).row.status == Success
    ensures m.run.value.telegram ==> Drive(m, replies, fuel, maxAttempts).row.telegramSent == m.row.itemIds
    decreases fuel
  {
    var phase := m.run.value.phase;
    if !phase.Closing? {
      var reply := if replies == [] then Reply(Some(200), None) else replies[0];
      var ev := Smooth(phase, reply);
      SmoothStep(m, reply, maxAttempts);
      DriveDelivers(Step(m, ev, maxAttempts), if ev.Answer? then replies[1..] else replies, fuel - 1, maxAttempts);
    }
  }

  // ---- what one run leaves behind, in the replies alone ----

  /** How many replies come before the first that is an error or no 2xx. */
  ghost function GoodReplies(replies: seq<Reply>): nat {
    if replies != [] && replies[0].error == None && replies[0].code.Some? && 200 <= replies[0].code.value <= 299
    then 1 + GoodReplies(replies[1..]) else 0
  }

  /** How many calls a run has to make that starts from this memory. */
  ghost function Calls(mem: Log, telegram: bool): int {
    (if mem.webhookDelivered then 0 else 1) + (if telegram then |mem.itemIds| - |mem.telegramSent| else 0)
  }

  /** How many of its calls are on record at the end: as many as are due, answered well before the first
  bad reply, and followed by their commit. */
  ghost function OnRecord(mem: Log, telegram: bool, replies: seq<Reply>, fuel: nat): (n: int)
    requires |mem.telegramSent| <= |mem.itemIds|
    ensures 0 <= n <= |replies|
  {
    GoodRepliesExist(replies);
    var n := if GoodReplies(replies) < Calls(mem, telegram) then GoodReplies(replies) else Calls(mem, telegram);
    if n < fuel / 2 then n else fuel / 2
  }

  lemma {:induction false} GoodRepliesExist(replies: seq<Reply>)
    ensures GoodReplies(replies) <= |replies|
  {
    if replies != [] {
      GoodRepliesExist(replies[1..]);
    }
  }

  /** The log once n calls are on record: the webhook first, then one more item each. */
  ghost function WithCalls(mem: Log, replies: seq<Reply>, n: nat): Log
    requires n <= |replies|
  {
    if n == 0 then mem
    else
      var items := |mem.telegramSent| + n - if mem.webhookDelivered then 0 else 1;
      mem.(webhookDelivered := true,
           telegramSent := if items <= |mem.itemIds| then mem.itemIds[..items] else mem.itemIds,
           statusCode := replies[n - 1].code, error := None)
  }

  /** The row a run leaves. With time left and every call on record, it is delivered. Refused by the next
  reply, it is failed, or dead-lettered once the attempts are used up. Otherwise the run has died, and
  what is on record stands. */
  ghost predicate Leaves(before: Log, mem: Log, telegram: bool, replies: seq<Reply>, fuel: nat,
                         maxAttempts: int, after: Log)
    requires |mem.telegramSent| <= |mem.itemIds|
  {
    var n := OnRecord(mem, telegram, replies, fuel);
    var log := WithCalls(mem, replies, n);
    if n == Calls(mem, telegram) && fuel > 2 * n then after == log.(status := Success, error := None)
    else if n == GoodReplies(replies) < |replies| && n < Calls(mem, telegram) && fuel > 2 * n then
      var channel := if n == 0 && !mem.webhookDelivered then Webhook else Telegram;
      after == log.(status := if mem.attempt >= maxAttempts then DeadLetter else Failed,
                    statusCode := replies[n].code, error := Some(Failure(channel, replies[n])))
    else after == if n == 0 then before else log
  }

  /** A good reply and its commit, as one step of the run. */
  ghost function Recorded(mem: Log, phase: Phase, reply: Reply): Log {
    var log := mem.(statusCode := reply.code, error := None);
    if phase.AwaitMessage? then log.(telegramSent := log.telegramSent + [phase.item])
    else log.(webhookDelivered := true)
  }

  lemma GoodReply(m: Machine, replies: seq<Reply>, fuel: nat, maxAttempts: int) returns (m': Machine)
    requires ProgressOk(m) && m.run.Some? && (m.run.value.phase.AwaitWebhook? || m.run.value.phase.AwaitMessage?)
    requires fuel >= 2 && GoodReplies(replies) > 0
    ensures ProgressOk(m') && m'.run.Some?
    ensures Drive(m, replies, fuel, maxAttempts) == Drive(m', replies[1..], fuel - 2, maxAttempts)
    ensures var run, log := m.run.value, Recorded(m.run.value.mem, m.run.value.phase, replies[0]);
            m'.row == log && m'.run.value == run.(mem := log, phase := Onward(log, run.telegram))
  {
    var m1 := Step(m, Answer(replies[0]), maxAttempts);
    m' := Step(m1, Commit, maxAttempts);
    StepKeepsProgress(m, Answer(replies[0]), maxAttempts);
    StepKeepsProgress(m1, Commit, maxAttempts);
    DriveHears(m, replies, fuel, maxAttempts);
    DriveCommits(m1, replies[1..], fuel - 1, maxAttempts);
  }

  /** Taking the first of n calls off the front. */
  lemma WithOneMore(mem: Log, replies: seq<Reply>, n: nat, phase: Phase)
    requires 0 < n <= |replies| && mem.telegramSent <= mem.itemIds
    requires if phase.AwaitWebhook? then !mem.webhookDelivered
             else phase.AwaitMessage? && mem.webhookDelivered && |mem.telegramSent| < |mem.itemIds|
                  && mem.itemIds[|mem.telegramSent|] == phase.item
    ensures WithCalls(mem, replies, n) == WithCalls(Recorded(mem, phase, replies[0]), replies[1..], n - 1)
  {
    if phase.AwaitMessage? {
      assert mem.itemIds[..|mem.telegramSent| + 1] == mem.telegramSent + [phase.item];
    } else {
      assert mem.itemIds[..|mem.telegramSent|] == mem.telegramSent;
    }
  }

  /** No good reply is put on record: the run ends at once, one way or another. */
  lemma NoneRecorded(m: Machine, replies: seq<Reply>, fuel: nat, maxAttempts: int)
    requires ProgressOk(m) && m.run.Some?
    requires !m.run.value.phase.SaveWebhook? && !m.run.value.phase.SaveMessage?
    requires m.run.value.phase.Closing? || fuel < 2 || GoodReplies(replies) == 0
    ensures Leaves(m.row, m.run.value.mem, m.run.value.telegram, replies, fuel, maxAttempts,
                   Drive(m, replies, fuel, maxAttempts).row)
  {
    var run := m.run.value;
    NextExtendsPrefix(run.mem.itemIds, run.mem.telegramSent);
    if !run.phase.Closing? && fuel > 0 && replies != [] {
      DriveHears(m, replies, fuel, maxAttempts);
    }
  }

  /** The call this phase is waiting for is the next one due. */
  ghost predicate Due(mem: Log, telegram: bool, phase: Phase) {
    && mem.telegramSent <= mem.itemIds
    && if phase.AwaitWebhook? then !mem.webhookDelivered && mem.telegramSent == []
       else phase.AwaitMessage? && telegram && mem.webhookDelivered && |mem.telegramSent| < |mem.itemIds|
            && mem.itemIds[|mem.telegramSent|] == phase.item
  }

  lemma OneMoreOnRecord(mem: Log, telegram: bool, phase: Phase, replies: seq<Reply>, fuel: nat)
    requires Due(mem, telegram, phase) && fuel >= 2 && GoodReplies(replies) > 0
    ensures var log := Recorded(mem, phase, replies[0]);
            && |log.telegramSent| <= |log.itemIds|
            && Calls(log, telegram) == Calls(mem, telegram) - 1
            && OnRecord(mem, telegram, replies, fuel) == 1 + OnRecord(log, telegram, replies[1..], fuel - 2)
  {
  }

  lemma LeavesMore(before: Log, mem: Log, telegram: bool, phase: Phase, replies: seq<Reply>, fuel: nat,
                   maxAttempts: int, after: Log)
    requires Due(mem, telegram, phase) && fuel >= 2 && GoodReplies(replies) > 0
    requires var log := Recorded(mem, phase, replies[0]);
             |log.telegramSent| <= |log.itemIds|
             && Leaves(log, log, telegram, replies[1..], fuel - 2, maxAttempts, after)
    ensures Leaves(before, mem, telegram, replies, fuel, maxAttempts, after)
  {
    var n := OnRecord(mem, telegram, replies, fuel);
    OneMoreOnRecord(mem, telegram, phase, replies, fuel);
    WithOneMore(mem, replies, n, phase);
    hide OnRecord, WithCalls, Calls;
  }

  lemma AwaitedIsDue(m: Machine)
    requires ProgressOk(m) && m.run.Some? && (m.run.value.phase.AwaitWebhook? || m.run.value.phase.AwaitMessage?)
    ensures Due(m.run.value.mem, m.run.value.telegram, m.run.value.phase)
  {
    NextExtendsPrefix(m.run.value.mem.itemIds, m.run.value.mem.telegramSent);
  }

  lemma {:induction false} DriveLeaves(m: Machine, replies: seq<Reply>, fuel: nat, maxAttempts: int)
    requires ProgressOk(m) && m.run.Some?
    requires !m.run.value.phase.SaveWebhook? && !m.run.value.phase.SaveMessage?
    ensures Leaves(m.row, m.run.value.mem, m.run.value.telegram, replies, fuel, maxAttempts,
                   Drive(m, replies, fuel, maxAttempts).row)
    decreases fuel
  {
    hide Drive, Leaves, Due;
    var run := m.run.value;
    if run.phase.Closing? || fuel < 2 || GoodReplies(replies) == 0 {
      NoneRecorded(m, replies, fuel, maxAttempts);
    } else {
      AwaitedIsDue(m);
      var m' := GoodReply(m, replies, fuel, maxAttempts);
      DriveLeaves(m', replies[1..], fuel - 2, maxAttempts);
      LeavesMore(m.row, run.mem, run.telegram, run.phase, replies, fuel, maxAttempts,
                 Drive(m, replies, fuel, maxAttempts).row);
    }
  }

  /** What a delivery leaves behind is settled by the replies alone: the 2xx answers without an error before
  the first other one, and how long the worker lived. */
  lemma RunLeaves(m: Machine, telegram: bool, seen: Option<Time>, replies: seq<Reply>, fuel: nat, maxAttempts: int)
    requires ProgressOk(m) && m.run.None? && m.row.status != Success
    ensures Leaves(m.row, m.row.(attempt := m.row.attempt + 1), telegram, replies, fuel, maxAttempts,
                   Drive(Step(m, Begin(telegram, seen), maxAttempts), replies, fuel, maxAttempts).row)
  {
    hide Drive, Leaves;
    StepKeepsProgress(m, Begin(telegram, seen), maxAttempts);
    DriveLeaves(Step(m, Begin(telegram, seen), maxAttempts), replies, fuel, maxAttempts);
  }

  /** One awaited call, answered while the worker lives: the reply is recorded as delivered exactly if it
  has no error and a code from 200 to 299. Otherwise the run ends there, failed or dead-lettered, and
  both channels stand as committed before. */
  lemma ReplyDecides(m: Machine, replies: seq<Reply>, fuel: nat, maxAttempts: int)
    requires ProgressOk(m) && m.run.Some? && (m.run.value.phase.AwaitWebhook? || m.run.value.phase.AwaitMessage?)
    requires replies != [] && fuel >= 2
    ensures var reply, phase := replies[0], m.run.value.phase;
            var row := Drive(m, replies, fuel, maxAttempts).row;
            var good := reply.error == None && reply.code.Some? && 200 <= reply.code.value <= 299;
            && (if phase.AwaitWebhook? then row.webhookDelivered else phase.item in row.telegramSent) == good
            && (!good ==>
                  && row.status == (if m.run.value.mem.attempt >= maxAttempts then DeadLetter else Failed)
                  && row.statusCode == reply.code
                  && row.webhookDelivered == m.row.webhookDelivered && row.telegramSent == m.row.telegramSent)
  {
    var mem, telegram, phase := m.run.value.mem, m.run.value.telegram, m.run.value.phase;
    AwaitedIsDue(m);
    DriveLeaves(m, replies, fuel, maxAttempts);
    hide Drive;
    var n := OnRecord(mem, telegram, replies, fuel);
    if GoodReplies(replies) > 0 {
      assert n > 0 && WithCalls(mem, replies, n).webhookDelivered;
      if phase.AwaitMessage? {
        var sent := |mem.telegramSent| + n;
        assert mem.itemIds[..sent][|mem.telegramSent|] == phase.item;
      }
    }
  }

  /** A worker holding these values, at this point of its run. */
  function Working(row: Log, log: Log, telegram: bool, seen: Option<Time>, phase: Phase, tally: Tally): Machine {
    Machine(row, Some(Run(log, telegram, seen, phase)), tally)
  }

  function Died(row: Log, tally: Tally): Machine {
    Machine(row, None, tally.(crashes := tally.crashes + 1))
  }

  lemma DriveDies(m: Machine, replies: seq<Reply>, fuel: nat, maxAttempts: int)
    requires m.run.Some?
    requires fuel == 0 || (CanStep(m, Answer(Reply(None, None))) && replies == [])
    ensures Drive(m, replies, fuel, maxAttempts) == Died(m.row, m.tally)
  {
  }

  lemma DriveHears(m: Machine, replies: seq<Reply>, fuel: nat, maxAttempts: int)
    requires fuel > 0 && replies != [] && CanStep(m, Answer(replies[0]))
    ensures var m' := Step(m, Answer(replies[0]), maxAttempts);
            Drive(m, replies, fuel, maxAttempts) ==
              if Accepted(replies[0]) then Drive(m', replies[1..], fuel - 1, maxAttempts) else m'
  {
  }

  lemma DriveCommits(m: Machine, replies: seq<Reply>, fuel: nat, maxAttempts: int)
    requires fuel > 0 && CanStep(m, Commit)
    ensures Drive(m, replies, fuel, maxAttempts) == Drive(Step(m, Commit, maxAttempts), replies, fuel - 1, maxAttempts)
  {
  }

  lemma DriveFinishes(m: Machine, replies: seq<Reply>, fuel: nat, maxAttempts: int)
    requires fuel > 0 && CanStep(m, Finish)
    ensures Drive(m, replies, fuel, maxAttempts) == Step(m, Finish, maxAttempts)
  {
  }

  /** The webhook's part of deliver_batch. `row` is what the database holds and changes only at a
  commit; `log` is the worker's copy. The worker dies when `fuel` steps are used up or an awaited
  reply never comes; `end` is then, or on a refusal, where the run ends. */
  method PostWebhook(row: Log, log: Log, telegram: bool, seen: Option<Time>, tally: Tally,
                     replies: seq<Reply>, fuel: nat, maxAttempts: int)
    returns (end: Option<Machine>, log': Log, tally': Tally, left: nat)
    ensures end.None? <==> fuel >= 2 && replies != [] && replies[0].error == None
                           && replies[0].code.Some? && 200 <= replies[0].code.value <= 299
    ensures end.None? ==> log' == log.(webhookDelivered := true, statusCode := replies[0].code, error := None)
    ensures end.Some? ==> end.value.run.None?
    ensures end.Some? && fuel > 0 && replies != [] && end.value.row != row ==>
              && end.value.row.status == (if log.attempt >= maxAttempts then DeadLetter else Failed)
              && end.value.row.webhookDelivered == log.webhookDelivered
              && end.value.row.telegramSent == log.telegramSent
    ensures var result := Drive(Working(row, log, telegram, seen, AwaitWebhook, tally), replies, fuel, maxAttempts);
            if end.Some? then end.value == result
            else replies != [] && log'.itemIds == log.itemIds
                 && result == Drive(Working(log', log', telegram, seen, Onward(log', telegram), tally'),
                                    replies[1..], left, maxAttempts)
  {
    var m := Working(row, log, telegram, seen, AwaitWebhook, tally);
    end, log', tally', left := None, log, tally, fuel;
    if fuel == 0 || replies == [] {
      DriveDies(m, replies, fuel, maxAttempts);
      end := Some(Died(row, tally));
      return;
    }
    var reply := replies[0];
    DriveHears(m, replies, fuel, maxAttempts);
    left := left - 1;
    if !Accepted(reply) {
      log' := RecordFailure(log, Webhook, reply, maxAttempts);
      assert log' == Refused(log, Webhook, reply, maxAttempts);
      end := Some(Machine(log', None, tally.(ended := tally.ended + 1)));
      return;
    }
    tally' := tally.(hooks := tally.hooks + 1);
    log' := log.(webhookDelivered := true, statusCode := reply.code, error := None);
    var saving := Working(row, log', telegram, seen, SaveWebhook, tally');
    assert saving == Step(m, Answer(reply), maxAttempts);
    if left == 0 {
      DriveDies(saving, replies[1..], left, maxAttempts);
      end := Some(Died(row, tally'));
      return;
    }
    DriveCommits(saving, replies[1..], left, maxAttempts);
    left := left - 1;
  }

  /** One item's part of the Telegram loop. */
  method PostMessage(row: Log, log: Log, i: Id, seen: Option<Time>, tally: Tally,
                     replies: seq<Reply>, fuel: nat, maxAttempts: int)
    returns (end: Option<Machine>, log': Log, tally': Tally, left: nat)
    ensures end.None? <==> fuel >= 2 && replies != [] && replies[0].error == None
                           && replies[0].code.Some? && 200 <= replies[0].code.value <= 299
    ensures end.None? ==>
              log' == log.(telegramSent := log.telegramSent + [i], statusCode := replies[0].code, error := None)
    ensures end.Some? ==> end.value.run.None?
    ensures end.Some? && fuel > 0 && replies != [] && end.value.row != row ==>
              && end.value.row.status == (if log.attempt >= maxAttempts then DeadLetter else Failed)
              && end.value.row.webhookDelivered == log.webhookDelivered
              && end.value.row.telegramSent == log.telegramSent
    ensures var result := Drive(Working(row, log, true, seen, AwaitMessage(i), tally), replies, fuel, maxAttempts);
            if end.Some? then end.value == result
            else replies != [] && log'.itemIds == log.itemIds && log'.telegramSent == log.telegramSent + [i]
                 && result == Drive(Working(log', log', true, seen, Onward(log', true), tally'),
                                    replies[1..], left, maxAttempts)
  {
    var m := Working(row, log, true, seen, AwaitMessage(i), tally);
    end, log', tally', left := None, log, tally, fuel;
    if fuel == 0 || replies == [] {
      DriveDies(m, replies, fuel, maxAttempts);
      end := Some(Died(row, tally));
      return;
    }
    var reply := replies[0];
    DriveHears(m, replies, fuel, maxAttempts);
    left := left - 1;
    if !Accepted(reply) {
      log' := RecordFailure(log, Telegram, reply, maxAttempts);
      assert log' == Refused(log, Telegram, reply, maxAttempts);
      end := Some(Machine(log', None, tally.(ended := tally.ended + 1)));
      return;
    }
    tally' := tally.(messages := tally.messages[i := Sent(tally, i) + 1]);
    log' := log.(telegramSent := log.telegramSent + [i], statusCode := reply.code, error := None);
    var saving := Working(row, log', true, seen, SaveMessage(i), tally');
    assert saving == Step(m, Answer(reply), maxAttempts);
    if left == 0 {
      DriveDies(saving, replies[1..], left, maxAttempts);
      end := Some(Died(row, tally'));
      return;
    }
    DriveCommits(saving, replies[1..], left, maxAttempts);
    left := left - 1;
  }

  /** The body of deliver_batch once the log, the market and the items are loaded: count the attempt,
  post the webhook unless it is recorded, post every unsent item in order, and record the success. */
  method Deliver(before: Machine, telegram: bool, seen: Option<Time>, replies: seq<Reply>, fuel: nat, maxAttempts: int)
    returns (after: Machine)
    requires before.run.None? && before.row.status != Success
    ensures after == Drive(Step(before, Begin(telegram, seen), maxAttempts), replies, fuel, maxAttempts)
    ensures ProgressOk(before) ==>
              Leaves(before.row, before.row.(attempt := before.row.attempt + 1), telegram, replies, fuel, maxAttempts,
                     after.row)
  {
    hide Leaves, ProgressOk, Drive;
    if ProgressOk(before) {
      RunLeaves(before, telegram, seen, replies, fuel, maxAttempts);
    }
    ghost var goal := Drive(Step(before, Begin(telegram, seen), maxAttempts), replies, fuel, maxAttempts);
    var row := before.row;
    var tally := before.tally.(revived := before.tally.revived + (if row.status == DeadLetter then 1 else 0),
                               skippedTelegram := before.tally.skippedTelegram || !telegram);
    var log := row.(attempt := row.attempt + 1);
    var rest, left := replies, fuel;
    var end: Option<Machine>;

    if !log.webhookDelivered {
      end, log, tally, left := PostWebhook(row, log, telegram, seen, tally, rest, left, maxAttempts);
      if end.Some? {
        return end.value;
      }
      row, rest := log, rest[1..];
    }
    if telegram {
      for n := 0 to |log.itemIds|
        invariant log.itemIds == before.row.itemIds
        invariant forall j :: 0 <= j < n ==> log.itemIds[j] in log.telegramSent
        invariant goal == Drive(Working(row, log, true, seen, Onward(log, true), tally), rest, left, maxAttempts)
      {
        var i := log.itemIds[n];
        if i in log.telegramSent {
          continue;
        }
        FirstUnsentAt(log.itemIds, log.telegramSent, n);
        end, log, tally, left := PostMessage(row, log, i, seen, tally, rest, left, maxAttempts);
        if end.Some? {
          return end.value;
        }
        row, rest := log, rest[1..];
      }
      assert FirstUnsent(log.itemIds, log.telegramSent).None?;
    }
    if left == 0 {
      DriveDies(Working(row, log, telegram, seen, Closing, tally), rest, left, maxAttempts);
      return Died(row, tally);
    }
    DriveFinishes(Working(row, log, telegram, seen, Closing, tally), rest, left, maxAttempts);
    log := log.(status := Success, error := None);
    after := Machine(log, None, tally.(ended := tally.ended + 1));
  }

  /** record_failure: the log is dead-lettered from the last allowed attempt on and failed before it,
  with the reply on record, and nothing a later run resumes from has moved. */
  method RecordFailure(log: Log, channel: Channel, reply: Reply, maxAttempts: int) returns (row: Log)
    ensures row.status in {DeadLetter, Failed} && (row.status == DeadLetter <==> log.attempt >= maxAttempts)
    ensures row.statusCode == reply.code && row.error == Some(Failure(channel, reply))
    ensures Identical(row, log) && row.attempt == log.attempt
    ensures row.webhookDelivered == log.webhookDelivered && row.telegramSent == log.telegramSent
  {
    row := log.(statusCode := reply.code, error := Some(Failure(channel, reply)));
    if log.attempt >= maxAttempts {
      row := row.(status := DeadLetter);
    } else {
      row := row.(status := Failed);
    }
  }
}
