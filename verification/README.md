# Market news worker: model and proofs

A Dafny model of the worker of the market news service: the poll cycle that opens a news batch and
fans out candidate jobs, the ledger that decides when a batch is complete, the single sorted
delivery a batch becomes, the two-channel delivery job with its retries and dead letters, the sweeps
that recover what was lost, and the pure parts around them (title fingerprints, duplicate checks,
canonical URLs, quote verification, message formatting, adaptive scheduling).

Check everything with `dafny verify dfyconfig.toml`.

## How the model is built

* `Records.dfy` holds the table rows. `Protocol.dfy` holds the whole shared state, one event per
  committed transaction, queue operation or worker death, what each event requires of its environment
  (`Enabled`), and runs: any interleaving of enabled events from a fresh deployment (`Initial`, `Run`,
  `After`). The advisory lock per market, held to commit, makes the transactions of
  `app/worker/batching.py` atomic, so an event changes the tables in one go; between two commits of the
  same job anything may happen, including its death.
* `Delivery.dfy` is the delivery of one log in smaller steps: the start of a run, each reply heard, each
  commit, the end, and a crash between any two of them. A tally beside the row counts accepted calls,
  crashes, ended runs and runs begun on a dead-lettered row.
* `Invariants.dfy`, `Safety.dfy` prove what every event keeps; `Guarantees.dfy`, `Separation.dfy` and
  `Watermark.dfy` draw the promises from it, over whole runs. `Losses.dfy` has runs from a fresh deployment
  in which the obvious promise fails.
* `Worker.dfy` is the imperative code: a class `Database` whose fields are the tables and queues, one
  method per function of the source, each proved to make exactly the events of the protocol. So what is
  proved of runs holds after any of these calls. `Delivery.Deliver` is the body of `deliver_batch`, with
  its loop over items.
* The remaining modules follow one source file each; imperative code is a method proved against a
  function, and the properties are lemmas about that function.

Times are microseconds. What lies outside is an input: the replies of the two channels and the point at
which a worker dies, the order in which a query returns rows, fresh ids, the clock, and the findings of
search, scraping, extraction and embedding.

## Where the code does not do what it says

* `resolve_batch_candidate` promises no window in which an item exists but is not accounted for
  (`app/worker/batching.py:77-83`). There are two: the late path commits twice, and the path for a slot
  resolved before commits an item the caller has staged. `Guarantees.Conservation` proves that an item is
  lost exactly in these two ways, `Losses.CrashLoses` and `Losses.RerunLoses` give a run for each.
* The watermark is compared with the value read at the start of a delivery. Overlapping deliveries of one
  market can move it backwards (`Losses.OverlapLosesMaximum`); `Watermark.MaximumIff` and
  `Watermark.NeverBackIff` say exactly when it stays the maximum and when it never goes back.
* A dead-lettered delivery is terminal only because no sweep selects it; the job's own guard lets it run
  again (`Losses.DeadLetterRevives`). `Guarantees.UntouchedUntilBegun` and
  `Guarantees.DeadLetterUnlessFinished` say what becomes of it, and runs begun in this way are counted in
  the bound of `Delivery.AttemptsTerminate`.
* Tighter polling near the resolution date holds only for a default interval of a day or more
  (`Schedule.MonotoneIff`).
* `normalize_url` lowercases the whole authority, so user information in front of the host too, and it
  trims slashes of the path only if no query is left (`Url.SameCanonicalIff`).

## Model

| member | source | states |
|---|---|---|
| Delivery.StepKeepsMachine | app/worker/tasks.py:500-564 | every step of a delivery, a crash at any point included, keeps the invariant of row, worker memory and tally: prefix order, webhook first, calls and attempts bounded |
| Delivery.ChannelProgress | app/worker/tasks.py:516-550 | over every history of a log, the recorded Telegram list is a duplicate-free prefix of the delivery order and starts only after the webhook; a success has all of it unless Telegram was off; accepted calls per channel and item are at most 1 + crashes, and at least 1 for whatever is recorded |
| Delivery.AttemptsTerminate | app/worker/tasks.py:500-511 | without crashes a log is delivered or dead-lettered once as many runs ended as attempts are allowed; with crashes the attempt counter exceeds the limit by at most 1 + the number of items, plus runs begun on a dead-lettered row |
| Delivery.TerminalStatus | app/worker/tasks.py:455-456 | one step: a delivered row starts no run, and a dead-lettered one changes status only by finishing |
| Delivery.DeadLetterUnlessFinished | app/worker/tasks.py:455-511 | over every history, however often a dead-lettered row is run again, it ends delivered if some run finishes and dead-lettered otherwise |
| Delivery.DriveIsHistory | app/worker/tasks.py:500-564 | one whole run, whatever replies come and whenever it dies, is a history of single steps and leaves the row without a worker |
| Delivery.DriveKeepsItems | app/worker/tasks.py:500-564 | a run never changes the items a log lists nor its key |
| Delivery.DriveDelivers | app/worker/tasks.py:516-564 | if every reply is a 2xx and there are enough of them, the run ends in success, with the full Telegram list when Telegram is on |
| Delivery.PostWebhook | app/worker/tasks.py:516-527 | the webhook counts as delivered exactly if the worker lives to commit a reply without an error and with a code from 200 to 299; a refusal ends the run failed or dead-lettered with both channels as they were; in each case the run is where the step machine is |
| Delivery.PostMessage | app/worker/tasks.py:533-550 | likewise for one turn of the Telegram loop, where a recorded reply appends exactly this item |
| Delivery.Deliver | app/worker/tasks.py:500-564 | the body of deliver_batch, loop included, leaves the row the replies prescribe, and does exactly what the step machine does |
| Delivery.ReplyDecides | app/worker/tasks.py:516-550 | an awaited reply is recorded as delivered if and only if it has no error and a code from 200 to 299; otherwise the run ends failed, or dead-lettered with the attempts used up, and both channels stand as committed before |
| Delivery.RunLeaves | app/worker/tasks.py:500-564 | the whole row a run leaves, in terms of the leading good replies and the time the worker has: which calls are on record, status, code, error and attempt |
| Delivery.RecordFailure | app/worker/tasks.py:502-511 | a refused log is dead-lettered if and only if its attempts are used up, failed otherwise, with channel and reply on record; items, key, attempt and channel progress are untouched |
| Delivery.RefusalResumes | app/worker/tasks.py:502-551 | a refusal loses no committed progress: the next run begins with the very call that was refused |
| DeliveryOrder.MayPrecedeIsTotalPreorder | app/worker/batching.py:46 | the sort key orders any two items, transitively |
| DeliveryOrder.OrderedMeans | app/worker/batching.py:46 | in an ordered listing nothing dated follows anything undated, dates never increase, and equal dates are in decreasing discovery order |
| DeliveryOrder.List | app/worker/batching.py:42-48 | the rows of the batch in any order become a listing of exactly these items, each once, in delivery order |
| DeliveryOrder.Reassemble | app/worker/tasks.py:473-478 | rows fetched in any order come back in the log's own order, without the ids that have no row |
| DeliveryOrder.PresentMeans | app/worker/tasks.py:478 | only missing ids are left out, nothing is added, and with none missing the list is the log's |
| Invariants.SettleKeepsDb | app/worker/batching.py:84-135 | resolving a slot, in each of its five outcomes, keeps the invariant of the tables |
| Invariants.CloseKeepsLogs | app/worker/batching.py:41-54 | the close adds at most one log under an unused key, listing only items no other log lists, and afterwards listed are exactly those listed before and the items of the batch |
| Invariants.ForceCloseKeepsDb | app/worker/batching.py:143-157 | so does closing by the sweep |
| Invariants.SoloKeepsDb | app/worker/batching.py:57-66 | so does a solo delivery of an item nothing lists |
| Invariants.WithItemKeepsDb | app/worker/tasks.py:408-429 | so does inserting an item, which no log lists then |
| Invariants.OpenBatchKeepsDb | app/worker/tasks.py:190-197 | so does opening a batch |
| Invariants.WorkKeepsDb | app/worker/tasks.py:500-564 | so does every step of a delivery |
| Safety.InitialInv | app/db/models.py:93-213 | a fresh deployment meets the invariant |
| Safety.ApplyKeepsInv | app/worker/tasks.py:187-436 | every event of the protocol keeps the whole invariant of tables and queue |
| Safety.RunKeepsInv | app/worker/tasks.py:187-436 | so does every run, in any interleaving and with crashes anywhere |
| Safety.ApplyKeepsAccounted | app/worker/tasks.py:211-244 | every slot of every batch stays undispatched, queued with that batch, resolved in the ledger, or given up by its job |
| Guarantees.ClosedForGood | app/worker/batching.py:106-117 | a closed batch never reopens and its counter never moves |
| Guarantees.UniqueIdempotencyKey | app/worker/batching.py:51-66 | two different logs never share the batch id sent to the subscriber; a log with a batch's id belongs to that closed batch, any other log lists one item |
| Guarantees.CloseDelivers | app/worker/batching.py:106-157 | the one transaction that closes a batch inserts one log listing exactly the items of the batch at that moment in delivery order, or none if it has no items, and touches no other log |
| Guarantees.CounterAgreesWithLedger | app/worker/batching.py:86-117 | in every reachable state of an open batch the counter is the number of ledger rows and below what is expected; of a closed one, counter at most rows at most expected |
| Guarantees.CloseAtParity | app/worker/batching.py:106-117 | a close that is no sweep is at exactly the expected count, a close by the sweep below it |
| Guarantees.ClosedShortIffSwept | app/worker/batching.py:138-157 | over every run, a closed batch lacks resolutions if and only if a sweep found it open |
| Guarantees.OpenOnlyIfAwaited | app/worker/tasks.py:211-244 | in every reachable state an open batch has an unresolved slot that is still to be handed over, has a live job with that batch, or was given up by its job: if all jobs end normally it closes without the sweep |
| Guarantees.ResolutionCounts | app/worker/tasks.py:265-279 | a job ending with an outcome for an unresolved slot of an open batch lowers expected - resolved by one, and closes the batch exactly at zero |
| Guarantees.EventLedger | app/worker/batching.py:86-104 | an event adds to the ledger at most the row of a slot not in it, with exactly the outcome and item reported, and changes no row |
| Guarantees.LedgerIsFirstReport | app/worker/batching.py:86-104 | over every run a ledger row never changes, and a new one holds the outcome and item of the first event that resolved its slot |
| Guarantees.ItemPlaces | app/worker/batching.py:84-135 | in every reachable state an item is in at most one of: waiting under its open batch, held by a straggler, listed once by exactly one log |
| Guarantees.OrphanStep | app/worker/batching.py:84-135 | an event orphans an item if and only if it is one of the two losing events for it, and no event brings an orphan back |
| Guarantees.Conservation | app/worker/batching.py:84-135 | over every run, an item ends up in none of these places if and only if a straggler died between its two commits or a re-run stored it for a slot already resolved in a closed batch |
| Guarantees.DeliveryBounds | app/worker/tasks.py:500-564 | channel progress, call bounds, attempt bound and termination hold of every log in every reachable state of the interleaved protocol |
| Guarantees.UntouchedUntilBegun | app/worker/tasks.py:455-467 | over every run, a log without a worker stays exactly as it is until the next delivery begins on it, and a delivered one for good |
| Guarantees.DeadLetterUnlessFinished | app/worker/tasks.py:455-511 | over every run of the protocol, a dead-lettered log ends delivered if and only if a delivery begun on it finishes, and dead-lettered otherwise |
| Losses.CrashLoses | app/worker/batching.py:119-127 | a run of five events in which a crash between the two commits leaves a stored item that no log lists |
| Losses.RerunLoses | app/worker/batching.py:99-104 | a run of four events, no pair of commits interrupted, in which a repeated job does |
| Losses.OverlapLosesMaximum | app/worker/tasks.py:458-564 | a run of ten events from a fresh deployment, two deliveries of one market overlapping, that ends with the watermark at 50 and a date of 100 delivered |
| Losses.DeadLetterRevives | app/worker/tasks.py:455-511 | a run from a fresh deployment in which a log is dead-lettered, and a longer one in which it is delivered |
| Watermark.EventKeepsMaximumIff | app/worker/tasks.py:552-564 | an event keeps the watermark the maximum of the delivered dates if and only if it is not a finish whose newest date differs from the watermark and compares differently with the one read at the start |
| Watermark.MaximumIff | app/worker/tasks.py:557-564 | over every run from a fresh deployment, the watermark is in every state the maximum publication date over all items of delivered logs, and null if there is none, if and only if no delivery of the market finishes with such a misjudgement |
| Watermark.NeverBackIff | app/worker/tasks.py:557-564 | over every run, no step lowers the watermark if and only if no delivery finishes whose newest date beats the watermark it had read and is older than the one that stands |
| Watermark.DeliveredFlags | app/worker/tasks.py:555-556 | over every run, an item is flagged delivered if and only if a log in success lists it |
| Watermark.WatermarkIsMaximum | app/worker/tasks.py:557-564 | in particular the watermark is that maximum at the end of every run without overlapping deliveries of a market |
| Watermark.WatermarkNeverDecreases | app/worker/tasks.py:557-564 | and between any two states of such a run it has not decreased |
| Dedup.UrlStored | app/worker/tasks.py:369-376 | the scan finds a URL if and only if an item of the market has it |
| Dedup.TitleStored | app/worker/tasks.py:381-385 | the scan finds a title if and only if a fingerprinted item of the market is within the threshold, read back from signed storage |
| Dedup.FindSimilar | app/dedup/vector_dedup.py:9-24 | the nearest neighbour test answers None if and only if no item of the market reaches the threshold, otherwise with a nearest one that does |
| Dedup.InsertKeepsSeparated | app/worker/tasks.py:351-436 | inserting an item that passed the checks keeps all pairs of a market apart |
| Separation.PairwiseSeparation | app/worker/tasks.py:351-436 | in every reachable state two items of a market differ in URL, in title by more than the threshold, and in meaning below the threshold; so the unique constraint on URLs is never violated |
| Worker.Database.FinalizeBatchDelivery | app/worker/batching.py:41-54 | inserts one log, pending and with nothing sent, listing in order exactly the items of this batch and market, or nothing if there are none |
| Worker.Database.CreateSoloDelivery | app/worker/batching.py:57-66 | inserts one log, pending and with nothing sent, of this one item under a key no batch and no log has |
| Worker.Database.ResolveBatchCandidate | app/worker/batching.py:69-135 | a new slot gets a ledger row with exactly this outcome and item, a known one leaves the ledger alone; only a new slot of an open batch counts, and closes it at the expected count; the rest is exactly the protocol's transactions, and a log id is returned exactly if one was created |
| Worker.Database.ForceCloseBatch | app/worker/batching.py:138-157 | makes exactly the protocol's forced close, nothing on a closed batch, and returns a log id exactly if it created one |
| Worker.Database.EnqueueStuckBatches | app/worker/scheduler.py:98-125 | closes exactly the batches of active markets created at least thirty minutes ago, changes nothing else of any batch, and queues exactly the deliveries this creates |
| Worker.Database.EnqueueStuckDeliveries | app/worker/scheduler.py:65-94 | queues exactly the pending and failed logs of active markets created at least five minutes ago |
| Worker.UnfinishedIsRetried | app/worker/scheduler.py:76-94 | a delivery with attempts left that did not succeed leaves a log that the sweep selects from its fifth minute on while its market is active |
| Worker.Database.DispatchOne | app/worker/tasks.py:211-244 | queues the candidate's job with this batch, or, when the id is taken, resolves the slot as collided |
| Worker.Database.FanOut | app/worker/tasks.py:211-244 | hands over each selected candidate once, in order; afterwards each has its job or its ledger row |
| Worker.Database.ProcessMarket | app/worker/tasks.py:134-244 | with the market as read at entry, opens one batch for the best of the eligible candidates if there are any and it was active then; the batch expects as many resolutions as it has possible ledger keys, which is the number of candidates; none is left undispatched, and the whole is a run of the protocol; otherwise changes nothing |
| Worker.Database.Check | app/worker/tasks.py:281-396 | the checks in their order give the outcome the duplicate-free store prescribes |
| Worker.VerdictTable | app/worker/tasks.py:281-396 | each outcome in its own terms: which failures come before which, and stored if and only if the article could be read, judged and embedded for an active market and no item of that market has its URL, a title within the threshold or a similar enough embedding |
| Worker.Database.Resolve | app/worker/tasks.py:265-279 | settles the slot of the job's batch, or delivers alone for a job without batch, and queues every log this creates |
| Worker.Database.ProcessCandidate | app/worker/tasks.py:248-438 | on every path the job ends with the outcome prescribed and one resolution, as a run of the protocol; stored means one new item with the reported URL, fingerprint, embedding and the source's date or else the page's, and any other outcome stores nothing |
| Worker.StorePassesChecks | app/worker/tasks.py:351-396 | what the checks established is the guard of the insert |
| Worker.DeliveredIsRun | app/worker/tasks.py:442-564 | a delivery from start to end is a run of the protocol that works on this log only |
| Worker.Database.DeliverBatch | app/worker/tasks.py:442-564 | only an undelivered log of an active market is worked on, and ends as the replies prescribe; unless delivered, no item and no market changes; the payload carries the items in the log's order |
| Worker.DeliveredMeans | app/worker/tasks.py:442-564 | if delivered, exactly its items are flagged and the watermark becomes the latest of the one before and their dates |
| Worker.Database.LoadItems | app/worker/tasks.py:473-478 | the payload has the stored row of every listed item in the order of the log |
| Worker.Database.RecordSuccess | app/worker/tasks.py:552-564 | flags exactly the delivered items and advances the watermark against the value read at the start |
| Worker.LatestDate | app/worker/tasks.py:559 | the running maximum over dated items is the latest date, None if no item is dated |
| Bits.DistanceIsDifferences | app/dedup/simhash.py:33-34 | counting ones in the written-out XOR counts the bit positions that differ |
| Bits.DistanceIsMetric | app/dedup/simhash.py:33-34 | the Hamming distance is a metric, triangle inequality included |
| Simhash.Simhash | app/dedup/simhash.py:15-30 | the vote and collect loops set bit i if and only if a strict majority of the tokens has it, and no bit beyond the width |
| Simhash.Pinned | app/dedup/simhash.py:15-30 | the majority rule determines the fingerprint |
| Simhash.OrderIrrelevant | app/dedup/simhash.py:20-30 | the fingerprint depends only on the bag of tokens |
| Simhash.RepetitionIrrelevant | app/dedup/simhash.py:20-30 | repeating the whole token list changes nothing |
| Simhash.OneMoreTokenFlips | app/dedup/simhash.py:21-29 | one more token flips a bit if and only if the vote was tied and the token has it, or was won by one and the token lacks it |
| Simhash.OneMoreToken | app/dedup/simhash.py:21-29 | so the distance it moves the fingerprint is at most the number of close votes |
| Simhash.SignedStorage | app/dedup/simhash.py:37-49 | 64-bit fingerprints fit int8 storage, come back unchanged, stay distinct, and keep their distances |
| Simhash.StoredValueRoundTrip | app/dedup/simhash.py:44-49 | every int8 value comes from one fingerprint |
| Simhash.LockKeys | app/worker/batching.py:33-38 | the lock key fits int8, and two markets share it if and only if the low halves of their ids agree |
| Url.SplitUnsplit | app/search/aggregator.py:47-57 | taking a URL apart undoes putting it together, with or without a host, up to the case of the scheme |
| Url.FormRoundTrip | app/search/aggregator.py:49-55 | parsing an encoded query gives back its pairs, whatever bytes names and values hold |
| Url.DecodeQuotePlus | app/search/aggregator.py:55 | percent and plus decoding undoes the encoding of any text |
| Url.SortPairsSorts | app/search/aggregator.py:49 | the sorted pairs are ascending and the same bag |
| Url.AscendingUnique | app/search/aggregator.py:49 | a bag of pairs has one ascending listing |
| Url.SortedByName | app/search/aggregator.py:49 | the pairs come in the byte order of their names, and those of one name in that of their values |
| Url.NormalizeIsCanonical | app/search/aggregator.py:47-57 | for every URL the final trim of slashes touches at most the path, and only if no query is left, or an empty authority with nothing after it |
| Url.CanonicalReadsBack | app/search/aggregator.py:47-57 | the canonical URL reads back as the canonical parts and holds exactly the pairs that count |
| Url.Idempotent | app/search/aggregator.py:47-57 | normalising twice is normalising once, for every URL |
| Url.SameCanonicalIff | app/search/aggregator.py:47-57 | two URLs have one canonical form if and only if scheme and authority agree up to case, the bags of non-blank non-tracking pairs agree, and the paths do, up to trailing slashes if there are no pairs |
| Url.Invariance | app/search/aggregator.py:47-57 | changing case of scheme and host (section 6.2.2.1 of RFC 3986), the fragment, the order of query fields, or adding and removing blank fields and tracking parameters leaves the canonical form alone |
| Url.WrittenOut | app/search/aggregator.py:47-57 | the canonical text of a URL with scheme and host, piece by piece |
| Url.KeptByName | app/search/aggregator.py:13-49 | a pair is dropped if and only if its name is, in any case, one of the eight tracking parameters |
| Url.FieldReads | app/search/aggregator.py:49 | a field is split at its first equals sign, and counts for nothing without one or with nothing after it |
| Url.EncodingInNumbers | app/search/aggregator.py:55 | which bytes stand for themselves, which is a plus and which are escaped; digits of either case read back |
| Url.TrackingIsSilent | app/search/aggregator.py:13-49 | a tracking parameter is recognised by its decoded name in any case |
| Pipeline.Merge | app/search/aggregator.py:74-89 | the merge loop keeps the first occurrence of each hash over all sources that answered |
| Pipeline.MergeKeepsFirsts | app/search/aggregator.py:74-89 | hashes are pairwise distinct, every URL found is covered, and each kept result is the first with its hash |
| Pipeline.FilterByRecency | app/worker/tasks.py:36-48 | the loop keeps what the cutoff at this age keeps, everything if disabled |
| Pipeline.FilterOlderThanWatermark | app/worker/tasks.py:51-67 | the loop keeps what the watermark as cutoff keeps, everything if there is none |
| Pipeline.FilterKeeps | app/worker/tasks.py:44-48 | kept are exactly the undated and those at or after the cutoff |
| Pipeline.FiltersCompose | app/worker/tasks.py:155-161 | both filters commute and equal one at the later cutoff |
| Pipeline.Select | app/worker/tasks.py:139-167 | with a limit the selection is the best of the eligible candidates: descending in similarity, none below the threshold, no more than allowed, and whatever is left out is below the threshold or beaten by a full list; without one it is all of them in the order they came |
| Pipeline.SelectedIsGood | app/worker/tasks.py:139-167 | eligible are exactly the first hits of their hash that are not stored, not too old and not older than the watermark, undated ones included |
| Pipeline.SortKeeps | app/llm/prefilter.py:41-49 | the ranking is a descending permutation |
| Pipeline.SortIsStable | app/llm/prefilter.py:41-49 | equal scores keep the order of the search results |
| Pipeline.TopKKept | app/llm/prefilter.py:37-50 | the selection is descending, reaches the threshold, and is as long as allowed and available |
| Pipeline.TopKBeatsDropped | app/llm/prefilter.py:37-50 | nothing dropped that reaches the threshold beats anything kept |
| Pipeline.SlotsDistinct | app/worker/tasks.py:142-193 | the selection of a cycle repeats no hash, so it has as many ledger keys as candidates; all of it is unstored, recent and not older than the watermark |
| Pipeline.SelectedNotOlder | app/worker/tasks.py:158-161 | in every state of a run in which no delivery of the market misjudged, what a cycle selects is not stored and, if dated, no older than anything delivered |
| Proofs.VerifyProofs | app/llm/extraction.py:78-90 | the loop keeps the quotes the specification keeps, in order |
| Proofs.KeptInOrder | app/llm/extraction.py:85-90 | quotes are checked one by one and kept in the order they came |
| Proofs.SliceOccurs | app/llm/extraction.py:84-88 | every slice of a text, cutting words or not, occurs in it after normalisation |
| Proofs.CasefoldMeans | app/llm/extraction.py:84-88 | case folding replaces each character by its own folding |
| Proofs.GenuineQuoteSurvives | app/llm/extraction.py:78-90 | a quote with the words of any non-blank slice of the article, whatever its spacing and case, is kept |
| Proofs.NothingHallucinated | app/llm/extraction.py:78-90 | whatever is returned is a submitted quote, stripped and not blank, whose normal form is one contiguous piece of the normalised article |
| TelegramMessage.ShortenKeepsLimitIff | app/delivery/telegram.py:6-10 | shortening keeps the limit if and only if the limit is at least 3 or there is nothing to cut |
| TelegramMessage.ShortenMeans | app/delivery/telegram.py:6-10 | what is shown is the trimmed value, or the longest start of it that fits before the mark, without trailing space |
| TelegramMessage.Fixed2Means | app/delivery/telegram.py:24-25 | a score is shown with two decimals, off by at most half of the last one |
| TelegramMessage.MessageLines | app/delivery/telegram.py:29-36 | the message line by line: which field stands where, with its fallback and its limit |
| TelegramMessage.FitsIff | app/delivery/telegram.py:34-37 | the final slice removes nothing if and only if the fixed parts fit and the summary can be cut to the rest or fits as it is |
| TelegramMessage.MessageComplete | app/delivery/telegram.py:13-37 | with scores of at most 1668 characters, whatever the other fields, the message is within the limit before the slice and ends with the complete shortened URL |
| TelegramMessage.StoredNewsComplete | app/delivery/telegram.py:13-37 | in particular for numeric scores between 0 and 1 |
| TelegramMessage.LongScoresCut | app/delivery/telegram.py:24-37 | a score handed over as text of 4096 characters or more pushes the message over the limit, and the slice takes the whole URL |
| Schedule.ChooseStep | app/worker/tasks.py:92-105 | hourly within a day of the resolution or past it, every six hours within a week, daily within thirty days, otherwise and without a date the default interval, in microseconds |
| Schedule.MovesForwardIff | app/worker/tasks.py:92-109 | unjittered, the next poll lies ahead if and only if a tier applies or the default interval is positive |
| Schedule.MonotoneIff | app/worker/tasks.py:73-105 | the step is monotone in the time remaining if and only if the default interval is at least a day |
| Schedule.Spacing | app/worker/tasks.py:107-109 | a poll schedules the next at least (1 - jitter) times an hour, or a shorter default, ahead, up to half a microsecond |
| Schedule.ChainSpacing | app/worker/tasks.py:178-209 | runs j steps apart in a self-scheduling chain are at least j gaps apart |
| Schedule.BoundedRuns | app/worker/tasks.py:178-209 | a window holds at most its length over the gap, plus one, runs of a chain |
| Schedule.JobIdInjective | app/worker/job_ids.py:4-20 | job ids agree if and only if market and time do |
| Schedule.FreshIds | app/worker/job_ids.py:4-20 | no job id of a chain repeats, that of the first run included, so a run never meets its own live id |

## Left out

- Url.Split: splitting and joining are those of Python 3.12 from 3.12.4 on, the version the image is built from; earlier ones join URLs without a host differently. It works on UTF-8 bytes; removal of tabs, line breaks and leading control characters, the errors raised for unbalanced brackets or confusable hosts, replacement of byte sequences that are not UTF-8, and lowercasing of non-ASCII letters are not modelled.
- Schedule.Spacing: the product of a timedelta and a float is a real number rounded to a microsecond, ties either way; the rounding inside a float is not modelled.
- TelegramMessage.StoredNewsComplete: two decimals are rounded half up where the source rounds a binary float, which never changes the length.
- Dedup.FindSimilar: the search is exact where an index may answer approximately, the distance is any symmetric function, and items without an embedding do not occur, as none are stored.
- Worker.Database.ProcessMarket: the answers of the search, the market row read at entry and the hashes read after the search are inputs. The poll dates and the run it schedules for itself are in `Schedule`, without a claim that a market has a single chain, since the overdue sweep builds its id from the current time (app/worker/scheduler.py:41-61).
- Worker.Database.DeliverBatch: works on a copy of the row and writes it back, as the session does at its commits; the row's `delivered_at` is not modelled, and the error text is a record of channel and reply. That the listed items exist, which it requires, is part of the invariant.
- Worker.Database.ProcessCandidate: scrape failure rows, credibility, summary and impact hint are not stored; a job that ends without a resolution is the event `Abandon`.
- Deletion of markets, which would delete their rows, is not modelled; a market only becomes inactive.
- The queue of delivery jobs has no events of its own: a delivery may begin at any time on a row that is not delivered, which covers every order of enqueues, lost jobs and repeated ones.
- MD5, SHA-256, the white space and case folding tables, the ISO form of a date and the similarity of a candidate are parameters, so what is proved holds for all of them.
- Tokenising titles and parsing publication dates: library calls whose results are inputs.
- HTTP, browser, language model and embedding clients, the API, migrations and settings.
- Credibility scores, query deduplication, retry of language model calls and the abort set: single branches without a protocol.
