/** The rows of the tables the worker shares, and the option type used for nullable columns. */
module Records {

  datatype Option<+T> = None | Some(value: T)

  /** UUID primary keys: only ever compared for equality. */
  type Id = nat

  /** SHA-256 digests of canonical URLs: only ever compared for equality. */
  type Hash = nat

  /** Instants in microseconds, the resolution of the stored timestamps. */
  type Time = int

  const MINUTE: Time := 60_000_000
  const HOUR: Time := 60 * MINUTE
  const DAY: Time := 24 * HOUR

  /** An embedding: only ever handed to the similarity measure. */
  type Vector = nat

  datatype Market = Market(active: bool, watermark: Option<Time>)

  datatype BatchStatus = Open | Closed

  datatype Batch = Batch(market: Id, expected: nat, resolved: nat, status: BatchStatus, createdAt: Time)

  /** How a candidate can end. */
  datatype Outcome =
    | MarketInactive | ScrapeFailed | ExtractionError | NotRelevant | EmbedError
    | DupUrl | DupTitle | DupSemantic | Stored | CollidedPriorCycle

  /** One row of the candidate ledger; its key is (batch, canonical URL hash). */
  datatype Resolution = Resolution(outcome: Outcome, item: Option<Id>)

  datatype Item = Item(
    market: Id,
    batch: Option<Id>,
    urlHash: Hash,
    title: Option<int>,       // title fingerprint as stored: a signed 64-bit value, or null
    vector: Vector,
    published: Option<Time>,
    discovered: Time,
    delivered: bool)

  datatype LogStatus = Pending | Success | Failed | DeadLetter

  datatype Channel = Webhook | Telegram

  /** What an HTTP sender reports: a status code, or an error, or both. */
  datatype Reply = Reply(code: Option<int>, error: Option<string>)

  /** The stored error text names the channel and quotes the reply. */
  datatype Failure = Failure(channel: Channel, reply: Reply)

  datatype Log = Log(
    market: Id,
    batchId: Id,
    itemIds: seq<Id>,
    createdAt: Time,
    attempt: nat,
    status: LogStatus,
    statusCode: Option<int>,
    error: Option<Failure>,
    webhookDelivered: bool,
    telegramSent: seq<Id>)

  /** A freshly inserted delivery row: every column but the given ones has its default. */
  function NewLog(market: Id, batchId: Id, itemIds: seq<Id>, now: Time): Log {
    Log(market, batchId, itemIds, now, 0, Pending, None, None, false, [])
  }

  ghost predicate Distinct<T>(s: seq<T>) {
    forall j, k :: 0 <= j < k < |s| ==> s[j] != s[k]
  }

  ghost function Elements<T>(s: seq<T>): set<T> {
    set x | x in s
  }

  /** A list without repetitions has as many elements as places. */
  lemma {:induction false} DistinctSize<T>(s: seq<T>)
    requires Distinct(s)
    ensures |Elements(s)| == |s|
  {
    if s == [] {
      assert Elements(s) == {};
    } else {
      var rest := s[1..];
      DistinctSize(rest);
      assert Elements(s) == {s[0]} + Elements(rest);
      assert s[0] !in rest;
    }
  }

  /** Two lists with the same elements: where the second has the first's head, and that the rest of
  both still have the same elements. */
  lemma FindFirst<T>(s: seq<T>, t: seq<T>) returns (k: nat)
    requires multiset(s) == multiset(t) && s != []
    ensures k < |t| && t[k] == s[0]
    ensures multiset(s[1..]) == multiset(t[..k] + t[k + 1..])
  {
    assert s[0] in multiset(t);
    k :| k < |t| && t[k] == s[0];
    assert t == t[..k] + [t[k]] + t[k + 1..];
    assert s == [s[0]] + s[1..];
    assert multiset(s[1..]) == multiset(s) - multiset{s[0]};
  }
}
