/** Adaptive polling and the ids of self-scheduled jobs: _next_poll_at of app/worker/tasks.py and
app/worker/job_ids.py. Times are microseconds. */
module Schedule {
  import opened Records

  /** The tiers, tightest first: up to this much time remaining, poll this often. */
  const TIERS: seq<(int, int)> := [(24 * HOUR, HOUR), (7 * DAY, 6 * HOUR), (30 * DAY, 24 * HOUR)]

  /** The unjittered step, by what it means. */
  function Step(remaining: Option<int>, defaultMinutes: int): int {
    if remaining.None? then defaultMinutes * MINUTE
    else if remaining.value <= 24 * HOUR then HOUR
    else if remaining.value <= 7 * DAY then 6 * HOUR
    else if remaining.value <= 30 * DAY then 24 * HOUR
    else defaultMinutes * MINUTE
  }

  /** The loop over the tiers finds that step. */
  method ChooseStep(remaining: Option<int>, defaultMinutes: int) returns (step: int)
    ensures step == Step(remaining, defaultMinutes)
    ensures step ==
            if remaining.None? then defaultMinutes * 60_000_000
            else if remaining.value <= 86_400_000_000 then 3_600_000_000
            else if remaining.value <= 604_800_000_000 then 21_600_000_000
            else if remaining.value <= 2_592_000_000_000 then 86_400_000_000
            else defaultMinutes * 60_000_000
  {
    if remaining.None? {
      return defaultMinutes * MINUTE;
    }
    if remaining.value <= 0 {
      return HOUR;
    }
    assert TIERS[0] == (24 * HOUR, HOUR) && TIERS[1] == (7 * DAY, 6 * HOUR) && TIERS[2] == (30 * DAY, 24 * HOUR);
    step := defaultMinutes * MINUTE;
    for n := 0 to |TIERS|
      invariant step == defaultMinutes * MINUTE
      invariant forall k :: 0 <= k < n ==> remaining.value > TIERS[k].0
    {
      if remaining.value <= TIERS[n].0 {
        step := TIERS[n].1;
        break;
      }
    }
  }

  /** The step scaled by a random factor and rounded to a microsecond, ties either way. */
  ghost predicate Jittered(step: int, fraction: real, result: int) {
    exists u: real :: Draw(u, fraction) && Rounds(step as real * (1.0 + u), result)
  }

  predicate Draw(u: real, fraction: real) {
    -fraction <= u <= fraction
  }

  predicate Rounds(exact: real, result: int) {
    exact - 0.5 <= result as real <= exact + 0.5
  }

  /** One poll: when it ran, the market's resolution date and default interval then, and the draw. */
  datatype Poll = Poll(now: Time, resolution: Option<Time>, defaultMinutes: int, next: Time)

  function Remaining(p: Poll): Option<int> {
    if p.resolution.None? then None else Some(p.resolution.value - p.now)
  }

  ghost predicate PollOk(p: Poll, fraction: real) {
    Jittered(Step(Remaining(p), p.defaultMinutes), fraction, p.next - p.now)
  }

  /** The least step a positive default allows. */
  function LeastStep(defaultMinutes: int): int {
    (if defaultMinutes < 60 then defaultMinutes else 60) * MINUTE
  }

  lemma StepAtLeast(remaining: Option<int>, defaultMinutes: int)
    ensures Step(remaining, defaultMinutes) >= LeastStep(defaultMinutes)
  {
  }

  lemma Scaled(factor: real, a: real, b: real)
    requires factor >= 0.0 && a >= b
    ensures factor * a >= factor * b
  {
    assert factor * a - factor * b == factor * (a - b);
  }

  lemma Shrinks(step: real, least: real, u: real, fraction: real)
    requires step >= least >= 0.0 && fraction <= 1.0 && u >= -fraction
    ensures step * (1.0 + u) >= (1.0 - fraction) * least
  {
    Scaled(step, 1.0 + u, 1.0 - fraction);
    Scaled(1.0 - fraction, step, least);
    assert step * (1.0 - fraction) == (1.0 - fraction) * step;
  }

  lemma JitteredAtLeast(step: int, least: int, fraction: real, result: int)
    requires Jittered(step, fraction, result) && step >= least >= 0 && fraction <= 1.0
    ensures result as real >= (1.0 - fraction) * (least as real) - 0.5
  {
    var u: real :| Draw(u, fraction) && Rounds(step as real * (1.0 + u), result);
    Shrinks(step as real, least as real, u, fraction);
  }

  /** Unjittered, a poll moves forward exactly when a tier applies or the default interval is positive. */
  lemma MovesForwardIff(p: Poll)
    requires p.next == p.now + Step(Remaining(p), p.defaultMinutes)
    ensures p.next > p.now <==> p.defaultMinutes > 0 || (p.resolution.Some? && p.resolution.value - p.now <= 30 * DAY)
  {
  }

  /** The closer the resolution the sooner the next poll: monotone in the time remaining exactly when the
  default interval is at least a day. */
  lemma MonotoneIff(defaultMinutes: int)
    ensures defaultMinutes >= 1440 <==>
            forall a: int, b: int :: a <= b ==> Step(Some(a), defaultMinutes) <= Step(Some(b), defaultMinutes)
  {
    if defaultMinutes < 1440 {
      assert Step(Some(30 * DAY), defaultMinutes) > Step(Some(31 * DAY), defaultMinutes);
    }
  }

  // ---- self-scheduling chains ----

  /** Each poll of a chain runs no earlier than the previous one scheduled it. */
  ghost predicate Chain(polls: seq<Poll>, fraction: real, leastMinutes: int) {
    && (forall k :: 0 <= k < |polls| ==> PollOk(polls[k], fraction) && polls[k].defaultMinutes >= leastMinutes)
    && (forall k :: 0 < k < |polls| ==> polls[k].now >= polls[k - 1].next)
  }

  /** The guaranteed distance between successive runs: (1 - fraction) of an hour, or of a shorter
  default, up to the rounding of half a microsecond. */
  function Gap(fraction: real, leastMinutes: int): real {
    (1.0 - fraction) * (LeastStep(leastMinutes) as real) - 0.5
  }

  /** A poll schedules the next one at least the gap ahead. */
  lemma Spacing(p: Poll, fraction: real, leastMinutes: int)
    requires PollOk(p, fraction) && 0.0 <= fraction <= 1.0 && p.defaultMinutes >= leastMinutes >= 0
    ensures (p.next - p.now) as real >= Gap(fraction, leastMinutes)
  {
    StepAtLeast(Remaining(p), p.defaultMinutes);
    JitteredAtLeast(Step(Remaining(p), p.defaultMinutes), LeastStep(leastMinutes), fraction, p.next - p.now);
  }

  function Times(n: nat, gap: real): real {
    if n == 0 then 0.0 else Times(n - 1, gap) + gap
  }

  lemma {:induction false} TimesIsProduct(n: nat, gap: real)
    ensures Times(n, gap) == n as real * gap
  {
    if n > 0 {
      TimesIsProduct(n - 1, gap);
      assert n as real * gap == (n - 1) as real * gap + gap;
    }
  }

  /** Runs of a chain are at least a gap apart, so j steps later at least j gaps. */
  lemma {:induction false} ChainSpacing(polls: seq<Poll>, fraction: real, leastMinutes: int, i: nat, j: nat)
    requires Chain(polls, fraction, leastMinutes) && 0.0 <= fraction <= 1.0 && leastMinutes >= 0
    requires i <= j < |polls|
    ensures (polls[j].now - polls[i].now) as real >= Times(j - i, Gap(fraction, leastMinutes))
    decreases j - i
  {
    if i < j {
      ChainSpacing(polls, fraction, leastMinutes, i, j - 1);
      Spacing(polls[j - 1], fraction, leastMinutes);
      assert polls[j].now >= polls[j - 1].next;
    }
  }

  /** A window of length `window` holds at most window / gap + 1 runs of a chain. */
  lemma BoundedRuns(polls: seq<Poll>, fraction: real, leastMinutes: int, i: nat, j: nat, window: int)
    requires Chain(polls, fraction, leastMinutes) && 0.0 <= fraction <= 1.0 && leastMinutes >= 0
    requires i <= j < |polls| && polls[j].now - polls[i].now <= window && Gap(fraction, leastMinutes) > 0.0
    ensures (j - i + 1) as real <= window as real / Gap(fraction, leastMinutes) + 1.0
  {
    ChainSpacing(polls, fraction, leastMinutes, i, j);
    TimesIsProduct(j - i, Gap(fraction, leastMinutes));
    Divides((j - i) as real, Gap(fraction, leastMinutes), window as real);
  }

  lemma Divides(n: real, gap: real, total: real)
    requires gap > 0.0 && n * gap <= total
    ensures n <= total / gap
  {
    var q := total / gap;
    assert q * gap == total;
    if n > q {
      assert n * gap > q * gap;
    }
  }

  // ---- job ids ----

  function JobId(market: string, runAt: Time, iso: Time -> string): string {
    "process_market:" + market + ":" + iso(runAt)
  }

  ghost predicate Injective(iso: Time -> string) {
    forall s, t :: iso(s) == iso(t) ==> s == t
  }

  /** Ids differ unless both market and time agree; market ids are UUIDs, all of one length. */
  lemma JobIdInjective(market: string, other: string, s: Time, t: Time, iso: Time -> string)
    requires Injective(iso) && |market| == |other|
    ensures JobId(market, s, iso) == JobId(other, t, iso) <==> market == other && s == t
  {
    var p := "process_market:";
    var a, b := JobId(market, s, iso), JobId(other, t, iso);
    assert a[|p|..|p| + |market|] == market && b[|p|..|p| + |other|] == other;
    assert a[|p| + |market| + 1..] == iso(s) && b[|p| + |other| + 1..] == iso(t);
  }

  /** The time in the id a run of the chain lives under: the one its predecessor scheduled it for, and
  for the first run the time it was enqueued for. */
  function ScheduledFor(polls: seq<Poll>, start: Time, k: nat): Time
    requires k <= |polls|
  {
    if k == 0 then start else polls[k - 1].next
  }

  /** Within one chain no job id ever repeats: the id a run enqueues is neither its own live one nor that
  of any run before it, the first included. */
  lemma FreshIds(polls: seq<Poll>, fraction: real, leastMinutes: int, start: Time, market: string, iso: Time -> string,
                 i: nat, j: nat)
    requires Chain(polls, fraction, leastMinutes) && 0.0 <= fraction <= 1.0 && leastMinutes >= 0
    requires Gap(fraction, leastMinutes) > 0.0 && Injective(iso) && i < j <= |polls| && start <= polls[0].now
    ensures JobId(market, ScheduledFor(polls, start, i), iso) != JobId(market, ScheduledFor(polls, start, j), iso)
  {
    ChainSpacing(polls, fraction, leastMinutes, i, j - 1);
    TimesNonNegative(j - 1 - i, Gap(fraction, leastMinutes));
    Spacing(polls[j - 1], fraction, leastMinutes);
    assert polls[j - 1].next > polls[j - 1].now >= polls[i].now >= ScheduledFor(polls, start, i);
    JobIdInjective(market, market, ScheduledFor(polls, start, i), ScheduledFor(polls, start, j), iso);
  }

  lemma {:induction false} TimesNonNegative(n: nat, gap: real)
    requires gap > 0.0
    ensures Times(n, gap) >= 0.0
  {
    if n > 0 {
      TimesNonNegative(n - 1, gap);
    }
  }
}
