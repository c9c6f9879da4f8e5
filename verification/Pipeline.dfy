/** From search results to the candidates of a batch: app/search/aggregator.py,
app/llm/prefilter.py and the filters of app/worker/tasks.py. */
module Pipeline {
  import opened Records
  import opened Protocol
  import opened Watermark

  /** A search hit; a missing URL is the empty string. */
  datatype Hit = Hit(url: string, published: Option<Time>)

  datatype Candidate = Candidate(hit: Hit, hash: Hash)

  ghost predicate DistinctHashes(cs: seq<Candidate>) {
    forall j, k :: 0 <= j < k < |cs| ==> cs[j].hash != cs[k].hash
  }

  ghost predicate HasHash(cs: seq<Candidate>, h: Hash) {
    exists k :: 0 <= k < |cs| && cs[k].hash == h
  }

  // ---- the merge ----

  /** One source's answer: its hits, or nothing if it failed. */
  type Answer = Option<seq<Hit>>

  function Hits(answers: seq<Answer>): seq<Hit> {
    if answers == [] then []
    else Hits(answers[..|answers| - 1]) + (if answers[|answers| - 1].Some? then answers[|answers| - 1].value else [])
  }

  /** The hits with a URL whose hash no earlier hit has, in order of arrival. */
  ghost function Firsts(hits: seq<Hit>, hash: string -> Hash): seq<Candidate> {
    if hits == [] then []
    else
      var last := hits[|hits| - 1];
      var before := Firsts(hits[..|hits| - 1], hash);
      if last.url == "" || HasHash(before, hash(last.url)) then before else before + [Candidate(last, hash(last.url))]
  }

  lemma FirstsAppend(hits: seq<Hit>, hit: Hit, hash: string -> Hash)
    ensures var before := Firsts(hits, hash);
            Firsts(hits + [hit], hash) ==
              if hit.url == "" || HasHash(before, hash(hit.url)) then before
              else before + [Candidate(hit, hash(hit.url))]
  {
    assert (hits + [hit])[..|hits|] == hits;
  }

  /** The inner loop: one source's hits, against everything merged before. */
  method MergeOne(start: seq<Candidate>, known: set<Hash>, ghost before: seq<Hit>, hits: seq<Hit>, hash: string -> Hash)
    returns (merged: seq<Candidate>, seen: set<Hash>)
    requires start == Firsts(before, hash) && forall h :: h in known <==> HasHash(start, h)
    ensures merged == Firsts(before + hits, hash) && forall h :: h in seen <==> HasHash(merged, h)
  {
    merged, seen := start, known;
    assert before + hits[..0] == before;
    for k := 0 to |hits|
      invariant merged == Firsts(before + hits[..k], hash)
      invariant forall h :: h in seen <==> HasHash(merged, h)
    {
      assert before + hits[..k + 1] == (before + hits[..k]) + [hits[k]];
      FirstsAppend(before + hits[..k], hits[k], hash);
      if hits[k].url == "" {
        continue;
      }
      var h := hash(hits[k].url);
      if h in seen {
        continue;
      }
      HasHashAppend(merged, Candidate(hits[k], h));
      seen := seen + {h};
      merged := merged + [Candidate(hits[k], h)];
    }
    assert hits[..|hits|] == hits;
  }

  /** search_all_sources after the gather: keep first occurrences over all sources that answered. */
  method Merge(answers: seq<Answer>, hash: string -> Hash) returns (merged: seq<Candidate>)
    ensures merged == Firsts(Hits(answers), hash)
  {
    merged := [];
    var seen: set<Hash> := {};
    for n := 0 to |answers|
      invariant merged == Firsts(Hits(answers[..n]), hash)
      invariant forall h :: h in seen <==> HasHash(merged, h)
    {
      assert answers[..n + 1][..n] == answers[..n];
      if answers[n].None? {
        assert Hits(answers[..n]) + [] == Hits(answers[..n]);
        continue;
      }
      merged, seen := MergeOne(merged, seen, Hits(answers[..n]), answers[n].value, hash);
    }
    assert answers[..|answers|] == answers;
  }

  lemma HasHashAppend(cs: seq<Candidate>, c: Candidate)
    ensures forall h :: HasHash(cs + [c], h) <==> HasHash(cs, h) || h == c.hash
  {
    forall h ensures HasHash(cs + [c], h) <==> HasHash(cs, h) || h == c.hash {
      if HasHash(cs, h) {
        var k :| 0 <= k < |cs| && cs[k].hash == h;
        assert (cs + [c])[k].hash == h;
      }
      if h == c.hash {
        assert (cs + [c])[|cs|].hash == h;
      }
    }
  }

  ghost predicate FirstAt(hits: seq<Hit>, hash: string -> Hash, c: Candidate, n: nat) {
    n < |hits| && hits[n] == c.hit && forall k :: 0 <= k < n && hits[k].url != "" ==> hash(hits[k].url) != c.hash
  }

  ghost predicate IsFirst(hits: seq<Hit>, hash: string -> Hash, c: Candidate) {
    exists n :: 0 <= n < |hits| && FirstAt(hits, hash, c, n)
  }

  lemma {:induction false} MergeKeepsDistinct(hits: seq<Hit>, hash: string -> Hash)
    ensures DistinctHashes(Firsts(hits, hash))
    ensures forall k :: 0 <= k < |hits| && hits[k].url != "" ==> HasHash(Firsts(hits, hash), hash(hits[k].url))
  {
    if hits != [] {
      var last := hits[|hits| - 1];
      MergeKeepsDistinct(hits[..|hits| - 1], hash);
      HasHashAppend(Firsts(hits[..|hits| - 1], hash), Candidate(last, hash(last.url)));
    }
  }

  /** The merge keeps one candidate per hash, covers every URL found, and each is the first with its hash. */
  lemma {:induction false} MergeKeepsFirsts(hits: seq<Hit>, hash: string -> Hash)
    ensures DistinctHashes(Firsts(hits, hash))
    ensures forall k :: 0 <= k < |hits| && hits[k].url != "" ==> HasHash(Firsts(hits, hash), hash(hits[k].url))
    ensures forall c :: c in Firsts(hits, hash) ==> c.hash == hash(c.hit.url) && IsFirst(hits, hash, c)
  {
    MergeKeepsDistinct(hits, hash);
    if hits != [] {
      var before := hits[..|hits| - 1];
      MergeKeepsFirsts(before, hash);
      forall c | c in Firsts(hits, hash) ensures c.hash == hash(c.hit.url) && IsFirst(hits, hash, c) {
        if c in Firsts(before, hash) {
          var n :| 0 <= n < |before| && FirstAt(before, hash, c, n);
          assert FirstAt(hits, hash, c, n);
        } else {
          forall k | 0 <= k < |hits| - 1 && hits[k].url != "" ensures hash(hits[k].url) != c.hash {
            assert before[k] == hits[k];
          }
          assert FirstAt(hits, hash, c, |hits| - 1);
        }
      }
    }
  }

  // ---- the date filters ----

  /** Undated candidates pass every cutoff; no cutoff passes everything. */
  predicate Passes(published: Option<Time>, cutoff: Option<Time>) {
    cutoff.None? || published.None? || published.value >= cutoff.value
  }

  function DateFilter(cs: seq<Candidate>, cutoff: Option<Time>): seq<Candidate> {
    if cs == [] then []
    else
      var last := cs[|cs| - 1];
      DateFilter(cs[..|cs| - 1], cutoff) + if Passes(last.hit.published, cutoff) then [last] else []
  }

  lemma DateFilterAppend(cs: seq<Candidate>, c: Candidate, cutoff: Option<Time>)
    ensures DateFilter(cs + [c], cutoff) == DateFilter(cs, cutoff) + if Passes(c.hit.published, cutoff) then [c] else []
  {
    assert (cs + [c])[..|cs|] == cs;
  }

  /** The cutoff of the recency filter; no positive age disables it. */
  function AgeCutoff(maxAgeDays: int, now: Time): Option<Time> {
    if maxAgeDays <= 0 then None else Some(now - maxAgeDays * DAY)
  }

  method FilterByRecency(cs: seq<Candidate>, maxAgeDays: int, now: Time) returns (kept: seq<Candidate>)
    ensures kept == DateFilter(cs, AgeCutoff(maxAgeDays, now))
  {
    if maxAgeDays <= 0 {
      NoCutoff(cs);
      return cs;
    }
    var cutoff := now - maxAgeDays * DAY;
    kept := [];
    for n := 0 to |cs|
      invariant kept == DateFilter(cs[..n], Some(cutoff))
    {
      assert cs[..n + 1] == cs[..n] + [cs[n]];
      DateFilterAppend(cs[..n], cs[n], Some(cutoff));
      if cs[n].hit.published.None? || cs[n].hit.published.value >= cutoff {
        kept := kept + [cs[n]];
      }
    }
    assert cs[..|cs|] == cs;
  }

  method FilterOlderThanWatermark(cs: seq<Candidate>, watermark: Option<Time>) returns (kept: seq<Candidate>)
    ensures kept == DateFilter(cs, watermark)
  {
    if watermark.None? {
      NoCutoff(cs);
      return cs;
    }
    kept := [];
    for n := 0 to |cs|
      invariant kept == DateFilter(cs[..n], watermark)
    {
      assert cs[..n + 1] == cs[..n] + [cs[n]];
      DateFilterAppend(cs[..n], cs[n], watermark);
      if cs[n].hit.published.None? || cs[n].hit.published.value >= watermark.value {
        kept := kept + [cs[n]];
      }
    }
    assert cs[..|cs|] == cs;
  }

  lemma {:induction false} NoCutoff(cs: seq<Candidate>)
    ensures DateFilter(cs, None) == cs
  {
    if cs != [] {
      NoCutoff(cs[..|cs| - 1]);
    }
  }

  /** The two filters commute and equal one filter at the later cutoff. */
  lemma {:induction false} FiltersCompose(cs: seq<Candidate>, a: Option<Time>, b: Option<Time>)
    ensures DateFilter(DateFilter(cs, a), b) == DateFilter(cs, Later(a, b))
    ensures DateFilter(DateFilter(cs, a), b) == DateFilter(DateFilter(cs, b), a)
  {
    if cs != [] {
      var before, last := cs[..|cs| - 1], cs[|cs| - 1];
      FiltersCompose(before, a, b);
      DateFilterAppend(DateFilter(before, a), last, b);
      DateFilterAppend(DateFilter(before, b), last, a);
      assert DateFilter(before, a) + [] == DateFilter(before, a);
      assert DateFilter(before, b) + [] == DateFilter(before, b);
      assert Passes(last.hit.published, Later(a, b)) <==>
        Passes(last.hit.published, a) && Passes(last.hit.published, b);
    }
  }

  /** What survives a filter is what passes, and no hash is repeated that was not repeated before. */
  lemma {:induction false} FilterKeeps(cs: seq<Candidate>, cutoff: Option<Time>)
    ensures forall c :: c in DateFilter(cs, cutoff) <==> c in cs && Passes(c.hit.published, cutoff)
    ensures DistinctHashes(cs) ==> DistinctHashes(DateFilter(cs, cutoff))
  {
    if cs != [] {
      var before, last := cs[..|cs| - 1], cs[|cs| - 1];
      FilterKeeps(before, cutoff);
      assert cs == before + [last];
      forall c | c in DateFilter(before, cutoff) ensures DistinctHashes(cs) ==> c.hash != last.hash {
        var k :| 0 <= k < |before| && before[k] == c;
        assert cs[k] == c;
      }
    }
  }

  // ---- the semantic prefilter ----

  type Scored = (Candidate, real)

  function AtLeast(scored: seq<Scored>, least: real): seq<Scored> {
    if scored == [] then []
    else (if scored[0].1 >= least then [scored[0]] else []) + AtLeast(scored[1..], least)
  }

  /** Insertion before the first strictly smaller score keeps equal scores in order of arrival. */
  function InsertByScore(sorted: seq<Scored>, x: Scored): seq<Scored> {
    if sorted == [] || sorted[0].1 < x.1 then [x] + sorted else [sorted[0]] + InsertByScore(sorted[1..], x)
  }

  /** The stable sort by score, highest first. */
  function SortByScore(scored: seq<Scored>): seq<Scored> {
    if scored == [] then [] else InsertByScore(SortByScore(scored[..|scored| - 1]), scored[|scored| - 1])
  }

  function RankBySimilarity(scored: seq<Scored>, topK: int, least: real): seq<Scored> {
    if topK <= 0 || scored == [] then scored
    else
      var ranked := SortByScore(AtLeast(scored, least));
      if topK < |ranked| then ranked[..topK] else ranked
  }

  ghost predicate Descending(s: seq<Scored>) {
    forall j, k :: 0 <= j < k < |s| ==> s[j].1 >= s[k].1
  }

  lemma {:induction false} InsertIsPermutation(sorted: seq<Scored>, x: Scored)
    ensures multiset(InsertByScore(sorted, x)) == multiset(sorted) + multiset{x}
    ensures |InsertByScore(sorted, x)| == |sorted| + 1
  {
    if sorted != [] && sorted[0].1 >= x.1 {
      InsertIsPermutation(sorted[1..], x);
      assert sorted == [sorted[0]] + sorted[1..];
    }
  }

  lemma {:induction false} InsertKeepsOrder(sorted: seq<Scored>, x: Scored)
    requires Descending(sorted)
    ensures Descending(InsertByScore(sorted, x))
  {
    if sorted != [] && sorted[0].1 >= x.1 {
      var rest := InsertByScore(sorted[1..], x);
      InsertKeepsOrder(sorted[1..], x);
      InsertIsPermutation(sorted[1..], x);
      forall y | y in rest ensures y.1 <= sorted[0].1 {
        assert y in multiset(rest);
        assert y in sorted[1..] || y == x;
      }
    }
  }

  lemma {:induction false} SortKeeps(scored: seq<Scored>)
    ensures Descending(SortByScore(scored))
    ensures multiset(SortByScore(scored)) == multiset(scored)
    ensures |SortByScore(scored)| == |scored|
  {
    if scored != [] {
      var before := scored[..|scored| - 1];
      SortKeeps(before);
      InsertKeepsOrder(SortByScore(before), scored[|scored| - 1]);
      InsertIsPermutation(SortByScore(before), scored[|scored| - 1]);
      assert scored == before + [scored[|scored| - 1]];
    }
  }

  /** The candidates with one given score, in order. */
  function WithScore(scored: seq<Scored>, score: real): seq<Scored> {
    if scored == [] then [] else (if scored[0].1 == score then [scored[0]] else []) + WithScore(scored[1..], score)
  }

  lemma {:induction false} WithScoreAppend(a: seq<Scored>, b: seq<Scored>, score: real)
    ensures WithScore(a + b, score) == WithScore(a, score) + WithScore(b, score)
  {
    if a == [] {
      assert a + b == b;
    } else {
      WithScoreAppend(a[1..], b, score);
      var first := if a[0].1 == score then [a[0]] else [];
      assert WithScore(a + b, score) == first + WithScore(a[1..] + b, score) by {
        assert (a + b)[0] == a[0] && (a + b)[1..] == a[1..] + b;
      }
    }
  }

  lemma {:induction false} NoneWithScore(scored: seq<Scored>, score: real)
    requires forall k :: 0 <= k < |scored| ==> scored[k].1 < score
    ensures WithScore(scored, score) == []
  {
    if scored != [] {
      NoneWithScore(scored[1..], score);
    }
  }

  lemma {:induction false} InsertIsStable(sorted: seq<Scored>, x: Scored, score: real)
    requires Descending(sorted)
    ensures WithScore(InsertByScore(sorted, x), score) == WithScore(sorted + [x], score)
  {
    if sorted == [] || sorted[0].1 < x.1 {
      WithScoreAppend([x], sorted, score);
      WithScoreAppend(sorted, [x], score);
      if score == x.1 {
        NoneWithScore(sorted, score);
      }
    } else {
      InsertIsStable(sorted[1..], x, score);
      assert (sorted + [x])[1..] == sorted[1..] + [x];
    }
  }

  /** Equal scores keep the order of the search results, so the ranking is fully determined. */
  lemma {:induction false} SortIsStable(scored: seq<Scored>, score: real)
    ensures WithScore(SortByScore(scored), score) == WithScore(scored, score)
  {
    if scored != [] {
      var before, last := scored[..|scored| - 1], scored[|scored| - 1];
      SortKeeps(before);
      SortIsStable(before, score);
      InsertIsStable(SortByScore(before), last, score);
      WithScoreAppend(SortByScore(before), [last], score);
      WithScoreAppend(before, [last], score);
      assert scored == before + [last];
    }
  }

  lemma {:induction false} AtLeastKeeps(scored: seq<Scored>, least: real)
    ensures forall x :: x in AtLeast(scored, least) <==> x in scored && x.1 >= least
    ensures multiset(AtLeast(scored, least)) <= multiset(scored)
  {
    if scored != [] {
      AtLeastKeeps(scored[1..], least);
      assert scored == [scored[0]] + scored[1..];
    }
  }

  lemma CutSplits(ranked: seq<Scored>, cut: nat)
    requires cut <= |ranked|
    ensures multiset(ranked) - multiset(ranked[..cut]) == multiset(ranked[cut..])
    ensures multiset(ranked[..cut]) <= multiset(ranked)
  {
    assert ranked == ranked[..cut] + ranked[cut..];
  }

  lemma CutBeats(ranked: seq<Scored>, cut: nat, x: Scored, y: Scored)
    requires Descending(ranked) && cut <= |ranked| && x in ranked[..cut] && y in ranked[cut..]
    ensures x.1 >= y.1
  {
    var j :| 0 <= j < cut && ranked[..cut][j] == x;
    var k :| 0 <= k < |ranked| - cut && ranked[cut..][k] == y;
    assert ranked[j].1 >= ranked[cut + k].1;
  }

  lemma RankIsCut(scored: seq<Scored>, topK: int, least: real)
    requires topK > 0
    ensures var ranked := SortByScore(AtLeast(scored, least));
            RankBySimilarity(scored, topK, least) == ranked[..if topK < |ranked| then topK else |ranked|]
  {
  }

  /** The selection is a descending top-k: everything kept reaches the threshold, and as many are kept as
  allowed and available. */
  lemma TopKKept(scored: seq<Scored>, topK: int, least: real)
    requires topK > 0
    ensures var r := RankBySimilarity(scored, topK, least);
            && Descending(r)
            && (forall x :: x in r ==> x in scored && x.1 >= least)
            && |r| == (if topK < |AtLeast(scored, least)| then topK else |AtLeast(scored, least)|)
  {
    var good := AtLeast(scored, least);
    SortKeeps(good);
    AtLeastKeeps(scored, least);
    RankIsCut(scored, topK, least);
    var ranked := SortByScore(good);
    forall x | x in ranked ensures x in good {
      assert x in multiset(ranked);
    }
  }

  /** And nothing dropped that reaches the threshold beats anything kept. */
  lemma TopKBeatsDropped(scored: seq<Scored>, topK: int, least: real, x: Scored, y: Scored)
    requires topK > 0 && x in RankBySimilarity(scored, topK, least)
    requires y in multiset(AtLeast(scored, least)) - multiset(RankBySimilarity(scored, topK, least))
    ensures x.1 >= y.1
  {
    var good := AtLeast(scored, least);
    var ranked := SortByScore(good);
    var cut := if topK < |ranked| then topK else |ranked|;
    SortKeeps(good);
    RankIsCut(scored, topK, least);
    CutSplits(ranked, cut);
    CutBeats(ranked, cut, x, y);
  }

  // ---- a cycle's selection ----

  /** Candidates whose hash the market has no item for. */
  function Unknown(cs: seq<Candidate>, existing: set<Hash>): seq<Candidate> {
    if cs == [] then []
    else
      var last := cs[|cs| - 1];
      Unknown(cs[..|cs| - 1], existing) + if last.hash in existing then [] else [last]
  }

  function Score(cs: seq<Candidate>, similarity: Candidate -> real): seq<Scored> {
    seq(|cs|, k requires 0 <= k < |cs| => (cs[k], similarity(cs[k])))
  }

  function Unscore(scored: seq<Scored>): seq<Candidate> {
    seq(|scored|, k requires 0 <= k < |scored| => scored[k].0)
  }

  /** The settings of the selection. */
  datatype Policy = Policy(maxAgeDays: int, topK: int, least: real)

  /** process_market's selection: fresh, recent, not older than what was delivered, most similar first. */
  ghost function Selected(hits: seq<Hit>, hash: string -> Hash, existing: set<Hash>, policy: Policy, now: Time,
                          watermark: Option<Time>, similarity: Candidate -> real): seq<Candidate>
  {
    var recent := DateFilter(Unknown(Firsts(hits, hash), existing), AgeCutoff(policy.maxAgeDays, now));
    Unscore(RankBySimilarity(Score(DateFilter(recent, watermark), similarity), policy.topK, policy.least))
  }

  method Select(answers: seq<Answer>, hash: string -> Hash, existing: set<Hash>, policy: Policy, now: Time,
                watermark: Option<Time>, similarity: Candidate -> real) returns (selected: seq<Candidate>)
    ensures selected == Selected(Hits(answers), hash, existing, policy, now, watermark, similarity)
    ensures GoodSelection(selected, Hits(answers), hash, existing, policy, now, watermark, similarity)
  {
    SelectedIsGood(Hits(answers), hash, existing, policy, now, watermark, similarity);
    var candidates := Merge(answers, hash);
    var recent := FilterByRecency(Unknown(candidates, existing), policy.maxAgeDays, now);
    var unstale := FilterOlderThanWatermark(recent, watermark);
    selected := Unscore(RankBySimilarity(Score(unstale, similarity), policy.topK, policy.least));
  }

  function Hashes(cs: seq<Candidate>): (r: seq<Hash>)
    ensures |r| == |cs| && forall k :: 0 <= k < |cs| ==> r[k] == cs[k].hash
  {
    seq(|cs|, k requires 0 <= k < |cs| => cs[k].hash)
  }

  lemma {:induction false} UnknownKeeps(cs: seq<Candidate>, existing: set<Hash>)
    ensures forall c :: c in Unknown(cs, existing) <==> c in cs && c.hash !in existing
    ensures DistinctHashes(cs) ==> DistinctHashes(Unknown(cs, existing))
  {
    if cs != [] {
      var before, last := cs[..|cs| - 1], cs[|cs| - 1];
      UnknownKeeps(before, existing);
      assert cs == before + [last];
      forall c | c in Unknown(before, existing) ensures DistinctHashes(cs) ==> c.hash != last.hash {
        var k :| 0 <= k < |before| && before[k] == c;
        assert cs[k] == c;
      }
    }
  }

  ghost predicate NoRepeats(scored: seq<Scored>) {
    forall j, k :: 0 <= j < k < |scored| ==> scored[j].0.hash != scored[k].0.hash
  }

  lemma {:induction false} AtLeastNoRepeats(scored: seq<Scored>, least: real)
    requires NoRepeats(scored)
    ensures NoRepeats(AtLeast(scored, least))
  {
    if scored != [] {
      AtLeastNoRepeats(scored[1..], least);
      AtLeastKeeps(scored[1..], least);
    }
  }

  lemma {:induction false} InsertNoRepeats(sorted: seq<Scored>, x: Scored)
    requires NoRepeats(sorted) && forall y :: y in sorted ==> y.0.hash != x.0.hash
    ensures NoRepeats(InsertByScore(sorted, x))
    ensures forall y :: y in InsertByScore(sorted, x) <==> y in sorted || y == x
  {
    if sorted != [] && sorted[0].1 >= x.1 {
      var rest := InsertByScore(sorted[1..], x);
      InsertNoRepeats(sorted[1..], x);
      assert sorted == [sorted[0]] + sorted[1..];
      forall k | 0 <= k < |rest| ensures rest[k].0.hash != sorted[0].0.hash {
        assert rest[k] in rest;
        if rest[k] != x {
          var j :| 0 <= j < |sorted[1..]| && sorted[1..][j] == rest[k];
          assert sorted[j + 1] == rest[k];
        }
      }
    } else {
      assert InsertByScore(sorted, x) == [x] + sorted;
    }
  }

  lemma {:induction false} SortNoRepeats(scored: seq<Scored>)
    requires NoRepeats(scored)
    ensures NoRepeats(SortByScore(scored))
    ensures forall y :: y in SortByScore(scored) <==> y in scored
  {
    if scored != [] {
      var before, last := scored[..|scored| - 1], scored[|scored| - 1];
      SortNoRepeats(before);
      assert scored == before + [last];
      InsertNoRepeats(SortByScore(before), last);
    }
  }

  lemma RankNoRepeats(scored: seq<Scored>, topK: int, least: real)
    requires NoRepeats(scored)
    ensures NoRepeats(RankBySimilarity(scored, topK, least))
    ensures forall y :: y in RankBySimilarity(scored, topK, least) ==> y in scored
  {
    AtLeastNoRepeats(scored, least);
    AtLeastKeeps(scored, least);
    SortNoRepeats(AtLeast(scored, least));
  }

  /** Slots are distinct: a cycle's selection repeats no hash, so it has as many ledger keys as
  candidates, and all of it is unstored, recent and not older than the watermark. */
  lemma SlotsDistinct(hits: seq<Hit>, hash: string -> Hash, existing: set<Hash>, policy: Policy, now: Time,
                      watermark: Option<Time>, similarity: Candidate -> real)
    ensures var selected := Selected(hits, hash, existing, policy, now, watermark, similarity);
            && Distinct(Hashes(selected)) && |Elements(Hashes(selected))| == |selected|
            && (forall c :: c in selected ==>
                  && c.hash !in existing
                  && Passes(c.hit.published, watermark)
                  && Passes(c.hit.published, AgeCutoff(policy.maxAgeDays, now)))
  {
    var merged := Firsts(hits, hash);
    MergeKeepsFirsts(hits, hash);
    UnknownKeeps(merged, existing);
    var recent := DateFilter(Unknown(merged, existing), AgeCutoff(policy.maxAgeDays, now));
    FilterKeeps(Unknown(merged, existing), AgeCutoff(policy.maxAgeDays, now));
    FilterKeeps(recent, watermark);
    var scored := Score(DateFilter(recent, watermark), similarity);
    RankNoRepeats(scored, policy.topK, policy.least);
    var ranked := RankBySimilarity(scored, policy.topK, policy.least);
    forall c | c in Unscore(ranked) ensures c in DateFilter(recent, watermark) {
      var k :| 0 <= k < |ranked| && ranked[k].0 == c;
      assert ranked[k] in scored;
    }
    DistinctSize(Hashes(Unscore(ranked)));
  }

  // ---- what a cycle selects, in terms of the hits ----

  /** A candidate the cycle may use: the first hit with its hash, for a hash the market has no item for, not
  too old for the policy and not older than the watermark; undated ones pass. */
  ghost predicate Eligible(c: Candidate, hits: seq<Hit>, hash: string -> Hash, existing: set<Hash>, maxAgeDays: int,
                           now: Time, watermark: Option<Time>)
  {
    && c.hit.url != "" && c.hash == hash(c.hit.url) && IsFirst(hits, hash, c) && c.hash !in existing
    && (c.hit.published.Some? && maxAgeDays > 0 ==> c.hit.published.value >= now - maxAgeDays * 86_400_000_000)
    && (c.hit.published.Some? && watermark.Some? ==> c.hit.published.value >= watermark.value)
  }

  lemma {:induction false} FirstsIff(hits: seq<Hit>, hash: string -> Hash, c: Candidate)
    ensures c in Firsts(hits, hash) <==> c.hit.url != "" && c.hash == hash(c.hit.url) && IsFirst(hits, hash, c)
  {
    MergeKeepsFirsts(hits, hash);
    FirstsHaveUrls(hits, hash);
    if c.hit.url != "" && c.hash == hash(c.hit.url) && IsFirst(hits, hash, c) {
      var n :| 0 <= n < |hits| && FirstAt(hits, hash, c, n);
      assert HasHash(Firsts(hits, hash), c.hash);
      var k :| 0 <= k < |Firsts(hits, hash)| && Firsts(hits, hash)[k].hash == c.hash;
      var d := Firsts(hits, hash)[k];
      assert d in Firsts(hits, hash);
      var m :| 0 <= m < |hits| && FirstAt(hits, hash, d, m);
      assert m == n;
    }
  }

  lemma {:induction false} FirstsHaveUrls(hits: seq<Hit>, hash: string -> Hash)
    ensures forall c :: c in Firsts(hits, hash) ==> c.hit.url != ""
  {
    if hits != [] {
      FirstsHaveUrls(hits[..|hits| - 1], hash);
    }
  }

  /** All candidates left after the filters, before the ranking. */
  ghost function Unranked(hits: seq<Hit>, hash: string -> Hash, existing: set<Hash>, maxAgeDays: int, now: Time,
                          watermark: Option<Time>): seq<Candidate>
  {
    DateFilter(DateFilter(Unknown(Firsts(hits, hash), existing), AgeCutoff(maxAgeDays, now)), watermark)
  }

  lemma UnrankedIsEligible(hits: seq<Hit>, hash: string -> Hash, existing: set<Hash>, maxAgeDays: int, now: Time,
                           watermark: Option<Time>)
    ensures var cs := Unranked(hits, hash, existing, maxAgeDays, now, watermark);
            && DistinctHashes(cs)
            && forall c :: c in cs <==> Eligible(c, hits, hash, existing, maxAgeDays, now, watermark)
  {
    var unstored := Unknown(Firsts(hits, hash), existing);
    MergeKeepsFirsts(hits, hash);
    UnknownKeeps(Firsts(hits, hash), existing);
    FilterKeeps(unstored, AgeCutoff(maxAgeDays, now));
    FilterKeeps(DateFilter(unstored, AgeCutoff(maxAgeDays, now)), watermark);
    forall c
      ensures c in Unranked(hits, hash, existing, maxAgeDays, now, watermark) <==>
              Eligible(c, hits, hash, existing, maxAgeDays, now, watermark)
    {
      FirstsIff(hits, hash, c);
    }
  }

  /** The best of the eligible candidates: most similar first, none below the threshold, no more than allowed,
  and whatever is left out is below the threshold or, the list being full, beaten by all of it. */
  ghost predicate BestOf(eligible: seq<Candidate>, selected: seq<Candidate>, similarity: Candidate -> real, topK: int,
                         least: real)
  {
    && |selected| <= topK
    && (forall c :: c in selected ==> c in eligible && similarity(c) >= least)
    && (forall j, k :: 0 <= j < k < |selected| ==> similarity(selected[j]) >= similarity(selected[k]))
    && forall c :: c in eligible && c !in selected ==>
         similarity(c) < least || (|selected| == topK && forall x :: x in selected ==> similarity(x) >= similarity(c))
  }

  lemma AtLeastMember(scored: seq<Scored>, least: real, y: Scored)
    requires y in scored && y.1 >= least
    ensures y in AtLeast(scored, least)
  {
    if scored[0] != y {
      AtLeastMember(scored[1..], least, y);
    }
  }

  lemma RankedAreBest(cs: seq<Candidate>, similarity: Candidate -> real, topK: int, least: real)
    requires topK > 0
    ensures BestOf(cs, Unscore(RankBySimilarity(Score(cs, similarity), topK, least)), similarity, topK, least)
  {
    var scored := Score(cs, similarity);
    var ranked := RankBySimilarity(scored, topK, least);
    var selected := Unscore(ranked);
    TopKKept(scored, topK, least);
    forall k | 0 <= k < |selected|
      ensures selected[k] in cs && similarity(selected[k]) == ranked[k].1 >= least
    {
      assert ranked[k] in ranked;
    }
    forall c | c in cs && c !in selected && similarity(c) >= least
      ensures |selected| == topK && forall x :: x in selected ==> similarity(x) >= similarity(c)
    {
      var n :| 0 <= n < |cs| && cs[n] == c;
      var y := (c, similarity(c));
      assert scored[n] == y;
      AtLeastMember(scored, least, y);
      forall k | 0 <= k < |ranked| ensures ranked[k] != y {
        assert selected[k] in selected;
      }
      assert y in multiset(AtLeast(scored, least)) - multiset(ranked);
      FullIfDropped(scored, topK, least, y);
      forall x | x in selected ensures similarity(x) >= similarity(c) {
        var k :| 0 <= k < |selected| && selected[k] == x;
        TopKBeatsDropped(scored, topK, least, ranked[k], y);
      }
    }
  }

  /** A good candidate is dropped only when the list is full. */
  lemma FullIfDropped(scored: seq<Scored>, topK: int, least: real, y: Scored)
    requires topK > 0 && y in AtLeast(scored, least) && y !in RankBySimilarity(scored, topK, least)
    ensures |RankBySimilarity(scored, topK, least)| == topK
  {
    SortKeeps(AtLeast(scored, least));
    RankIsCut(scored, topK, least);
    assert y in multiset(SortByScore(AtLeast(scored, least)));
  }

  /** In the order in which the hits came. */
  ghost predicate InArrival(hits: seq<Hit>, hash: string -> Hash, cs: seq<Candidate>) {
    forall j, k :: 0 <= j < k < |cs| ==> Before(hits, hash, cs[j], cs[k])
  }

  ghost predicate Before(hits: seq<Hit>, hash: string -> Hash, a: Candidate, b: Candidate) {
    forall m, n :: FirstAt(hits, hash, a, m) && FirstAt(hits, hash, b, n) ==> m < n
  }

  lemma InArrivalAppend(hits: seq<Hit>, hash: string -> Hash, cs: seq<Candidate>, c: Candidate)
    requires InArrival(hits, hash, cs) && forall b :: b in cs ==> Before(hits, hash, b, c)
    ensures InArrival(hits, hash, cs + [c])
  {
  }

  lemma {:induction false} FirstsInArrival(hits: seq<Hit>, hash: string -> Hash)
    ensures InArrival(hits, hash, Firsts(hits, hash))
  {
    if hits != [] {
      var before, last := hits[..|hits| - 1], hits[|hits| - 1];
      FirstsInArrival(before, hash);
      MergeKeepsFirsts(before, hash);
      FirstsHaveUrls(before, hash);
      var kept := Firsts(before, hash);
      forall a, n: nat | a in kept && FirstAt(hits, hash, a, n) ensures n < |before| && FirstAt(before, hash, a, n) {
        var m :| 0 <= m < |before| && FirstAt(before, hash, a, m);
        assert hits[m] == before[m] && hits[m].url != "" && hash(hits[m].url) == a.hash;
      }
      assert InArrival(hits, hash, kept) by {
        forall j, k | 0 <= j < k < |kept| ensures Before(hits, hash, kept[j], kept[k]) {
          assert kept[j] in kept && kept[k] in kept && Before(before, hash, kept[j], kept[k]);
        }
      }
      if last.url != "" && !HasHash(kept, hash(last.url)) {
        var c := Candidate(last, hash(last.url));
        forall k | 0 <= k < |before| ensures hits[k] != last {
          assert before[k].url != "" ==> HasHash(kept, hash(before[k].url));
        }
        InArrivalAppend(hits, hash, kept, c);
      }
    }
  }

  lemma {:induction false} UnknownInArrival(hits: seq<Hit>, hash: string -> Hash, cs: seq<Candidate>,
                                            existing: set<Hash>)
    requires InArrival(hits, hash, cs)
    ensures InArrival(hits, hash, Unknown(cs, existing))
  {
    if cs != [] {
      var before, last := cs[..|cs| - 1], cs[|cs| - 1];
      UnknownInArrival(hits, hash, before, existing);
      UnknownKeeps(before, existing);
      assert forall b :: b in before ==> Before(hits, hash, b, last);
      InArrivalAppend(hits, hash, Unknown(before, existing), last);
    }
  }

  lemma {:induction false} FilterInArrival(hits: seq<Hit>, hash: string -> Hash, cs: seq<Candidate>,
                                           cutoff: Option<Time>)
    requires InArrival(hits, hash, cs)
    ensures InArrival(hits, hash, DateFilter(cs, cutoff))
  {
    if cs != [] {
      var before, last := cs[..|cs| - 1], cs[|cs| - 1];
      FilterInArrival(hits, hash, before, cutoff);
      FilterKeeps(before, cutoff);
      assert forall b :: b in before ==> Before(hits, hash, b, last);
      InArrivalAppend(hits, hash, DateFilter(before, cutoff), last);
    }
  }

  /** What a selection is worth, in terms of hits, dates and similarities alone. */
  ghost predicate GoodSelection(selected: seq<Candidate>, hits: seq<Hit>, hash: string -> Hash, existing: set<Hash>,
                                policy: Policy, now: Time, watermark: Option<Time>, similarity: Candidate -> real)
  {
    exists eligible: seq<Candidate> ::
      && InArrival(hits, hash, eligible) && DistinctHashes(eligible)
      && (forall c :: c in eligible <==> Eligible(c, hits, hash, existing, policy.maxAgeDays, now, watermark))
      && if policy.topK <= 0 then selected == eligible
         else BestOf(eligible, selected, similarity, policy.topK, policy.least)
  }

  /** With a limit, a cycle selects the most similar of all eligible candidates; without one, all of them in
  the order in which they came. */
  lemma SelectedIsGood(hits: seq<Hit>, hash: string -> Hash, existing: set<Hash>, policy: Policy, now: Time,
                       watermark: Option<Time>, similarity: Candidate -> real)
    ensures GoodSelection(Selected(hits, hash, existing, policy, now, watermark, similarity),
                          hits, hash, existing, policy, now, watermark, similarity)
  {
    var cs := Unranked(hits, hash, existing, policy.maxAgeDays, now, watermark);
    UnrankedIsEligible(hits, hash, existing, policy.maxAgeDays, now, watermark);
    FirstsInArrival(hits, hash);
    UnknownInArrival(hits, hash, Firsts(hits, hash), existing);
    var unstored := Unknown(Firsts(hits, hash), existing);
    FilterInArrival(hits, hash, unstored, AgeCutoff(policy.maxAgeDays, now));
    FilterInArrival(hits, hash, DateFilter(unstored, AgeCutoff(policy.maxAgeDays, now)), watermark);
    if policy.topK > 0 {
      RankedAreBest(cs, similarity, policy.topK, policy.least);
    } else {
      assert Unscore(Score(cs, similarity)) == cs;
    }
  }

  /** The hashes a market has items for. */
  function StoredHashes(db: Db, m: Id): set<Hash> {
    set i | i in db.items && db.items[i].market == m :: db.items[i].urlHash
  }

  /** Chronology: in any state of a run in which no delivery of the market misjudged its newest date, a
  dated candidate that a cycle selects there is no older than anything the market has delivered, and
  is not stored. */
  lemma SelectedNotOlder(s: State, evs: seq<Event>, c: Config, m: Id, hits: seq<Hit>, hash: string -> Hash,
                         policy: Policy, now: Time, similarity: Candidate -> real, chosen: Candidate)
    requires Initial(s) && Run(s, evs, c) && m in s.db.markets && NeverMisjudges(s, evs, c, m)
    ensures var db := After(s, evs, c).db;
            && m in db.markets
            && (chosen in Selected(hits, hash, StoredHashes(db, m),
                                  policy, now, db.markets[m].watermark, similarity) ==>
                  && (forall i :: i in db.items && db.items[i].market == m ==> db.items[i].urlHash != chosen.hash)
                  && (chosen.hit.published.Some? ==>
                        forall l, i, t :: DeliveredDate(db, m, l, i, t) ==> chosen.hit.published.value >= t))
  {
    MaximumIff(s, evs, c, m);
    AlwaysAtEnd(s, evs, c, m);
    var db := After(s, evs, c).db;
    SlotsDistinct(hits, hash, StoredHashes(db, m), policy, now, db.markets[m].watermark, similarity);
  }
}
