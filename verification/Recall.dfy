/** Reranking, and the rank, rerank, expand and truncate sequence of a search. */
module Recall {
  import opened Fusion
  import opened Ranker

  datatype Option<T> = None | Some(value: T)

  // ---- Provider results ----

  /** One provider result; either field may be missing. */
  datatype RerankResult = RerankResult(index: Option<int>, relevance: Option<real>)

  predicate Usable(item: RerankResult, expected: nat) {
    item.index.Some? && item.relevance.Some? && 0 <= item.index.value < expected
  }

  /** The last result for a position decides; positions without a result score zero. */
  function LastScore(results: seq<RerankResult>, i: int): real {
    if results == [] then 0.0
    else
      var last := results[|results| - 1];
      if last.index == Some(i) && last.relevance.Some? then last.relevance.value
      else LastScore(results[..|results| - 1], i)
  }

  /** Scores in document order, or nothing at all if any result is unusable. */
  method ScoresFromResults(results: seq<RerankResult>, expected: nat) returns (scores: Option<seq<real>>)
    ensures scores.Some? <==>
              results != [] && |results| == expected && forall r :: r in results ==> Usable(r, expected)
    ensures scores.Some? ==>
              && |scores.value| == expected
              && forall i :: 0 <= i < expected ==> scores.value[i] == LastScore(results, i)
  {
    if results == [] || |results| != expected {
      return None;
    }
    var s: seq<real> := seq(expected, _ => 0.0);
    for k := 0 to |results|
      invariant |s| == expected
      invariant forall r :: r in results[..k] ==> Usable(r, expected)
      invariant forall i :: 0 <= i < expected ==> s[i] == LastScore(results[..k], i)
    {
      var item := results[k];
      assert results[..k + 1][..k] == results[..k];
      if item.index.None? || item.relevance.None? {
        assert !Usable(results[k], expected) && results[k] in results;
        return None;
      }
      if !(0 <= item.index.value < expected) {
        assert !Usable(results[k], expected) && results[k] in results;
        return None;
      }
      s := s[item.index.value := item.relevance.value];
    }
    assert results[..|results|] == results;
    return Some(s);
  }

  /** When the provider answers each position once, each document gets its own score. */
  lemma {:induction false} AnsweredOnce(results: seq<RerankResult>, k: nat)
    requires k < |results| && results[k].index.Some? && results[k].relevance.Some?
    requires forall i :: 0 <= i < |results| && i != k ==> results[i].index != results[k].index
    ensures LastScore(results, results[k].index.value) == results[k].relevance.value
  {
    if k < |results| - 1 {
      AnsweredOnce(results[..|results| - 1], k);
    }
  }

  // ---- Reranking ----

  /** What reranking leaves of a hit alone. */
  function Core(h: Hit): Hit {
    h.(score := 0.0)
  }

  function Cores(hits: seq<Hit>): (r: seq<Hit>)
    ensures |r| == |hits|
    ensures forall i :: 0 <= i < |r| ==> r[i] == Core(hits[i])
  {
    seq(|hits|, i requires 0 <= i < |hits| => Core(hits[i]))
  }

  /** The same hits, in some order, up to their scores. */
  predicate Rearranged(a: seq<Hit>, b: seq<Hit>) {
    multiset(Cores(a)) == multiset(Cores(b))
  }

  lemma CoresConcat(a: seq<Hit>, b: seq<Hit>)
    ensures Cores(a + b) == Cores(a) + Cores(b)
  {
  }

  lemma {:induction false} InsertedCores(h: Hit, hits: seq<Hit>, order: Order)
    ensures multiset(Cores(Inserted(h, hits, order))) == multiset(Cores(hits)) + multiset{Core(h)}
  {
    CoresConcat([h], hits);
    assert Cores([h]) == [Core(h)];
    if hits != [] && Before(hits[0], h, order) {
      assert hits == [hits[0]] + hits[1..];
      InsertedCores(h, hits[1..], order);
      CoresConcat([hits[0]], Inserted(h, hits[1..], order));
      CoresConcat([hits[0]], hits[1..]);
    }
  }

  lemma {:induction false} SortKeepsCores(hits: seq<Hit>, order: Order)
    ensures Rearranged(SortedBy(hits, order), hits)
  {
    if hits != [] {
      var n := |hits| - 1;
      assert hits == hits[..n] + [hits[n]];
      SortKeepsCores(hits[..n], order);
      InsertedCores(hits[n], SortedBy(hits[..n], order), order);
      CoresConcat(hits[..n], [hits[n]]);
      assert Cores([hits[n]]) == [Core(hits[n])];
    }
  }

  method RescoreAll(hits: seq<Hit>, scores: seq<real>) returns (scored: seq<Hit>)
    requires |scores| == |hits|
    ensures Cores(scored) == Cores(hits)
    ensures forall i :: 0 <= i < |scored| ==> scored[i] == hits[i].(score := scores[i])
  {
    scored := [];
    for i := 0 to |hits|
      invariant |scored| == i
      invariant forall j :: 0 <= j < i ==> scored[j] == hits[j].(score := scores[j])
    {
      scored := scored + [hits[i].(score := scores[i])];
    }
  }

  function AtLeastOne(n: int): nat {
    if n > 1 then n else 1
  }

  /** `front` are the first hits, each with the provider's score for it, best first; `at` says
      which is which, and equal scores keep the order of the input. */
  predicate BestFirst(front: seq<Hit>, hits: seq<Hit>, scores: seq<real>, at: seq<nat>) {
    && |at| == |front| == |scores| <= |hits|
    && (forall j :: 0 <= j < |at| ==> at[j] < |scores| && front[j] == hits[at[j]].(score := scores[at[j]]))
    && (forall j, l :: 0 <= j < l < |at| ==>
          scores[at[j]] > scores[at[l]] || (scores[at[j]] == scores[at[l]] && at[j] < at[l]))
  }

  /** What reranking comes to. */
  ghost predicate Reranked(enabled: bool, hits: seq<Hit>, limit: int, scores: Option<seq<real>>, out: seq<Hit>) {
    var k := if limit >= |hits| then |hits| else if limit > 1 then limit else 1;
    if enabled && |hits| > 1 && scores.Some? && |scores.value| == k then
      |out| == |hits| && out[k..] == hits[k..] && exists at :: BestFirst(out[..k], hits, scores.value, at)
    else out == hits
  }

  lemma SortedIsBestFirst(hits: seq<Hit>, scores: seq<real>, scored: seq<Hit>, out: seq<Hit>, at: seq<nat>)
    requires |scores| <= |hits| && |scored| == |scores|
    requires forall i :: 0 <= i < |scored| ==> scored[i] == hits[i].(score := scores[i])
    requires StablySorted(scored, out, ByScore, at)
    ensures BestFirst(out, hits, scores, at)
  {
    forall j | 0 <= j < |at| ensures at[j] < |scores| && out[j] == hits[at[j]].(score := scores[at[j]]) {
      assert out[j] == scored[at[j]];
    }
    forall j, l | 0 <= j < l < |at|
      ensures scores[at[j]] > scores[at[l]] || (scores[at[j]] == scores[at[l]] && at[j] < at[l]) {
      ScoresInOrder(scores, scored, out, at, j, l);
    }
  }

  lemma ScoresInOrder(scores: seq<real>, scored: seq<Hit>, out: seq<Hit>, at: seq<nat>, j: nat, l: nat)
    requires |scored| == |scores| && forall i :: 0 <= i < |scored| ==> scored[i].score == scores[i]
    requires StablySorted(scored, out, ByScore, at) && j < l < |at|
    ensures scores[at[j]] > scores[at[l]] || (scores[at[j]] == scores[at[l]] && at[j] < at[l])
  {
    assert Before(out[j], out[l], ByScore);
    assert scored[at[j]].score == scores[at[j]] && scored[at[l]].score == scores[at[l]];
  }

  /** Provider-ranked hits, falling back to the input on failure. Whatever the provider
      answers, or fails to answer, no hit is lost, added or repeated. */
  method Rerank(enabled: bool, hits: seq<Hit>, limit: int, scores: Option<seq<real>>) returns (out: seq<Hit>)
    ensures Rearranged(out, hits) && |out| == |hits|
    ensures var k := Smaller(AtLeastOne(limit), |hits|);
            var reranked := enabled && |hits| > 1 && scores.Some? && |scores.value| == k;
            && out[k..] == hits[k..]
            && (reranked ==> Sorted(out[..k], ByScore))
            && (!reranked ==> out == hits)
            && (reranked ==> multiset(out[..k])
                             == multiset(seq(k, i requires 0 <= i < k => hits[i].(score := scores.value[i]))))
    ensures Reranked(enabled, hits, limit, scores, out)
  {
    if !enabled || |hits| <= 1 {
      return hits;
    }
    var k := Smaller(AtLeastOne(limit), |hits|);
    var candidates := hits[..k];
    if scores.None? || |scores.value| != k {
      return hits;
    }
    var scored := RescoreAll(candidates, scores.value);
    assert scored == seq(k, i requires 0 <= i < k => hits[i].(score := scores.value[i]));
    var ordered := SortedBy(scored, ByScore);
    ghost var at := SortIsStable(scored, ByScore);
    SortedIsBestFirst(hits, scores.value, scored, ordered, at);
    SortedIsSorted(scored, ByScore);
    SortKeepsCores(scored, ByScore);
    out := ordered + hits[k..];
    CoresConcat(ordered, hits[k..]);
    CoresConcat(candidates, hits[k..]);
    assert hits == candidates + hits[k..];
    assert out[..k] == ordered;
  }

  // ---- What a rearrangement keeps ----

  lemma RearrangedMember(a: seq<Hit>, b: seq<Hit>, h: Hit)
    requires Rearranged(a, b) && h in a
    ensures exists g :: g in b && Core(g) == Core(h)
  {
    var i :| 0 <= i < |a| && a[i] == h;
    assert Cores(a)[i] in multiset(Cores(b));
    var j :| 0 <= j < |b| && Cores(b)[j] == Core(h);
    assert b[j] in b;
  }

  lemma CoreUri(g: Hit, h: Hit)
    requires Core(g) == Core(h)
    ensures Uri(g) == Uri(h) && g.sourceUri == h.sourceUri
  {
  }

  lemma {:induction false} TwiceIfEqual(s: seq<Hit>, i: nat, j: nat)
    requires i < j < |s| && s[i] == s[j]
    ensures multiset(s)[s[i]] >= 2
  {
    assert s == s[..j] + [s[j]] + s[j + 1..];
    assert s[..j][i] in multiset(s[..j]);
  }

  lemma {:induction false} TwiceMeansEqual(s: seq<Hit>, x: Hit) returns (i: nat, j: nat)
    requires multiset(s)[x] >= 2
    ensures i < j < |s| && s[i] == x && s[j] == x
  {
    var n := |s| - 1;
    assert s == s[..n] + [s[n]];
    if s[n] == x {
      assert x in multiset(s[..n]) && x in s[..n];
      i :| 0 <= i < n && s[..n][i] == x;
      j := n;
    } else {
      i, j := TwiceMeansEqual(s[..n], x);
    }
  }

  lemma RearrangedDistinct(a: seq<Hit>, b: seq<Hit>)
    requires Rearranged(a, b) && DistinctUris(b)
    ensures DistinctUris(a)
  {
    forall i, j | 0 <= i < j < |a| ensures Uri(a[i]) != Uri(a[j]) {
      if Uri(a[i]) == Uri(a[j]) {
        RearrangedClash(a, b, i, j);
      }
    }
  }

  lemma RearrangedClash(a: seq<Hit>, b: seq<Hit>, i: nat, j: nat)
    requires Rearranged(a, b) && i < j < |a| && Uri(a[i]) == Uri(a[j])
    ensures !DistinctUris(b)
  {
    var ca, cb := Cores(a), Cores(b);
    if ca[i] == ca[j] {
      TwiceIfEqual(ca, i, j);
      var k, l := TwiceMeansEqual(cb, ca[i]);
      assert Uri(b[k]) == Uri(cb[k]) && Uri(b[l]) == Uri(cb[l]);
    } else {
      assert ca[i] in multiset(cb) && ca[j] in multiset(cb);
      var k :| 0 <= k < |cb| && cb[k] == ca[i];
      var l :| 0 <= l < |cb| && cb[l] == ca[j];
      assert Uri(b[k]) == Uri(cb[k]) == Uri(ca[i]) == Uri(a[i]);
      assert Uri(b[l]) == Uri(cb[l]) == Uri(ca[j]) == Uri(a[j]);
      assert k != l;
    }
  }

  // ---- The search sequence ----

  /** max(1, min(plan limit or configured limit, configured limit)). */
  function RerankLimit(planLimit: int, configured: int): (r: nat)
    ensures 1 <= r && (configured >= 1 ==> r <= configured)
    ensures planLimit > 0 ==> r <= planLimit
    ensures planLimit <= 0 && configured >= 1 ==> r == if planLimit == 0 then configured else 1
    ensures planLimit > 0 && configured >= 1 ==> r == planLimit || r == configured
    ensures configured < 1 ==> r == 1
  {
    var asked := if planLimit != 0 then planLimit else configured;
    AtLeastOne(if asked < configured then asked else configured)
  }

  datatype SearchConfig = SearchConfig(
    enabled: bool, seedEnabled: bool, finalEnabled: bool,
    planSeedLimit: int, planFinalLimit: int, seedLimit: int, finalLimit: int)

  /** The URIs of the output are distinct and were all hit. */
  ghost predicate Drawn(out: seq<Hit>, pool: seq<Hit>) {
    DistinctUris(out) && forall h :: h in out ==> h.sourceUri in Uris(pool)
  }

  lemma RankedIsDrawn(hits: seq<Hit>, plan: Plan, limit: nat, out: seq<Hit>, pool: seq<Hit>)
    requires RankedBy(hits, plan, limit, out) && forall h :: h in hits ==> h in pool
    ensures Drawn(out, pool) && |out| <= limit
  {
    forall h | h in out ensures h.sourceUri in Uris(pool) {
      var raw :| raw in hits && Uri(raw) == h.sourceUri;
      assert raw in pool && h.sourceUri != "";
    }
  }

  lemma RearrangedIsDrawn(a: seq<Hit>, b: seq<Hit>, pool: seq<Hit>)
    requires Rearranged(a, b) && Drawn(b, pool)
    ensures Drawn(a, pool)
  {
    RearrangedDistinct(a, b);
    forall h | h in a ensures h.sourceUri in Uris(pool) {
      RearrangedMember(a, b, h);
      var g :| g in b && Core(g) == Core(h);
      CoreUri(g, h);
    }
  }

  /** The limit of the ranking that decides: the second one if the expansion found anything. */
  function LastLimit(plan: Plan, cfg: SearchConfig, cone: seq<Hit>): nat {
    if cone == [] && cfg.seedEnabled then RerankLimit(cfg.planSeedLimit, cfg.seedLimit)
    else if cfg.finalEnabled then RerankLimit(cfg.planFinalLimit, cfg.finalLimit)
    else plan.limit
  }

  /** The output is the front of a permutation of a ranking of the pool. */
  ghost predicate FromRanking(pool: seq<Hit>, plan: Plan, limit: nat, out: seq<Hit>) {
    exists ranked, order ::
      && RankedBy(pool, plan, limit, ranked)
      && Rearranged(order, ranked)
      && out == order[..Smaller(plan.limit, |order|)]
  }

  /** The stages of a search: ranked, reranked if the plan asks for it, ranked again with what the
      expansion found, reranked, cut. */
  ghost predicate Stages(raw: seq<Hit>, cone: seq<Hit>, plan: Plan, cfg: SearchConfig,
                         seedScores: Option<seq<real>>, finalScores: Option<seq<real>>,
                         first: seq<Hit>, seeds: seq<Hit>, second: seq<Hit>, finals: seq<Hit>, out: seq<Hit>) {
    var seedLimit, finalLimit := RerankLimit(cfg.planSeedLimit, cfg.seedLimit),
                                 RerankLimit(cfg.planFinalLimit, cfg.finalLimit);
    && RankedBy(raw, plan, if cfg.seedEnabled then seedLimit else if cfg.finalEnabled then finalLimit
                           else plan.limit, first)
    && (if cfg.seedEnabled then Reranked(cfg.enabled, first, seedLimit, seedScores, seeds) else seeds == first)
    && (if cone == [] then second == seeds
        else RankedBy(raw + cone, plan, if cfg.finalEnabled then finalLimit else plan.limit, second))
    && (if cfg.finalEnabled then Reranked(cfg.enabled, second, finalLimit, finalScores, finals) else finals == second)
    && (if |finals| <= plan.limit then out == finals else out == finals[..plan.limit])
  }

  lemma RearrangedAgain(a: seq<Hit>, b: seq<Hit>, c: seq<Hit>)
    requires Rearranged(a, b) && Rearranged(b, c)
    ensures Rearranged(a, c)
  {
  }

  /** Rank, rerank the seeds, expand, rank again, rerank the finals, cut. Whatever the two
      rerankings and the expansion return, the result holds at most the plan's limit of
      distinct URIs, each hit by a raw or an expanded hit. */
  method SearchHits(raw: seq<Hit>, cone: seq<Hit>, plan: Plan, cfg: SearchConfig,
                    seedScores: Option<seq<real>>, finalScores: Option<seq<real>>)
    returns (out: seq<Hit>)
    requires plan.limit >= 1
    ensures |out| <= plan.limit && Drawn(out, raw + cone)
    ensures FromRanking(if cone == [] then raw else raw + cone, plan, LastLimit(plan, cfg, cone), out)
    ensures exists first, seeds, second, finals ::
              Stages(raw, cone, plan, cfg, seedScores, finalScores, first, seeds, second, finals, out)
  {
    var seeds, first := RankSeeds(raw, plan, cfg, seedScores);
    var ranked := seeds;
    if cone != [] {
      var limit := if cfg.finalEnabled then RerankLimit(cfg.planFinalLimit, cfg.finalLimit) else plan.limit;
      ranked := Rank(raw + cone, plan, limit);
    }
    ghost var second := ranked;
    if cfg.finalEnabled {
      ranked := Rerank(cfg.enabled, ranked, RerankLimit(cfg.planFinalLimit, cfg.finalLimit), finalScores);
    }
    out := ranked[..Smaller(plan.limit, |ranked|)];
    CutIsLast(ranked, plan.limit);
    assert Stages(raw, cone, plan, cfg, seedScores, finalScores, first, seeds, second, ranked, out);
    StagesAreDrawn(raw, cone, plan, cfg, seedScores, finalScores, first, seeds, second, ranked, out);
  }

  /** What the stages come to, as rearrangements of a ranking of the pool. */
  lemma StagesAreDrawn(raw: seq<Hit>, cone: seq<Hit>, plan: Plan, cfg: SearchConfig,
                       seedScores: Option<seq<real>>, finalScores: Option<seq<real>>,
                       first: seq<Hit>, seeds: seq<Hit>, second: seq<Hit>, finals: seq<Hit>, out: seq<Hit>)
    requires plan.limit >= 1
    requires Stages(raw, cone, plan, cfg, seedScores, finalScores, first, seeds, second, finals, out)
    requires Rearranged(seeds, first) && Rearranged(finals, second)
    ensures |out| <= plan.limit && Drawn(out, raw + cone)
    ensures FromRanking(if cone == [] then raw else raw + cone, plan, LastLimit(plan, cfg, cone), out)
  {
    var base := if cone == [] then first else second;
    if cone == [] {
      assert raw + cone == raw;
      RearrangedAgain(finals, second, first);
    }
    RankedIsDrawn(raw + cone, plan, LastLimit(plan, cfg, cone), base, raw + cone);
    RearrangedIsDrawn(finals, base, raw + cone);
    CutIsDrawn(finals, plan.limit, raw + cone);
    CutIsLast(finals, plan.limit);
  }

  /** Without reranking the result is the ranking of the whole pool. */
  lemma PlainSearch(raw: seq<Hit>, cone: seq<Hit>, plan: Plan, cfg: SearchConfig,
                    seedScores: Option<seq<real>>, finalScores: Option<seq<real>>,
                    first: seq<Hit>, seeds: seq<Hit>, second: seq<Hit>, finals: seq<Hit>, out: seq<Hit>)
    requires Stages(raw, cone, plan, cfg, seedScores, finalScores, first, seeds, second, finals, out)
    requires !cfg.seedEnabled && !cfg.finalEnabled
    ensures RankedBy(if cone == [] then raw else raw + cone, plan, plan.limit, out)
  {
  }

  lemma CutIsLast(finals: seq<Hit>, limit: nat)
    ensures finals[..Smaller(limit, |finals|)] == if |finals| <= limit then finals else finals[..limit]
  {
  }

  /** The first ranking, reranked if the plan asks for it. */
  method RankSeeds(raw: seq<Hit>, plan: Plan, cfg: SearchConfig, seedScores: Option<seq<real>>)
    returns (seeds: seq<Hit>, ghost base: seq<Hit>)
    requires plan.limit >= 1
    ensures RankedBy(raw, plan, LastLimit(plan, cfg, []), base) && Rearranged(seeds, base)
    ensures !cfg.seedEnabled ==> seeds == base
    ensures cfg.seedEnabled ==>
              Reranked(cfg.enabled, base, RerankLimit(cfg.planSeedLimit, cfg.seedLimit), seedScores, seeds)
  {
    var limit := if cfg.seedEnabled then RerankLimit(cfg.planSeedLimit, cfg.seedLimit)
                 else if cfg.finalEnabled then RerankLimit(cfg.planFinalLimit, cfg.finalLimit)
                 else plan.limit;
    seeds := Rank(raw, plan, limit);
    base := seeds;
    if cfg.seedEnabled {
      seeds := Rerank(cfg.enabled, seeds, limit, seedScores);
    }
  }

  lemma CutIsDrawn(hits: seq<Hit>, limit: nat, pool: seq<Hit>)
    requires Drawn(hits, pool)
    ensures Drawn(hits[..Smaller(limit, |hits|)], pool)
  {
    CutKeeps(hits, Smaller(limit, |hits|), ByScore);
  }
}
