/** Choosing a model within the call budget, and turning its latency budget into a provider plan. */
module Routing {
  import opened Basics
  import opened Models
  import opened Ordering
  import opened Pricing

  datatype ModelDecision = ModelDecision(
    candidate: ModelCandidate,
    route: ProviderRoute,
    score: real,
    baseScore: real,
    predictedCostUsd: real,
    predictedInputCostUsd: real,
    predictedOutputTokens: nat,
    predictedLatencyMs: nat,
    cacheValue: CacheValue)

  datatype Fault =
    | NoCandidates | NoTimeToRoute | ScoreSetMismatch | NoFeasibleModel
    | BudgetConsumed

  /** Everything the router judges candidates against. */
  datatype Request<D> = Request(
    outputTokens: nat,
    capabilities: set<string>,
    minimumQuality: real,
    cache: CacheAnalysis<D>,
    budget: CallBudget,
    contextTokens: nat,
    policy: OperatingPolicy,
    preparationMs: nat,
    scores: map<string, real>)

  // ---------------------------------------------------------------- one candidate

  function Latency(route: ProviderRoute, policy: OperatingPolicy): nat {
    route.p95TotalMs + policy.controllerReserveMs + policy.compactionReserveMs + policy.latencySafetyMarginMs
  }

  function Score(policy: OperatingPolicy, base: real, cost: real, latency: nat, value: CacheValue,
                 budget: CallBudget): real {
    var unit := Max(budget.costUsd, SLACK);
    policy.qualityPriority * base
    - policy.costPriority * (cost / unit)
    - policy.latencyPriority * (latency as real / MaxInt(budget.latencyMs, 1) as real)
    + policy.cachePriority * (value.retainedValueUsd / unit)
    - policy.cachePriority * (value.switchCostUsd / unit)
  }

  predicate Affordable(inputCost: real, cost: real, budget: CallBudget) {
    inputCost <= budget.inputCostUsd + SLACK && cost - inputCost <= budget.outputCostUsd + SLACK
    && cost <= budget.costUsd + SLACK
  }

  /** The decision for one candidate, or nothing when a guard rejects it. */
  function Consider<D(!new)>(c: ModelCandidate, r: Request<D>): Option<ModelDecision>
    requires c.routes != []
  {
    if c.quality < r.minimumQuality || !(r.capabilities <= c.capabilities)
       || r.contextTokens + r.outputTokens > c.contextWindowTokens
       || c.modelId !in r.cache.values || c.modelId !in r.scores
    then None
    else
      var value := r.cache.values[c.modelId];
      var route := RoutedRoute(c.routes, r.contextTokens, r.cache, value, r.outputTokens);
      var cost := RouterCost(route, r.contextTokens, r.cache, value, r.outputTokens);
      var inputCost := RouterInputCost(route, r.contextTokens, r.cache, value);
      var latency := Latency(route, r.policy);
      if r.policy.CapsCost() && !Affordable(inputCost, cost, r.budget) then None
      else if r.policy.CapsLatency() && latency > r.budget.latencyMs then None
      else
        var base := r.scores[c.modelId];
        Some(ModelDecision(c, route, Score(r.policy, base, cost, latency, value, r.budget), base, cost, inputCost,
                           r.outputTokens, latency, value))
  }

  function Admitted<D(!new)>(candidates: seq<ModelCandidate>, r: Request<D>): seq<ModelDecision>
    requires forall c | c in candidates :: c.routes != []
    decreases |candidates|
  {
    if candidates == [] then []
    else
      (match Consider(candidates[0], r) case Some(d) => [d] case None => [])
      + Admitted(candidates[1..], r)
  }

  function RankKey(): ModelDecision -> Key {
    (d: ModelDecision) => Key(d.score, d.baseScore, -d.predictedCostUsd, d.candidate.modelId)
  }

  function RoutingTime<D>(fastestMs: int, r: Request<D>): int {
    r.budget.latencyMs - MaxInt(r.preparationMs, r.policy.controllerReserveMs)
    - r.policy.compactionReserveMs - r.policy.latencySafetyMarginMs - fastestMs
  }

  function FastestMs(routes: seq<ProviderRoute>, best: int): (fastest: int)
    ensures fastest <= best && forall q | q in routes :: fastest <= q.p95TotalMs
    ensures fastest == best || exists q | q in routes :: fastest == q.p95TotalMs
    decreases |routes|
  {
    if routes == [] then best else FastestMs(routes[1..], MinInt(best, routes[0].p95TotalMs))
  }

  /** A latency limit applies, and not even the fastest route of any candidate leaves time to rank them. */
  predicate NoTimeToRank<D>(candidates: seq<ModelCandidate>, r: Request<D>) {
    && r.policy.CapsLatency()
    && (forall c, q | c in candidates && q in c.routes ::
          r.budget.latencyMs
            <= MaxInt(r.preparationMs, r.policy.controllerReserveMs) + r.policy.compactionReserveMs
               + r.policy.latencySafetyMarginMs + q.p95TotalMs)
  }

  predicate Scored<D>(candidates: seq<ModelCandidate>, r: Request<D>) {
    r.scores.Keys == set c | c in candidates :: c.modelId
  }

  /** Of equally cheap routes the faster is taken, and of equally fast ones the first by name. */
  predicate Prompter(a: ProviderRoute, b: ProviderRoute) {
    a.p95TotalMs < b.p95TotalMs || (a.p95TotalMs == b.p95TotalMs && !StringLess(b.routeId, a.routeId))
  }

  /** What every decision of the ranking guarantees about its candidate, its route and the budget. */
  ghost predicate Feasible<D(!new)>(d: ModelDecision, r: Request<D>) {
    && d.candidate.routes != [] && d.predictedOutputTokens == r.outputTokens
    && d.route == RoutedRoute(d.candidate.routes, r.contextTokens, r.cache, d.cacheValue, r.outputTokens)
    && d.candidate.quality >= r.minimumQuality && r.capabilities <= d.candidate.capabilities
    && r.contextTokens + d.predictedOutputTokens <= d.candidate.contextWindowTokens
    && d.candidate.modelId in r.cache.values && d.cacheValue == r.cache.values[d.candidate.modelId]
    && d.predictedCostUsd == RouterCost(d.route, r.contextTokens, r.cache, d.cacheValue, r.outputTokens)
    && d.predictedInputCostUsd == RouterInputCost(d.route, r.contextTokens, r.cache, d.cacheValue)
    && (forall other | other in d.candidate.routes ::
          var cost := RouterCost(other, r.contextTokens, r.cache, d.cacheValue, r.outputTokens);
          && d.predictedCostUsd <= cost
          && (d.predictedCostUsd == cost ==> Prompter(d.route, other)))
    && (r.policy.CapsCost() ==> Affordable(d.predictedInputCostUsd, d.predictedCostUsd, r.budget))
    && (r.policy.CapsLatency() ==> d.predictedLatencyMs <= r.budget.latencyMs)
    && d.predictedLatencyMs == d.route.p95TotalMs + r.policy.controllerReserveMs + r.policy.compactionReserveMs
                                 + r.policy.latencySafetyMarginMs
    && d.candidate.modelId in r.scores && d.baseScore == r.scores[d.candidate.modelId]
    && Weighed(d, r)
  }

  /** The score weighs the model's own score, and its cost, latency, retained and forfeited cache value relative
      to what the call may cost and take. */
  ghost predicate Weighed<D>(d: ModelDecision, r: Request<D>) {
    var dollars, ms := Max(r.budget.costUsd, 0.000000000001), MaxInt(r.budget.latencyMs, 1) as real;
    d.score
      == r.policy.qualityPriority * d.baseScore
         - r.policy.costPriority * (d.predictedCostUsd / dollars)
         - r.policy.latencyPriority * (d.predictedLatencyMs as real / ms)
         + r.policy.cachePriority * (d.cacheValue.retainedValueUsd / dollars)
         - r.policy.cachePriority * (d.cacheValue.switchCostUsd / dollars)
  }

  /** How far two decisions' scores lie apart: the weighted difference of the five ratios. */
  lemma ScoreDifference<D>(a: ModelDecision, b: ModelDecision, r: Request<D>)
    requires Weighed(a, r) && Weighed(b, r)
    ensures var p := r.policy;
            var dollars, ms := Max(r.budget.costUsd, 0.000000000001), MaxInt(r.budget.latencyMs, 1) as real;
            a.score - b.score
              == p.qualityPriority * (a.baseScore - b.baseScore)
                 - p.costPriority * ((a.predictedCostUsd - b.predictedCostUsd) / dollars)
                 - p.latencyPriority * ((a.predictedLatencyMs - b.predictedLatencyMs) as real / ms)
                 + p.cachePriority * ((a.cacheValue.retainedValueUsd - b.cacheValue.retainedValueUsd) / dollars)
                 - p.cachePriority * ((a.cacheValue.switchCostUsd - b.cacheValue.switchCostUsd) / dollars)
  {
    var dollars, ms := Max(r.budget.costUsd, 0.000000000001), MaxInt(r.budget.latencyMs, 1) as real;
    RatioSplits(r.policy.costPriority, a.predictedCostUsd, b.predictedCostUsd, dollars);
    RatioSplits(r.policy.latencyPriority, a.predictedLatencyMs as real, b.predictedLatencyMs as real, ms);
    RatioSplits(r.policy.cachePriority, a.cacheValue.retainedValueUsd, b.cacheValue.retainedValueUsd, dollars);
    RatioSplits(r.policy.cachePriority, a.cacheValue.switchCostUsd, b.cacheValue.switchCostUsd, dollars);
  }

  lemma RatioSplits(weight: real, x: real, y: real, unit: real)
    requires unit > 0.0
    ensures weight * ((x - y) / unit) == weight * (x / unit) - weight * (y / unit)
  {
    assert (x - y) / unit == x / unit - y / unit;
  }

  /** One decision is at least as good as another in everything that is weighed. */
  ghost predicate NoWorse(a: ModelDecision, b: ModelDecision) {
    && a.baseScore >= b.baseScore && a.predictedCostUsd <= b.predictedCostUsd
    && a.predictedLatencyMs <= b.predictedLatencyMs
    && a.cacheValue.retainedValueUsd >= b.cacheValue.retainedValueUsd
    && a.cacheValue.switchCostUsd <= b.cacheValue.switchCostUsd
  }

  /** ... and better in something that the policy gives weight. */
  ghost predicate Better(a: ModelDecision, b: ModelDecision, p: OperatingPolicy) {
    || (p.qualityPriority > 0.0 && a.baseScore > b.baseScore)
    || (p.costPriority > 0.0 && a.predictedCostUsd < b.predictedCostUsd)
    || (p.latencyPriority > 0.0 && a.predictedLatencyMs < b.predictedLatencyMs)
    || (p.cachePriority > 0.0 && a.cacheValue.retainedValueUsd > b.cacheValue.retainedValueUsd)
    || (p.cachePriority > 0.0 && a.cacheValue.switchCostUsd < b.cacheValue.switchCostUsd)
  }

  /** No part of the policy counts against what it is meant to favour. */
  predicate Weighs(p: OperatingPolicy) {
    p.qualityPriority >= 0.0 && p.costPriority >= 0.0 && p.latencyPriority >= 0.0 && p.cachePriority >= 0.0
  }

  function Part(weight: real, x: real, unit: real): real
    requires unit > 0.0
  {
    weight * (x / unit)
  }

  lemma ScoreInParts<D>(d: ModelDecision, r: Request<D>)
    requires Weighed(d, r)
    ensures var p, dollars, ms := r.policy, Max(r.budget.costUsd, 0.000000000001),
            MaxInt(r.budget.latencyMs, 1) as real;
            d.score == Part(p.qualityPriority, d.baseScore, 1.0) - Part(p.costPriority, d.predictedCostUsd, dollars)
                       - Part(p.latencyPriority, d.predictedLatencyMs as real, ms)
                       + Part(p.cachePriority, d.cacheValue.retainedValueUsd, dollars)
                       - Part(p.cachePriority, d.cacheValue.switchCostUsd, dollars)
  {
    assert d.baseScore / 1.0 == d.baseScore;
  }

  lemma BetterScoresHigher<D>(a: ModelDecision, b: ModelDecision, r: Request<D>)
    requires Weighed(a, r) && Weighed(b, r) && NoWorse(a, b) && Weighs(r.policy)
    ensures a.score >= b.score && (Better(a, b, r.policy) ==> a.score > b.score)
  {
    hide Weighed, Part;
    var p, dollars, ms := r.policy, Max(r.budget.costUsd, 0.000000000001), MaxInt(r.budget.latencyMs, 1) as real;
    var v, w := a.cacheValue, b.cacheValue;
    ScoreInParts(a, r);
    ScoreInParts(b, r);
    PartOrders(p.qualityPriority, b.baseScore, a.baseScore, 1.0);
    PartOrders(p.costPriority, a.predictedCostUsd, b.predictedCostUsd, dollars);
    PartOrders(p.latencyPriority, a.predictedLatencyMs as real, b.predictedLatencyMs as real, ms);
    PartOrders(p.cachePriority, w.retainedValueUsd, v.retainedValueUsd, dollars);
    PartOrders(p.cachePriority, v.switchCostUsd, w.switchCostUsd, dollars);
  }

  lemma PartOrders(weight: real, x: real, y: real, unit: real)
    requires weight >= 0.0 && x <= y && unit > 0.0
    ensures Part(weight, x, unit) <= Part(weight, y, unit)
    ensures weight > 0.0 && x < y ==> Part(weight, x, unit) < Part(weight, y, unit)
  {
    QuotientOrders(x, y, unit);
    ProductGrows(x / unit, y / unit, weight);
    if weight > 0.0 && x < y { ProductIsLess(x / unit, y / unit, weight); }
  }

  lemma QuotientOrders(x: real, y: real, unit: real)
    requires x <= y && unit > 0.0
    ensures x / unit <= y / unit && (x < y ==> x / unit < y / unit)
  {
  }

  /** The order of the ranking: higher score, then higher score of the model's own, then lower cost, then name. */
  ghost predicate RanksBefore(a: ModelDecision, b: ModelDecision) {
    || a.score > b.score
    || (a.score == b.score && a.baseScore > b.baseScore)
    || (a.score == b.score && a.baseScore == b.baseScore && a.predictedCostUsd < b.predictedCostUsd)
    || (a.score == b.score && a.baseScore == b.baseScore && a.predictedCostUsd == b.predictedCostUsd
        && !StringLess(a.candidate.modelId, b.candidate.modelId))
  }

  /** In a ranking, a decision that is at least as good as another in every respect, and better in one that the
      policy weighs, comes first: the cheaper, the faster, the higher scored, the one with more cache to keep or
      less to lose. */
  lemma BetterComesFirst<D(!new)>(ranking: seq<ModelDecision>, r: Request<D>, i: nat, j: nat)
    requires forall d | d in ranking :: Feasible(d, r)
    requires forall m, n | 0 <= m < n < |ranking| :: RanksBefore(ranking[m], ranking[n])
    requires Weighs(r.policy)
    requires i < |ranking| && j < |ranking|
    requires NoWorse(ranking[i], ranking[j]) && Better(ranking[i], ranking[j], r.policy)
    ensures i < j
  {
    hide NoWorse, Better, Weighed, Affordable, RouterCost, RouterInputCost, RoutedRoute;
    assert ranking[i] in ranking && ranking[j] in ranking;
    assert j < i ==> RanksBefore(ranking[j], ranking[i]);
    BetterScoresHigher(ranking[i], ranking[j], r);
  }

  lemma KeysRank(a: ModelDecision, b: ModelDecision)
    requires !Less(RankKey()(a), RankKey()(b))
    ensures RanksBefore(a, b)
  {
  }

  /** Which candidates are admitted: those good and capable enough, whose window holds the call, that the cache
      analysis and the ranker know, and whose cheapest route fits the budget's cost and latency where the policy
      limits them. */
  lemma AdmittedIff<D(!new)>(c: ModelCandidate, r: Request<D>)
    requires c.routes != []
    ensures var p, b := r.policy, r.budget;
            Consider(c, r).Some? <==>
              && c.quality >= r.minimumQuality && (forall x | x in r.capabilities :: x in c.capabilities)
              && r.contextTokens + r.outputTokens <= c.contextWindowTokens
              && c.modelId in r.cache.values && c.modelId in r.scores
              && (var value := r.cache.values[c.modelId];
                  var route := RoutedRoute(c.routes, r.contextTokens, r.cache, value, r.outputTokens);
                  var cost := RouterCost(route, r.contextTokens, r.cache, value, r.outputTokens);
                  var input := RouterInputCost(route, r.contextTokens, r.cache, value);
                  && (p.hardCallCostLimitUsd.Some? || p.hardAgentCostLimitUsd.Some? ==>
                        && input <= b.inputCostUsd + 0.000000000001
                        && cost - input <= b.outputCostUsd + 0.000000000001
                        && cost <= b.costUsd + 0.000000000001)
                  && (p.hardCallLatencyLimitMs.Some? || p.hardAgentLatencyLimitMs.Some? ==>
                        route.p95TotalMs + p.controllerReserveMs + p.compactionReserveMs + p.latencySafetyMarginMs
                          <= b.latencyMs))
  {
    hide RoutedRoute, RouterCost, RouterInputCost, Score;
  }

  lemma ConsideredIsFeasible<D(!new)>(c: ModelCandidate, r: Request<D>)
    requires c.routes != [] && Consider(c, r).Some?
    ensures Feasible(Consider(c, r).value, r)
  {
    hide RouterInputCost;
    var d := Consider(c, r).value;
    var key := RouterKey(r.contextTokens, r.cache, d.cacheValue, r.outputTokens);
    FirstLeastIsLeast(c.routes, key);
    forall other | other in c.routes
      ensures var cost := RouterCost(other, r.contextTokens, r.cache, d.cacheValue, r.outputTokens);
              && d.predictedCostUsd <= cost && (d.predictedCostUsd == cost ==> Prompter(d.route, other))
    {
      assert !Less(key(other), key(d.route));
    }
  }

  /** The admitted decisions are exactly those of the candidates that pass every guard. */
  lemma {:induction false} AdmittedExactly<D(!new)>(candidates: seq<ModelCandidate>, r: Request<D>)
    requires forall c | c in candidates :: c.routes != []
    ensures forall d :: d in Admitted(candidates, r) <==> exists c :: c in candidates && Consider(c, r) == Some(d)
    ensures forall d | d in Admitted(candidates, r) :: Feasible(d, r)
    decreases |candidates|
  {
    hide Consider; hide Feasible;
    if candidates != [] {
      AdmittedExactly(candidates[1..], r);
      var first := candidates[0];
      if Consider(first, r).Some? { ConsideredIsFeasible(first, r); }
      assert candidates == [first] + candidates[1..];
      forall d ensures d in Admitted(candidates, r) <==> exists c :: c in candidates && Consider(c, r) == Some(d) {
        if c :| c in candidates && Consider(c, r) == Some(d) {
          assert c == first || c in candidates[1..];
        }
      }
    }
  }

  function Reverse<T>(s: seq<T>): (r: seq<T>)
    ensures |r| == |s| && multiset(r) == multiset(s)
    ensures forall i | 0 <= i < |s| :: r[i] == s[|s| - 1 - i]
    decreases |s|
  {
    if s == [] then []
    else
      assert s == [s[0]] + s[1..];
      Reverse(s[1..]) + [s[0]]
  }

  /** The least time of all the candidates' routes. */
  method FastestOfAll(candidates: seq<ModelCandidate>) returns (fastest: int)
    requires candidates != [] && forall c | c in candidates :: c.routes != []
    ensures forall c, q | c in candidates && q in c.routes :: fastest <= q.p95TotalMs
    ensures exists c, q | c in candidates && q in c.routes :: fastest == q.p95TotalMs
  {
    fastest := candidates[0].routes[0].p95TotalMs as int;
    ghost var c0, q0 := candidates[0], candidates[0].routes[0];
    for i := 0 to |candidates|
      invariant forall j, q | 0 <= j < i && q in candidates[j].routes :: fastest <= q.p95TotalMs
      invariant c0 in candidates && q0 in c0.routes && fastest == q0.p95TotalMs
    {
      var least := FastestMs(candidates[i].routes, fastest);
      if least != fastest {
        c0 := candidates[i];
        q0 :| q0 in candidates[i].routes && least == q0.p95TotalMs;
      }
      fastest := least;
    }
  }

  /** Whether the time budget of the call rules out ranking at all. */
  method TimesOut<D>(candidates: seq<ModelCandidate>, r: Request<D>) returns (late: bool)
    requires candidates != [] && forall c | c in candidates :: c.routes != []
    ensures late <==> NoTimeToRank(candidates, r)
  {
    late := false;
    if r.policy.CapsLatency() {
      var fastest := FastestOfAll(candidates);
      late := RoutingTime(fastest, r) <= 0;
    }
  }

  function BestFirst(decisions: seq<ModelDecision>): (best: seq<ModelDecision>)
    ensures multiset(best) == multiset(decisions)
    ensures forall i, j | 0 <= i < j < |best| :: !Less(RankKey()(best[i]), RankKey()(best[j]))
  {
    SortSorts(decisions, RankKey());
    Reverse(Sort(decisions, RankKey()))
  }

  lemma RankedAreFeasible<D(!new)>(candidates: seq<ModelCandidate>, r: Request<D>, best: seq<ModelDecision>)
    requires forall c | c in candidates :: c.routes != []
    requires multiset(best) == multiset(Admitted(candidates, r))
    ensures forall d | d in best :: Feasible(d, r)
  {
    hide Feasible, Admitted, Consider;
    AdmittedExactly(candidates, r);
    forall d | d in best ensures Feasible(d, r) {
      assert d in multiset(best);
    }
  }

  lemma AdmittedNext<D(!new)>(candidates: seq<ModelCandidate>, r: Request<D>, i: nat)
    requires (forall c | c in candidates :: c.routes != []) && i < |candidates|
    ensures Admitted(candidates[i..], r)
              == (match Consider(candidates[i], r) case Some(d) => [d] case None => [])
                + Admitted(candidates[i + 1..], r)
  {
    hide Consider;
    assert candidates[i..][0] == candidates[i] && candidates[i..][1..] == candidates[i + 1..];
  }

  lemma NothingAdmitted<D(!new)>(r: Request<D>)
    ensures Admitted([], r) == []
  {
  }

  /** Asks for every candidate in turn. */
  method ConsiderAll<D(!new)>(candidates: seq<ModelCandidate>, r: Request<D>) returns (decisions: seq<ModelDecision>)
    requires forall c | c in candidates :: c.routes != []
    ensures decisions == Admitted(candidates, r)
  {
    hide Consider, Admitted;
    decisions := [];
    assert candidates[0..] == candidates;
    for i := 0 to |candidates|
      invariant decisions + Admitted(candidates[i..], r) == Admitted(candidates, r)
    {
      AdmittedNext(candidates, r, i);
      match Consider(candidates[i], r) {
        case Some(d) => decisions := decisions + [d];
        case None =>
      }
    }
    assert candidates[|candidates|..] == [];
    NothingAdmitted(r);
  }

  /** Ranks the feasible candidates, best first.  The four reasons to refuse are tested in turn: nothing to
      rank, no time to rank it, scores for other models, no model that passes every guard. */
  method SelectRanked<D(!new)>(candidates: seq<ModelCandidate>, r: Request<D>)
    returns (ranking: Result<seq<ModelDecision>, Fault>)
    requires forall c | c in candidates :: c.routes != []
    ensures ranking == Err(NoCandidates) <==> candidates == []
    ensures ranking == Err(NoTimeToRoute) <==> candidates != [] && NoTimeToRank(candidates, r)
    ensures ranking == Err(ScoreSetMismatch) <==>
              candidates != [] && !NoTimeToRank(candidates, r) && !Scored(candidates, r)
    ensures ranking == Err(NoFeasibleModel) <==>
              candidates != [] && !NoTimeToRank(candidates, r) && Scored(candidates, r) && Admitted(candidates, r) == []
    ensures ranking.Ok? <==>
              candidates != [] && !NoTimeToRank(candidates, r) && Scored(candidates, r) && Admitted(candidates, r) != []
    ensures ranking.Ok? ==>
              && multiset(ranking.value) == multiset(Admitted(candidates, r))
              && (forall i, j | 0 <= i < j < |ranking.value| ::
                    RanksBefore(ranking.value[i], ranking.value[j]))
              && ranking.value != [] && (forall d | d in ranking.value :: Feasible(d, r))
  {
    hide Less, NoTimeToRank, BestFirst, Feasible, Admitted, RanksBefore;
    if candidates == [] { return Err(NoCandidates); }
    var late := TimesOut(candidates, r);
    if late { return Err(NoTimeToRoute); }
    if r.scores.Keys != (set c | c in candidates :: c.modelId) { return Err(ScoreSetMismatch); }
    var decisions := ConsiderAll(candidates, r);
    if decisions == [] { return Err(NoFeasibleModel); }
    var best := BestFirst(decisions);
    RankedAreFeasible(candidates, r, best);
    forall i, j | 0 <= i < j < |best| ensures RanksBefore(best[i], best[j]) {
      KeysRank(best[i], best[j]);
    }
    return Ok(best);
  }

  // ---------------------------------------------------------------- the provider window

  datatype Mode = Sticky | Deadline | Direct

  datatype ProviderPlan = ProviderPlan(
    mode: Mode, modelId: string, routes: seq<ProviderRoute>, startWithinMs: int, totalTimeoutMs: int,
    latencyBudgetMs: int)

  /** Time already used, or set aside, before a provider is called. */
  function Preparation(policy: OperatingPolicy, preparationMs: nat): (used: nat)
    ensures used >= preparationMs && used >= policy.controllerReserveMs + policy.compactionReserveMs
    ensures used == preparationMs || used == policy.controllerReserveMs + policy.compactionReserveMs
  {
    MaxInt(preparationMs, policy.controllerReserveMs + policy.compactionReserveMs)
  }

  /** A latency limit applies, and preparing the call has left nothing of it. */
  predicate TimeIsUp(budget: CallBudget, policy: OperatingPolicy, preparationMs: nat) {
    policy.CapsLatency() && budget.latencyMs <= Preparation(policy, preparationMs) + policy.latencySafetyMarginMs
  }

  function ExecutionBudget(budget: CallBudget, policy: OperatingPolicy, preparationMs: nat, minimumMs: nat)
    : Result<int, Fault>
  {
    if !policy.CapsLatency() then Ok(MaxInt(budget.latencyMs, minimumMs))
    else
      var available := budget.latencyMs - Preparation(policy, preparationMs) - policy.latencySafetyMarginMs;
      if available <= 0 then Err(BudgetConsumed) else Ok(available)
  }

  function GuaranteedOnly(routes: seq<ProviderRoute>): (g: seq<ProviderRoute>)
    ensures forall r :: r in g <==> r in routes && r.guaranteed
    decreases |routes|
  {
    if routes == [] then []
    else (if routes[0].guaranteed then [routes[0]] else []) + GuaranteedOnly(routes[1..])
  }

  function GuaranteedPool(routes: seq<ProviderRoute>): (pool: seq<ProviderRoute>)
    requires routes != []
    ensures pool != [] && forall r | r in pool :: r in routes
  {
    if GuaranteedOnly(routes) != [] then GuaranteedOnly(routes) else routes
  }

  function SafetyKey(): ProviderRoute -> Key {
    (r: ProviderRoute) => Key(r.p95TotalMs as real, r.p95TtftMs as real, 0.0, r.routeId)
  }

  function SpeedKey(): ProviderRoute -> Key {
    (r: ProviderRoute) => Key(r.p95TotalMs as real, 0.0, 0.0, r.routeId)
  }

  /** The fastest route that is guaranteed, or the fastest one when none is. */
  function Guaranteed(routes: seq<ProviderRoute>): (g: ProviderRoute)
    requires routes != []
    ensures g in routes
  {
    FirstLeast(GuaranteedPool(routes), SafetyKey())
  }

  function ExplorationWindow(policy: OperatingPolicy, slack: nat): (window: int)
    requires policy.Valid()
    ensures 0 <= window <= slack && window <= policy.maximumProviderExplorationMs
    ensures window as real <= slack as real * policy.providerExplorationFraction
    ensures window == policy.maximumProviderExplorationMs
            || slack as real * policy.providerExplorationFraction < (window + 1) as real
  {
    FractionAtMost(slack, policy.providerExplorationFraction);
    MinInt(policy.maximumProviderExplorationMs, (slack as real * policy.providerExplorationFraction).Floor)
  }

  lemma FractionAtMost(n: nat, f: real)
    requires 0.0 <= f <= 1.0
    ensures 0 <= (n as real * f).Floor <= n
  {
    assert n as real * f <= n as real * 1.0;
  }

  lemma {:induction false} CountSplits(
    routes: seq<ProviderRoute>, middle: seq<ProviderRoute>, a: ProviderRoute, b: ProviderRoute)
    requires a in routes && b in routes && a.routeId != b.routeId
    requires forall i, j | 0 <= i < j < |routes| :: routes[i].routeId != routes[j].routeId
    requires forall i, j | 0 <= i < j < |middle| :: middle[i].routeId != middle[j].routeId
    requires forall r :: r in middle <==> r in routes && r.routeId != a.routeId && r.routeId != b.routeId
    ensures multiset([a] + middle + [b]) == multiset(routes)
  {
    var whole := [a] + middle + [b];
    OnceEach(routes);
    OnceEach(middle);
    forall r ensures multiset(whole)[r] == multiset(routes)[r] {
      assert r in routes <==> r == a || r == b || r in middle by {
        if r in routes && r.routeId == a.routeId { SameRoute(routes, r, a); }
        if r in routes && r.routeId == b.routeId { SameRoute(routes, r, b); }
      }
      assert multiset(whole)[r] == multiset([a])[r] + multiset(middle)[r] + multiset([b])[r];
    }
  }

  lemma SameRoute(routes: seq<ProviderRoute>, r: ProviderRoute, q: ProviderRoute)
    requires r in routes && q in routes && r.routeId == q.routeId
    requires forall i, j | 0 <= i < j < |routes| :: routes[i].routeId != routes[j].routeId
    ensures r == q
  {
    var i :| 0 <= i < |routes| && routes[i] == r;
    var j :| 0 <= j < |routes| && routes[j] == q;
  }

  lemma {:induction false} OnceEach(routes: seq<ProviderRoute>)
    requires forall i, j | 0 <= i < j < |routes| :: routes[i].routeId != routes[j].routeId
    ensures forall r :: multiset(routes)[r] == if r in routes then 1 else 0
    decreases |routes|
  {
    if routes != [] {
      assert routes == [routes[0]] + routes[1..];
      OnceEach(routes[1..]);
    }
  }

  lemma SortKeepsRoutes(routes: seq<ProviderRoute>)
    requires forall i, j | 0 <= i < j < |routes| :: routes[i].routeId != routes[j].routeId
    ensures var s := Sort(routes, SpeedKey());
            && (forall r :: r in s <==> r in routes)
            && (forall i, j | 0 <= i < j < |s| :: s[i].routeId != s[j].routeId)
  {
    var s := Sort(routes, SpeedKey());
    forall r ensures r in s <==> r in routes {
      assert r in multiset(s) <==> r in multiset(routes);
    }
    OnceEach(routes);
    forall i, j | 0 <= i < j < |s| ensures s[i].routeId != s[j].routeId {
      if s[i].routeId == s[j].routeId {
        SameRoute(routes, s[i], s[j]);
        TwiceCounted(s, i, j);
      }
    }
  }

  /** Cheapest first, then the other routes from fastest to slowest, the guaranteed route last. */
  method Escalation(routes: seq<ProviderRoute>, cheapest: ProviderRoute, guaranteed: ProviderRoute)
    returns (ordered: seq<ProviderRoute>)
    requires cheapest in routes && guaranteed in routes && cheapest.routeId != guaranteed.routeId
    requires forall i, j | 0 <= i < j < |routes| :: routes[i].routeId != routes[j].routeId
    ensures multiset(ordered) == multiset(routes) && |ordered| >= 2
    ensures ordered[0] == cheapest && ordered[|ordered| - 1] == guaranteed
    ensures forall i, j | 0 < i < j < |ordered| - 1 :: Prompter(ordered[i], ordered[j])
    ensures forall r | r in ordered :: r in routes
  {
    hide Sort, Less, Prompter, SpeedKey;
    var sorted := Sort(routes, SpeedKey());
    SortKeepsRoutes(routes);
    SortSorts(routes, SpeedKey());
    var middle: seq<ProviderRoute> := [];
    for i := 0 to |sorted|
      invariant forall r :: r in middle <==>
                  r in sorted[..i] && r.routeId != cheapest.routeId && r.routeId != guaranteed.routeId
      invariant forall j, k | 0 <= j < k < |middle| :: middle[j].routeId != middle[k].routeId
      invariant Sorted(middle, SpeedKey())
    {
      assert sorted[..i + 1] == sorted[..i] + [sorted[i]];
      if sorted[i].routeId != cheapest.routeId && sorted[i].routeId != guaranteed.routeId {
        forall j | 0 <= j < |middle|
          ensures middle[j].routeId != sorted[i].routeId
          ensures !Less(SpeedKey()(sorted[i]), SpeedKey()(middle[j]))
        {
          assert middle[j] in sorted[..i];
          var k :| 0 <= k < i && sorted[k] == middle[j];
        }
        middle := middle + [sorted[i]];
      }
    }
    assert sorted[..|sorted|] == sorted;
    CountSplits(routes, middle, cheapest, guaranteed);
    ordered := [cheapest] + middle + [guaranteed];
    MiddleIsOrdered(ordered, middle);
  }

  lemma MiddleIsOrdered(ordered: seq<ProviderRoute>, middle: seq<ProviderRoute>)
    requires Sorted(middle, SpeedKey()) && |ordered| == |middle| + 2 && ordered[1..|ordered| - 1] == middle
    ensures forall i, j | 0 < i < j < |ordered| - 1 :: Prompter(ordered[i], ordered[j])
  {
    hide Less, Prompter;
    forall i, j | 0 < i < j < |ordered| - 1 ensures Prompter(ordered[i], ordered[j]) {
      assert ordered[i] == middle[i - 1] && ordered[j] == middle[j - 1];
      SpeedOrders(ordered[i], ordered[j]);
    }
  }

  lemma SpeedOrders(a: ProviderRoute, b: ProviderRoute)
    requires !Less(SpeedKey()(b), SpeedKey()(a))
    ensures Prompter(a, b)
  {
  }

  /** Plans the providers of a chosen model.  A deadline plan tries every route of the candidate once,
      from the one the router priced to the guaranteed one, inside the time that is left. */
  method Plan<D(!new)>(
    d: ModelDecision, cache: CacheAnalysis<D>, budget: CallBudget, contextTokens: nat,
    policy: OperatingPolicy, preparationMs: nat)
    returns (plan: Result<ProviderPlan, Fault>)
    requires d.candidate.Valid() && policy.Valid()
    ensures plan.Err? <==> TimeIsUp(budget, policy, preparationMs)
    ensures plan.Err? ==> plan.error == BudgetConsumed
    ensures plan.Ok? && policy.CapsLatency() ==>
              plan.value.totalTimeoutMs + Preparation(policy, preparationMs) + policy.latencySafetyMarginMs
                == budget.latencyMs
    ensures plan.Ok? ==>
              && plan.value.modelId == d.candidate.modelId && plan.value.routes != []
              && plan.value.latencyBudgetMs == budget.latencyMs
              && forall r | r in plan.value.routes :: r in d.candidate.routes
    ensures plan.Ok? && !policy.CapsLatency() ==>
              plan.value.totalTimeoutMs
                == MaxInt(budget.latencyMs, (if plan.value.mode == Sticky then plan.value.routes[0]
                                             else Guaranteed(d.candidate.routes)).p95TotalMs)
    ensures plan.Ok? ==>
              (plan.value.mode == Sticky <==>
                 && cache.lastModelId == Some(d.candidate.modelId) && cache.lastProvider.Some?
                 && exists r | r in d.candidate.routes :: r.provider == cache.lastProvider.value)
    ensures plan.Ok? && plan.value.mode != Sticky ==>
              var p, g := plan.value, Guaranteed(d.candidate.routes);
              var first := RoutedRoute(d.candidate.routes, contextTokens, cache, d.cacheValue, d.predictedOutputTokens);
              var window := ExplorationWindow(policy, MaxInt(0, p.totalTimeoutMs - g.p95TotalMs));
              && (p.mode == Direct <==> first.routeId == g.routeId || window == 0)
              && (p.mode == Deadline ==> p.startWithinMs == window)
    ensures plan.Ok? && plan.value.mode == Sticky ==>
              && |plan.value.routes| == 1 && plan.value.startWithinMs == 0
              && cache.lastProvider == Some(plan.value.routes[0].provider)
              && (exists i | 0 <= i < |d.candidate.routes| ::
                    && d.candidate.routes[i] == plan.value.routes[0]
                    && forall j | 0 <= j < i :: Some(d.candidate.routes[j].provider) != cache.lastProvider)
    ensures plan.Ok? && plan.value.mode == Direct ==>
              plan.value.routes == [Guaranteed(d.candidate.routes)] && plan.value.startWithinMs == 0
    ensures plan.Ok? && plan.value.mode == Deadline ==>
              var p, g := plan.value, Guaranteed(d.candidate.routes);
              && multiset(p.routes) == multiset(d.candidate.routes)
              && p.routes[0] == RoutedRoute(d.candidate.routes, contextTokens, cache, d.cacheValue,
                                            d.predictedOutputTokens)
              && p.routes[|p.routes| - 1] == g && p.routes[0] != g
              && 0 < p.startWithinMs <= policy.maximumProviderExplorationMs
              && p.startWithinMs + g.p95TotalMs <= p.totalTimeoutMs
              && (policy.CapsLatency() ==>
                    Preparation(policy, preparationMs) + policy.latencySafetyMarginMs + p.startWithinMs + g.p95TotalMs
                      <= budget.latencyMs)
  {
    hide FirstLeast; hide RoutedRoute; hide Guaranteed; hide ExplorationWindow; hide AllocatorKey; hide RouterKey;
    hide Less;
    var routes := d.candidate.routes;
    if cache.lastModelId == Some(d.candidate.modelId) && cache.lastProvider.Some? {
      for i := 0 to |routes|
        invariant forall j | 0 <= j < i :: routes[j].provider != cache.lastProvider.value
      {
        if routes[i].provider == cache.lastProvider.value {
          var total := ExecutionBudget(budget, policy, preparationMs, routes[i].p95TotalMs);
          match total {
            case Err(fault) => return Err(fault);
            case Ok(ms) =>
              return Ok(ProviderPlan(Sticky, d.candidate.modelId, [routes[i]], 0, ms, budget.latencyMs));
          }
        }
      }
    }
    var cheapest := FirstLeast(routes, AllocatorKey(d.cacheValue, d.predictedOutputTokens, cache, contextTokens));
    AllocatorPicksRoutedRoute(routes, contextTokens, cache, d.cacheValue, d.predictedOutputTokens);
    var guaranteed := Guaranteed(routes);
    var execution := ExecutionBudget(budget, policy, preparationMs, guaranteed.p95TotalMs);
    if execution.Err? { return Err(execution.error); }
    var slack := MaxInt(0, execution.value - guaranteed.p95TotalMs);
    var window := ExplorationWindow(policy, slack);
    if cheapest.routeId == guaranteed.routeId || window <= 0 {
      return Ok(ProviderPlan(Direct, d.candidate.modelId, [guaranteed], 0, execution.value, budget.latencyMs));
    }
    var ordered := Escalation(routes, cheapest, guaranteed);
    return Ok(ProviderPlan(Deadline, d.candidate.modelId, ordered, window, execution.value, budget.latencyMs));
  }

  /** The guaranteed route is guaranteed if any route is; of those, or of all when there is none, it is the fastest,
      then the one that answers first, then the first by name. */
  lemma GuaranteedIsSafest(routes: seq<ProviderRoute>)
    requires routes != []
    ensures Guaranteed(routes) in routes
    ensures (exists r :: r in routes && r.guaranteed) ==> Guaranteed(routes).guaranteed
    ensures forall r | r in routes && (r.guaranteed || forall q | q in routes :: !q.guaranteed) ::
              var g := Guaranteed(routes);
              || g.p95TotalMs < r.p95TotalMs
              || (g.p95TotalMs == r.p95TotalMs && g.p95TtftMs < r.p95TtftMs)
              || (g.p95TotalMs == r.p95TotalMs && g.p95TtftMs == r.p95TtftMs && !StringLess(r.routeId, g.routeId))
  {
    FirstLeastIsLeast(GuaranteedPool(routes), SafetyKey());
    if GuaranteedOnly(routes) == [] {
      forall q | q in routes ensures !q.guaranteed { assert q.guaranteed ==> q in GuaranteedOnly(routes); }
    }
    assert forall r | r in GuaranteedPool(routes) :: !Less(SafetyKey()(r), SafetyKey()(Guaranteed(routes)));
  }
}
