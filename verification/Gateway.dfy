/** One gateway: a controller, a prompt cache and a compactor working on the same call. */
module Gateway {
  import opened Basics
  import opened Models
  import opened Routing
  import opened Ordering
  import opened PromptCache
  import opened Failover
  import opened Tallies
  import opened Pricing
  import C = Compaction
  import L = ControllerLedger
  import G = GlobalController

  // ---------------------------------------------------------------- what a finished call is charged

  datatype ModelUsage = ModelUsage(
    modelId: string, provider: string, inputTokens: nat, outputTokens: nat,
    cacheReadTokens: nat, cacheWriteTokens: nat, latencyMs: nat, costUsd: Option<real>)

  function Total(read: real, readRate: real, write: real, writeRate: real, plain: real, plainRate: real,
                 output: real, outputRate: real): real
  {
    (read * readRate + write * writeRate + plain * plainRate + output * outputRate) / MILLION
  }

  function Cost(u: ModelUsage, route: ProviderRoute, cacheWritePrice: Option<real>): real {
    var read := MinInt(u.inputTokens, u.cacheReadTokens);
    var remaining := MaxInt(0, u.inputTokens - read);
    var write := MinInt(remaining, u.cacheWriteTokens);
    var plain := MaxInt(0, remaining - write);
    var writeRate := if cacheWritePrice.Some? then cacheWritePrice.value else route.inputPrice;
    Total(read as real, route.CachedRate(), write as real, writeRate, plain as real, route.inputPrice,
          u.outputTokens as real, route.outputPrice)
  }

  /** Every input token is charged once: as read from the cache if as many were reported, else as written to it if
      as many were reported, else plainly; and every output token. */
  lemma CostMeaning(u: ModelUsage, route: ProviderRoute, cacheWritePrice: Option<real>, read: nat, write: nat,
                    plain: nat)
    requires read + write + plain == u.inputTokens && read <= u.cacheReadTokens && write <= u.cacheWriteTokens
    requires write + plain > 0 ==> read == u.cacheReadTokens
    requires plain > 0 ==> write == u.cacheWriteTokens
    ensures var readRate := if route.cacheReadPrice.Some? then route.cacheReadPrice.value else route.inputPrice;
            var writeRate := if cacheWritePrice.Some? then cacheWritePrice.value else route.inputPrice;
            Cost(u, route, cacheWritePrice)
              == (read as real * readRate + write as real * writeRate + plain as real * route.inputPrice
                  + u.outputTokens as real * route.outputPrice) / 1000000.0
  {
    var readRate := if route.cacheReadPrice.Some? then route.cacheReadPrice.value else route.inputPrice;
    var writeRate := if cacheWritePrice.Some? then cacheWritePrice.value else route.inputPrice;
    hide Cost;
    CostIsTotal(u, route, cacheWritePrice, read, write, plain);
    TotalIs(read as real, readRate, write as real, writeRate, plain as real, route.inputPrice, u.outputTokens as real,
            route.outputPrice);
    hide Total;
  }

  lemma CostIsTotal(u: ModelUsage, route: ProviderRoute, cacheWritePrice: Option<real>, read: nat, write: nat,
                    plain: nat)
    requires read + write + plain == u.inputTokens && read <= u.cacheReadTokens && write <= u.cacheWriteTokens
    requires write + plain > 0 ==> read == u.cacheReadTokens
    requires plain > 0 ==> write == u.cacheWriteTokens
    ensures var readRate := if route.cacheReadPrice.Some? then route.cacheReadPrice.value else route.inputPrice;
            var writeRate := if cacheWritePrice.Some? then cacheWritePrice.value else route.inputPrice;
            Cost(u, route, cacheWritePrice)
              == Total(read as real, readRate, write as real, writeRate, plain as real, route.inputPrice,
                       u.outputTokens as real, route.outputPrice)
  {
    hide Total;
  }

  lemma TotalIs(read: real, readRate: real, write: real, writeRate: real, plain: real, plainRate: real,
                output: real, outputRate: real)
    ensures Total(read, readRate, write, writeRate, plain, plainRate, output, outputRate)
              == (read * readRate + write * writeRate + plain * plainRate + output * outputRate) / 1000000.0
  {
  }

  lemma CostIsNotNegative(u: ModelUsage, route: ProviderRoute, cacheWritePrice: Option<real>)
    requires route.Valid() && (cacheWritePrice.Some? ==> cacheWritePrice.value >= 0.0)
    ensures Cost(u, route, cacheWritePrice) >= 0.0
  {
    hide Total;
    var read := MinInt(u.inputTokens, u.cacheReadTokens);
    var remaining := MaxInt(0, u.inputTokens - read);
    var write := MinInt(remaining, u.cacheWriteTokens);
    var writeRate := if cacheWritePrice.Some? then cacheWritePrice.value else route.inputPrice;
    TotalIsNotNegative(read as real, route.CachedRate(), write as real, writeRate,
                       MaxInt(0, remaining - write) as real, route.inputPrice,
                       u.outputTokens as real, route.outputPrice);
  }

  lemma TotalIsNotNegative(read: real, readRate: real, write: real, writeRate: real, plain: real, plainRate: real,
                           output: real, outputRate: real)
    requires read >= 0.0 && readRate >= 0.0 && write >= 0.0 && writeRate >= 0.0
    requires plain >= 0.0 && plainRate >= 0.0 && output >= 0.0 && outputRate >= 0.0
    ensures Total(read, readRate, write, writeRate, plain, plainRate, output, outputRate) >= 0.0
  {
    ProductGrows(0.0, read, readRate);
    ProductGrows(0.0, write, writeRate);
    ProductGrows(0.0, plain, plainRate);
    ProductGrows(0.0, output, outputRate);
  }

  /** The cached tokens the router counted on. */
  function RoutedCached<D>(route: ProviderRoute, required: nat, cache: CacheAnalysis<D>, value: CacheValue): int {
    var exact := value.exactReuse && value.provider == route.provider && route.cacheSupported;
    if exact && RouterKeepsCache(cache, required) then MinInt(required, value.cachedTokens) else 0
  }

  /** Using no more tokens than planned, and reading at least the cached ones, costs at most the plan. */
  lemma InputWithinPlan(used: real, read: real, planned: real, cached: real, cachedRate: real, inputRate: real)
    requires 0.0 <= read <= used <= planned && 0.0 <= cached <= planned && (read == used || read >= cached)
    requires 0.0 <= cachedRate <= inputRate
    ensures read * cachedRate + (used - read) * inputRate <= cached * cachedRate + (planned - cached) * inputRate
  {
    if read >= cached {
      ProductGrows(used - read, planned - read, inputRate);
      var moved := read - cached;
      ProductGrows(0.0, moved, inputRate - cachedRate);
      assert (planned - cached) * inputRate == (planned - read) * inputRate + moved * inputRate;
      assert read * cachedRate == cached * cachedRate + moved * cachedRate;
      assert moved * (inputRate - cachedRate) == moved * inputRate - moved * cachedRate;
    } else {
      ProductGrows(read, cached, cachedRate);
      ProductGrows(0.0, planned - cached, inputRate);
      assert (used - read) * inputRate == 0.0;
    }
  }

  /** The input tokens written to the cache: of those not read from it, as many as were reported. */
  function Written(u: ModelUsage): (n: nat)
    ensures n <= u.cacheWriteTokens
  {
    MinInt(u.inputTokens - MinInt(u.inputTokens, u.cacheReadTokens), u.cacheWriteTokens)
  }

  /** What writing to the cache costs above plain input: nothing unless a write price is quoted above it. */
  function WriteSurcharge(u: ModelUsage, route: ProviderRoute, cacheWritePrice: Option<real>): (extra: real)
    ensures cacheWritePrice.None? || cacheWritePrice.value <= route.inputPrice || u.cacheWriteTokens == 0 ==>
              extra == 0.0
  {
    if cacheWritePrice.None? || cacheWritePrice.value <= route.inputPrice || Written(u) == 0 then 0.0
    else Written(u) as real * (cacheWritePrice.value - route.inputPrice) / MILLION
  }

  /** A call that uses no more tokens than planned, and reads the cached ones, costs at most what the router
      predicted for it and the surcharge on its cache writes. */
  lemma PredictedUsageCostsAtMostThePrediction<D>(
    u: ModelUsage, route: ProviderRoute, cacheWritePrice: Option<real>,
    required: nat, cache: CacheAnalysis<D>, value: CacheValue, output: nat)
    requires route.Valid() && route.CachedRate() <= route.inputPrice
    requires u.inputTokens <= required && u.outputTokens <= output
    requires u.cacheReadTokens >= MinInt(u.inputTokens, RoutedCached(route, required, cache, value))
    ensures Cost(u, route, cacheWritePrice)
              <= RouterCost(route, required, cache, value, output) + WriteSurcharge(u, route, cacheWritePrice)
  {
    hide RoutedCached, Cost, RouterCost, WriteSurcharge;
    var read := MinInt(u.inputTokens, u.cacheReadTokens);
    var cached := RoutedCached(route, required, cache, value);
    PlannedSplit(route, required, cache, value, output);
    CostAboveUnwritten(u, route, cacheWritePrice);
    PlanCovers(u.inputTokens as real, read as real, required as real, cached as real, route.CachedRate(),
               route.inputPrice, u.outputTokens as real, output as real, route.outputPrice);
  }

  lemma PlanCovers(used: real, read: real, planned: real, cached: real, cachedRate: real, inputRate: real,
                   output: real, plannedOutput: real, outputRate: real)
    requires 0.0 <= read <= used <= planned && 0.0 <= cached <= planned && (read == used || read >= cached)
    requires 0.0 <= cachedRate <= inputRate && output <= plannedOutput && outputRate >= 0.0
    ensures (read * cachedRate + (used - read) * inputRate + output * outputRate) / MILLION
         <= (cached * cachedRate + (planned - cached) * inputRate + plannedOutput * outputRate) / MILLION
  {
    InputWithinPlan(used, read, planned, cached, cachedRate, inputRate);
    ProductGrows(output, plannedOutput, outputRate);
    PerMillion(read * cachedRate + (used - read) * inputRate, output * outputRate,
               cached * cachedRate + (planned - cached) * inputRate, plannedOutput * outputRate);
  }

  lemma PerMillion(a: real, b: real, c: real, d: real)
    requires a <= c && b <= d
    ensures (a + b) / MILLION <= (c + d) / MILLION
  {
  }

  lemma PlannedSplit<D>(route: ProviderRoute, required: nat, cache: CacheAnalysis<D>, value: CacheValue, output: nat)
    ensures var cached := RoutedCached(route, required, cache, value);
            0 <= cached <= required && RouterCost(route, required, cache, value, output)
              == (cached as real * route.CachedRate() + (required as real - cached as real) * route.inputPrice
                  + output as real * route.outputPrice) / MILLION
  {
    hide RouterKeepsCache;
  }

  lemma CostAboveUnwritten(u: ModelUsage, route: ProviderRoute, cacheWritePrice: Option<real>)
    ensures var read := MinInt(u.inputTokens, u.cacheReadTokens);
            Cost(u, route, cacheWritePrice)
              <= (read as real * route.CachedRate() + (u.inputTokens as real - read as real) * route.inputPrice
                  + u.outputTokens as real * route.outputPrice) / MILLION + WriteSurcharge(u, route, cacheWritePrice)
  {
    hide Total, WriteSurcharge;
    var read, write := MinInt(u.inputTokens, u.cacheReadTokens), Written(u);
    var writeRate := if cacheWritePrice.Some? then cacheWritePrice.value else route.inputPrice;
    SplitTotal(read as real, route.CachedRate(), write as real, writeRate, (u.inputTokens - read - write) as real,
               route.inputPrice, u.outputTokens as real, route.outputPrice);
    SurchargeCovers(u, route, cacheWritePrice);
  }

  lemma SplitTotal(read: real, readRate: real, write: real, writeRate: real, plain: real, plainRate: real,
                   output: real, outputRate: real)
    ensures Total(read, readRate, write, writeRate, plain, plainRate, output, outputRate)
              == (read * readRate + (write + plain) * plainRate + output * outputRate) / MILLION
                 + write * (writeRate - plainRate) / MILLION
  {
    assert write * (writeRate - plainRate) == write * writeRate - write * plainRate;
    assert (write + plain) * plainRate == write * plainRate + plain * plainRate;
  }

  lemma SurchargeCovers(u: ModelUsage, route: ProviderRoute, cacheWritePrice: Option<real>)
    ensures var writeRate := if cacheWritePrice.Some? then cacheWritePrice.value else route.inputPrice;
            Written(u) as real * (writeRate - route.inputPrice) / MILLION <= WriteSurcharge(u, route, cacheWritePrice)
  {
    var writeRate := if cacheWritePrice.Some? then cacheWritePrice.value else route.inputPrice;
    var n := Written(u) as real;
    if writeRate <= route.inputPrice || Written(u) == 0 {
      NoSurcharge(n, writeRate - route.inputPrice);
    } else {
      assert writeRate == cacheWritePrice.value;
    }
  }

  lemma NoSurcharge(n: real, above: real)
    requires n >= 0.0 && (above <= 0.0 || n == 0.0)
    ensures n * above / MILLION <= 0.0
  {
    assert n * above <= 0.0;
  }

  /** So such a call settles inside its reservation, but for that surcharge, when the policy caps cost. */
  lemma PredictedUsageFitsTheReservation<D(!new)>(
    d: ModelDecision, r: Request<D>, u: ModelUsage, cacheWritePrice: Option<real>)
    requires Feasible(d, r) && r.policy.CapsCost()
    requires d.route.Valid() && d.route.CachedRate() <= d.route.inputPrice
    requires u.inputTokens <= r.contextTokens && u.outputTokens <= r.outputTokens
    requires u.cacheReadTokens >= MinInt(u.inputTokens, RoutedCached(d.route, r.contextTokens, r.cache, d.cacheValue))
    ensures Cost(u, d.route, cacheWritePrice) <= r.budget.costUsd + SLACK + WriteSurcharge(u, d.route, cacheWritePrice)
  {
    hide Cost, RouterCost, RoutedCached, WriteSurcharge;
    PredictedUsageCostsAtMostThePrediction(u, d.route, cacheWritePrice, r.contextTokens, r.cache, d.cacheValue,
                                           r.outputTokens);
  }

  // ---------------------------------------------------------------- preparing a call

  datatype Intent = Intent(
    sessionId: string, messages: seq<Message>, tools: seq<ToolSpec>, capabilities: set<string>, minimumQuality: real)

  /** What the surroundings contribute to a preparation: the predictions, the clock, and failures. */
  datatype Outside = Outside(
    output: nat, allocation: Option<AllocationDecision>, scores: Option<map<string, real>>,
    now: int, beginMs: int, commitMs: int, rankingMs: nat, planningMs: nat, preparationMs: nat)

  datatype Refusal =
    | BudgetRefused(budget: L.Fault) | AllocatorFailed | RankingFailed | Unroutable(routing: Routing.Fault)
    | NotCompacted

  predicate UniqueIds(candidates: seq<ModelCandidate>) {
    forall i, j | 0 <= i < j < |candidates| :: candidates[i].modelId != candidates[j].modelId
  }

  lemma {:induction false} AdmittedIds<D(!new)>(candidates: seq<ModelCandidate>, r: Request<D>)
    requires UniqueIds(candidates) && forall c | c in candidates :: c.routes != []
    ensures var a := Admitted(candidates, r);
            && (forall i, j | 0 <= i < j < |a| :: a[i].candidate.modelId != a[j].candidate.modelId)
            && (forall d | d in a :: exists k :: 0 <= k < |candidates| && candidates[k] == d.candidate)
    decreases |candidates|
  {
    if candidates != [] {
      var rest := candidates[1..];
      AdmittedIds(rest, r);
      assert candidates == [candidates[0]] + rest;
      var a := Admitted(rest, r);
      forall d | d in a
        ensures exists k :: 0 < k < |candidates| && candidates[k] == d.candidate
        ensures d.candidate.modelId != candidates[0].modelId
      {
        var k :| 0 <= k < |rest| && rest[k] == d.candidate;
        assert candidates[k + 1] == d.candidate;
      }
      assert candidates[0] == candidates[0];
    }
  }

  /** No model appears twice in a ranking of distinct candidates. */
  lemma RankingIsDistinct<D(!new)>(candidates: seq<ModelCandidate>, r: Request<D>, ranking: seq<ModelDecision>)
    requires UniqueIds(candidates) && forall c | c in candidates :: c.routes != []
    requires multiset(ranking) == multiset(Admitted(candidates, r))
    ensures Distinct(ModelIds(ranking))
    ensures forall d | d in ranking :: d.candidate in candidates
  {
    hide Admitted;
    var a := Admitted(candidates, r);
    AdmittedIds(candidates, r);
    RearrangementIsDistinct(a, ranking);
    forall d | d in ranking ensures d in a && d.candidate in candidates {
      assert d in multiset(a);
    }
    forall i, j | 0 <= i < j < |ranking| ensures ModelIds(ranking)[i] != ModelIds(ranking)[j] {
      assert ranking[i] in ranking && ranking[j] in ranking;
      var x :| 0 <= x < |a| && a[x] == ranking[i];
      var y :| 0 <= y < |a| && a[y] == ranking[j];
    }
  }

  /** The budget with its context raised to what compaction can reach. */
  function Raised<D>(budget: CallBudget, cache: CacheAnalysis<D>, kept: nat): CallBudget {
    if budget.requiredContextTokens < C.MinimumReachable(cache, kept)
    then budget.(requiredContextTokens := C.MinimumReachable(cache, kept))
    else budget
  }

  lemma RaisedMeaning<D>(budget: CallBudget, cache: CacheAnalysis<D>, kept: nat)
    ensures var raised := Raised(budget, cache, kept);
            && raised == budget.(requiredContextTokens := raised.requiredContextTokens)
            && raised.requiredContextTokens >= budget.requiredContextTokens
            && raised.requiredContextTokens >= C.MinimumReachable(cache, kept)
            && raised.requiredContextTokens in {budget.requiredContextTokens, C.MinimumReachable(cache, kept)}
  {
  }

  function RequestFor<D>(intent: Intent, cache: CacheAnalysis<D>, budget: CallBudget, policy: OperatingPolicy,
                         outside: Outside, scores: map<string, real>): Request<D>
    requires budget.requiredContextTokens >= 0
  {
    Request(outside.output, intent.capabilities, intent.minimumQuality, cache, budget, budget.requiredContextTokens,
            policy, outside.rankingMs, scores)
  }

  /** A prepared call hangs together: every ranked model is feasible at the budget's context, and the
      compacted conversation fits that context. */
  ghost predicate Coherent<D(!new)>(
    p: PreparedCall<D>, intent: Intent, reading: Reading<D>, policy: OperatingPolicy, outside: Outside)
  {
    && p.Valid() && Distinct(ModelIds(p.Ranking()))
    && p.budget.requiredContextTokens == p.contextTokens
    && AnalysisOf(reading, p.cache, Call(intent.messages, intent.tools))
    && outside.scores.Some?
    && (forall d | d in p.Ranking() ::
          Feasible(d, Request(outside.output, intent.capabilities, intent.minimumQuality, p.cache, p.budget,
                              p.budget.requiredContextTokens, policy, outside.rankingMs, outside.scores.value)))
    && p.compaction.targetTokens == p.contextTokens && p.compaction.targetMet
    && p.compaction.tokensAfter <= p.contextTokens
    && p.compaction.tokensAfter == p.cache.toolTokens + C.TokenSum(reading.encoding, p.compaction.messages)
    && |p.compaction.messages| == |intent.messages|
    && (p.compaction.records == [] ==> p.compaction.messages == intent.messages)
    && (forall i | 0 <= i < |intent.messages| && p.compaction.messages[i] != intent.messages[i] ::
          i !in p.cache.protectedIndices)
    && (forall i, j | 0 <= i < j < |p.Ranking()| :: RanksBefore(p.Ranking()[i], p.Ranking()[j]))
  }

  /** A prepared call sends on, word for word, the instructions, the latest user turn and every message that calls
      a tool whose result is still missing. */
  lemma WaitingMessagesAreKept<D(!new)>(
    p: PreparedCall<D>, intent: Intent, reading: Reading<D>, policy: OperatingPolicy, outside: Outside, i: nat)
    requires Coherent(p, intent, reading, policy, outside) && i < |intent.messages|
    requires var m := intent.messages[i];
             || m.role in {SystemRole, DeveloperRole}
             || (m.IsUserTurn() && forall j | i < j < |intent.messages| :: !intent.messages[j].IsUserTurn())
             || (exists id | id in m.toolCallIds :: id != "" && forall n | n in intent.messages :: n.toolCallId != id)
    ensures |p.compaction.messages| == |intent.messages| && p.compaction.messages[i] == intent.messages[i]
  {
    hide Feasible, Outlines, C.TokenSum, PrefixHash, RanksBefore, LatestUser;
    LatestUserIs(intent.messages, i);
    assert IsProtected(intent.messages, i);
  }

  /** Failing over keeps a prepared call coherent: the models left are feasible for the same budget,
      context and compacted conversation. */
  lemma FailoverStaysCoherent<D(!new)>(
    p: PreparedCall<D>, q: PreparedCall<D>, intent: Intent, reading: Reading<D>, policy: OperatingPolicy,
    outside: Outside)
    requires Coherent(p, intent, reading, policy, outside)
    requires SameCall(p, q) && q.Valid() && Subsequence(q.Ranking(), p.Ranking())
    ensures Coherent(q, intent, reading, policy, outside)
  {
    hide Feasible, Subsequence, AnalysisOf, C.TokenSum;
    ShorterAndSmaller(q.Ranking(), p.Ranking());
    IdsOfSubsequence(q.Ranking(), p.Ranking());
    KeepsDistinct(ModelIds(q.Ranking()), ModelIds(p.Ranking()));
    hide Coherent;
    KeepsRanks(q.Ranking(), p.Ranking());
  }

  lemma {:induction false} KeepsRanks(a: seq<ModelDecision>, b: seq<ModelDecision>)
    requires Subsequence(a, b) && forall i, j | 0 <= i < j < |b| :: RanksBefore(b[i], b[j])
    ensures forall i, j | 0 <= i < j < |a| :: RanksBefore(a[i], a[j])
    decreases |b|
  {
    hide RanksBefore;
    if a != [] && a[0] == b[0] {
      KeepsRanks(a[1..], b[1..]);
      ShorterAndSmaller(a[1..], b[1..]);
      forall j | 0 < j < |a| ensures RanksBefore(a[0], a[j]) { assert a[j] == a[1..][j - 1] && a[j] in b[1..]; }
    } else if a != [] {
      KeepsRanks(a, b[1..]);
    }
  }

  /** Ranks the candidates for a call: distinct models, each feasible, best first. */
  method RankFor<D(!new, ==)>(candidates: seq<ModelCandidate>, request: Request<D>)
    returns (ranked: Result<seq<ModelDecision>, Refusal>)
    requires UniqueIds(candidates) && (forall c | c in candidates :: c.routes != [] && c.Valid())
    ensures ranked.Ok? ==>
              && ranked.value != [] && Distinct(ModelIds(ranked.value))
              && multiset(ranked.value) == multiset(Admitted(candidates, request))
              && (forall d | d in ranked.value :: d.candidate.Valid() && Feasible(d, request))
              && (forall i, j | 0 <= i < j < |ranked.value| :: RanksBefore(ranked.value[i], ranked.value[j]))
  {
    hide Feasible, Admitted, Less, RanksBefore;
    var ranking := SelectRanked(candidates, request);
    if ranking.Err? { return Err(Unroutable(ranking.error)); }
    RankingIsDistinct(candidates, request, ranking.value);
    return Ok(ranking.value);
  }

  /** Plans the reduction for the best model and carries it out; the result meets the budget's context. */
  method CompactFor<D(!new, ==)>(
    compactor: C.Compactor, intent: Intent, cache: CacheAnalysis<D>, decision: ModelDecision, budget: CallBudget)
    returns (compaction: Result<C.CompactionResult, Refusal>)
    requires C.Describes(cache, compactor.encoding, intent.messages)
    requires forall i | i in cache.compactableIndices :: i < |intent.messages|
    requires C.MinimumReachable(cache, compactor.kept) <= budget.requiredContextTokens <= cache.totalTokens
    ensures compaction.Ok? ==>
              var r := compaction.value;
              && r.targetTokens == budget.requiredContextTokens && r.targetMet && r.tokensAfter <= r.targetTokens
              && r.tokensAfter == cache.toolTokens + C.TokenSum(compactor.encoding, r.messages)
              && (r.records == [] ==> r.messages == intent.messages)
              && |r.messages| == |intent.messages|
              && (forall i | 0 <= i < |r.messages| && r.messages[i] != intent.messages[i] ::
                    i in cache.compactableIndices && i !in cache.protectedIndices)
  {
    hide C.TokenSum, C.CompactAll, C.Shortened, C.CapacityOf, C.EnumeratesBySize, C.MinimumReachable, C.Target, C.Plan;
    var plan := C.Plan(cache, compactor.kept, decision.route, decision.cacheValue, budget);
    C.PlanIsReachable(cache, compactor.kept, decision.route, decision.cacheValue, budget);
    forall k | 0 <= k < |plan.eligible| ensures plan.eligible[k] < |intent.messages| {
      assert plan.eligible[k] in plan.eligible;
    }
    var result, _, _ := C.Compact(compactor, intent.messages, cache, plan);
    if result.Err? || !result.value.targetMet { return Err(NotCompacted); }
    return Ok(result.value);
  }

  /** Routes, plans and compacts a reserved call; nothing here touches the ledger. */
  method Assemble<D(!new, ==)>(
    intent: Intent, cache: CacheAnalysis<D>, budget: CallBudget, candidates: seq<ModelCandidate>,
    compactor: C.Compactor, reading: Reading<D>, policy: OperatingPolicy, outside: Outside)
    returns (prepared: Result<PreparedCall<D>, Refusal>)
    requires UniqueIds(candidates) && (forall c | c in candidates :: c.routes != [] && c.Valid()) && policy.Valid()
    requires reading.encoding == compactor.encoding
    requires AnalysisOf(reading, cache, Call(intent.messages, intent.tools))
    requires C.Describes(cache, reading.encoding, intent.messages)
    requires forall i | i in cache.compactableIndices :: i < |intent.messages|
    requires 0 < budget.requiredContextTokens <= cache.totalTokens
    ensures prepared.Ok? ==>
              && Coherent(prepared.value, intent, reading, policy, outside)
              && prepared.value.budget == Raised(budget, cache, compactor.kept) && prepared.value.cache == cache
  {
    hide Feasible, Admitted, C.Describes, AnalysisOf, C.TokenSum, C.MinimumReachable, Guaranteed, RoutedRoute,
      Preparation, Distinct;
    FloorIsReachable(cache, compactor.kept);
    var raised := Raised(budget, cache, compactor.kept);
    if outside.scores.None? { return Err(RankingFailed); }
    var ranking := RankFor(candidates, RequestFor(intent, cache, raised, policy, outside, outside.scores.value));
    if ranking.Err? { return Err(ranking.error); }
    var ranked := ranking.value;
    var decision := ranked[0];
    var first := Routing.Plan(decision, cache, raised, raised.requiredContextTokens, policy, outside.planningMs);
    if first.Err? { return Err(Unroutable(first.error)); }
    var compaction := CompactFor(compactor, intent, cache, decision, raised);
    if compaction.Err? { return Err(compaction.error); }
    var provider := Routing.Plan(decision, cache, raised, raised.requiredContextTokens, policy, outside.preparationMs);
    if provider.Err? { return Err(Unroutable(provider.error)); }
    var p := PreparedCall(raised, raised.requiredContextTokens, cache, compaction.value, decision, ranked[1..],
                          provider.value, outside.preparationMs);
    assert p.Ranking() == ranked;
    return Ok(p);
  }

  lemma FloorIsReachable<D>(cache: CacheAnalysis<D>, kept: nat)
    ensures C.MinimumReachable(cache, kept) <= cache.totalTokens
  {
  }

  // ---------------------------------------------------------------- reserving

  /** What a refused preparation leaves of a run: nothing reserved, charged or pending that was not before. */
  ghost predicate NothingHeld(before: L.Book, after: L.Book) {
    && after.run.reserved == before.run.reserved && after.run.pending == before.run.pending
    && after.run.spentCostUsd == before.run.spentCostUsd && after.run.status == before.run.status
    && (forall id | id in before.charges :: id in after.charges && after.charges[id] == before.charges[id])
    && (forall id | id in after.charges && id !in before.charges :: after.charges[id] == 0.0)
  }

  /** What a granted call adds to a run: its own reservation, and nothing else changes hands. */
  ghost predicate Granted(before: L.Book, after: L.Book, budget: CallBudget, evidence: L.Evidence) {
    && before.run.status == L.Active && after.run.status == L.Active
    && budget.callId !in before.run.reserved && after.run.reserved == before.run.reserved[budget.callId := budget]
    && after.run.pending == before.run.pending && after.run.spentCostUsd == before.run.spentCostUsd
    && after.charges == before.charges && budget.callId !in before.charges
    && 0 < budget.requiredContextTokens <= evidence.inputTokens
  }

  lemma FreshPending(b: L.Book)
    requires L.Sound(b)
    ensures var id := b.run.nextSequence;
            && id !in b.run.pending && id !in b.run.reserved && id !in b.charges
            && b.run.pending + {id} - {id} == b.run.pending
  {
    assert L.InOnePlace(b, b.run.nextSequence);
  }

  /** Failing a granted call without billing takes back exactly what granting it added. */
  lemma ReleasingLeavesNothing(before: L.Book, granted: L.Book, budget: CallBudget, evidence: L.Evidence)
    requires Granted(before, granted, budget, evidence)
    ensures NothingHeld(before, L.Apply(granted, L.FailTheCall(budget.callId, false)))
  {
    assert before.run.reserved[budget.callId := budget] - {budget.callId} == before.run.reserved;
  }

  lemma DiscardingLeavesNothing(b: L.Book, elapsedMs: int)
    requires L.Sound(b) && L.Begin(b.run, elapsedMs).Ok?
    ensures NothingHeld(b, L.Apply(L.Apply(b, L.BeginCall(elapsedMs)), L.DiscardCall(b.run.nextSequence)))
  {
    hide Tally, L.Sound;
    FreshPending(b);
  }

  lemma CommittingGrantsOrLeavesNothing(
    b: L.Book, beginMs: int, d: AllocationDecision, evidence: L.Evidence, commitMs: int)
    requires L.Sound(b) && L.Begin(b.run, beginMs).Ok? && d.Valid()
    ensures var id := b.run.nextSequence;
            var begun := L.Apply(b, L.BeginCall(beginMs));
            var after := L.Apply(begun, L.CommitCall(id, d, evidence, commitMs));
            var budget := L.Commit(begun.run, id, d, evidence, commitMs).1;
            && (budget.Ok? ==> Granted(b, after, budget.value, evidence) && budget.value.callId == id)
            && (budget.Err? ==> NothingHeld(b, after))
  {
    hide Tally, L.Sound;
    FreshPending(b);
  }

  /** The book once the allocator's answer is taken in; others acted while it was asked. */
  ghost function Answered(b: L.Book, outside: Outside, evidence: L.Evidence, before: seq<L.Action>): L.Book {
    if L.Begin(b.run, outside.beginMs).Err? then b
    else
      var asked := L.Execute(L.Apply(b, L.BeginCall(outside.beginMs)), before);
      match outside.allocation
      case None => L.Apply(asked, L.DiscardCall(b.run.nextSequence))
      case Some(d) => L.Apply(asked, L.CommitCall(b.run.nextSequence, d, evidence, outside.commitMs))
  }

  /** What a preparation leaves of its run, with id the number it was issued: a refused allocation nothing; a
      granted one its reservation, kept or charged in full by whoever closed the run, when it succeeds; and when
      a later stage refuses it, nothing exactly if the run was still active.  Others lose nothing. */
  ghost predicate Prepares(b: L.Book, c: L.Book, success: bool, outside: Outside, evidence: L.Evidence,
                           before: seq<L.Action>, after: seq<L.Action>)
  {
    var id, answered := b.run.nextSequence, Answered(b, outside, evidence, before);
    if id !in answered.run.reserved then !success && c == answered && L.LeavesNothing(c, id)
    else
      var late := L.Execute(answered, after);
      if success then c == late && L.KeptInFull(c, id, answered.run.reserved[id])
      else
        && c == L.Apply(late, L.FailTheCall(id, false)) && L.ReleasesOnly(late, c, id)
        && (L.LeavesNothing(c, id) <==> late.run.status == L.Active)
  }

  lemma RefusedBeginLeavesNothing(b: L.Book, elapsedMs: int)
    requires L.Sound(b) && L.Begin(b.run, elapsedMs).Err?
    ensures L.Apply(b, L.BeginCall(elapsedMs)) == b && NothingHeld(b, b) && L.LeavesNothing(b, b.run.nextSequence)
  {
    hide Tally;
    FreshPending(b);
  }

  lemma StillPending(b: L.Book, elapsedMs: int, before: seq<L.Action>)
    requires L.Sound(b) && L.Begin(b.run, elapsedMs).Ok? && L.Spare(before, b.run.nextSequence)
    ensures var asked := L.Execute(L.Apply(b, L.BeginCall(elapsedMs)), before);
            L.Sound(asked) && b.run.nextSequence in asked.run.pending
  {
    hide L.Sound, L.Execute, L.Apply, Tally;
    var begun := L.Apply(b, L.BeginCall(elapsedMs));
    L.StepKeeps(b, L.BeginCall(elapsedMs));
    L.BegunIsPending(b, elapsedMs);
    L.PendingSurvives(begun, b.run.nextSequence, before);
    L.RunKeeps(begun, before);
  }

  lemma DiscardedLeavesNothing(asked: L.Book, id: int)
    requires L.Sound(asked) && id in asked.run.pending
    ensures L.LeavesNothing(L.Apply(asked, L.DiscardCall(id)), id)
  {
    hide Tally;
    L.StepKeeps(asked, L.DiscardCall(id));
    L.AbandonedLeavesNothing(L.Apply(asked, L.DiscardCall(id)), id);
  }

  lemma CommittedOrLeavesNothing(asked: L.Book, id: int, d: AllocationDecision, evidence: L.Evidence, commitMs: int)
    requires L.Sound(asked) && id in asked.run.pending && d.Valid()
    ensures var c := L.Apply(asked, L.CommitCall(id, d, evidence, commitMs));
            var budget := L.Commit(asked.run, id, d, evidence, commitMs).1;
            && (budget.Ok? ==>
                  && id in c.run.reserved && c.run.reserved[id] == budget.value && budget.value.callId == id
                  && 0 < budget.value.requiredContextTokens <= evidence.inputTokens)
            && (budget.Err? ==> L.LeavesNothing(c, id))
  {
    hide Tally;
    var c := L.Apply(asked, L.CommitCall(id, d, evidence, commitMs));
    L.StepKeeps(asked, L.CommitCall(id, d, evidence, commitMs));
    if L.Commit(asked.run, id, d, evidence, commitMs).1.Err? { L.AbandonedLeavesNothing(c, id); }
  }

  lemma RefusedPrepares(b: L.Book, outside: Outside, evidence: L.Evidence, before: seq<L.Action>, after: seq<L.Action>)
    requires L.LeavesNothing(Answered(b, outside, evidence, before), b.run.nextSequence)
    ensures Prepares(b, Answered(b, outside, evidence, before), false, outside, evidence, before, after)
  {
    hide Answered;
  }

  lemma GrantedPrepares(b: L.Book, outside: Outside, evidence: L.Evidence, before: seq<L.Action>, after: seq<L.Action>)
    requires var id, answered := b.run.nextSequence, Answered(b, outside, evidence, before);
             L.Sound(answered) && id in answered.run.reserved && L.Spare(after, id)
    ensures var late := L.Execute(Answered(b, outside, evidence, before), after);
            && Prepares(b, late, true, outside, evidence, before, after)
            && Prepares(b, L.Apply(late, L.FailTheCall(b.run.nextSequence, false)), false, outside, evidence, before,
                        after)
  {
    hide Answered, L.Execute, L.Apply, L.Sound, L.Spare, L.KeptInFull, L.ReleasesOnly, L.LeavesNothing;
    L.GrantOutlivesOthers(Answered(b, outside, evidence, before), b.run.nextSequence, after);
  }

  /** Begins an allocation, asks the allocator while other calls act, and commits its decision or gives the
      call up.  Undisturbed, it adds one reservation or leaves the run as it was. */
  method Reserve(controller: G.Controller, runId: string, outside: Outside, evidence: L.Evidence,
                 before: seq<L.Action>)
    returns (budget: Result<CallBudget, Refusal>)
    requires controller.Valid()
    requires outside.allocation.Some? ==> outside.allocation.value.Valid()
    requires runId in controller.runs ==> L.Spare(before, controller.runs[runId].nextSequence)
    modifies controller.Touched(runId)
    ensures controller.Valid()
    ensures runId in controller.runs ==>
              controller.runs[runId].Book() == Answered(old(controller.runs[runId].Book()), outside, evidence, before)
    ensures budget.Ok? ==>
              && runId in controller.runs && L.WithinLimit(controller.runs[runId].State())
              && budget.value.callId == old(controller.runs[runId].nextSequence)
              && budget.value.callId in controller.runs[runId].reserved
              && controller.runs[runId].reserved[budget.value.callId] == budget.value
              && 0 < budget.value.requiredContextTokens <= evidence.inputTokens
    ensures budget.Err? && runId in controller.runs ==>
              L.LeavesNothing(controller.runs[runId].Book(), old(controller.runs[runId].nextSequence))
    ensures before == [] && budget.Ok? ==>
              Granted(old(controller.runs[runId].Book()), controller.runs[runId].Book(), budget.value, evidence)
    ensures before == [] && budget.Err? && runId in controller.runs ==>
              NothingHeld(old(controller.runs[runId].Book()), controller.runs[runId].Book())
  {
    hide Tally, L.Apply, L.Begin, L.Commit, Granted, NothingHeld, L.WithinLimit, L.Sound, L.LeavesNothing, L.Spare;
    if runId !in controller.runs { return Err(BudgetRefused(L.RunMissing)); }
    ghost var b := controller.runs[runId].Book();
    ghost var id := b.run.nextSequence;
    var begun := controller.BeginAllocation(runId, outside.beginMs);
    if begun.Err? {
      RefusedBeginLeavesNothing(b, outside.beginMs);
      return Err(BudgetRefused(begun.error));
    }
    StillPending(b, outside.beginMs, before);
    controller.Meanwhile(runId, before);
    ghost var asked := controller.runs[runId].Book();
    if outside.allocation.None? {
      controller.DiscardPending(runId, begun.value);
      DiscardedLeavesNothing(asked, id);
      DiscardingLeavesNothing(b, outside.beginMs);
      return Err(AllocatorFailed);
    }
    var d := outside.allocation.value;
    var granted := controller.CommitAllocation(runId, begun.value, d, evidence, outside.commitMs);
    CommittedOrLeavesNothing(asked, id, d, evidence, outside.commitMs);
    CommittingGrantsOrLeavesNothing(b, outside.beginMs, d, evidence, outside.commitMs);
    if granted.Err? { return Err(BudgetRefused(granted.error)); }
    return Ok(granted.value);
  }

  // ---------------------------------------------------------------- the gateway

  datatype Rejection = ModelMismatch | ForeignProvider | NotSettled(ledger: L.Fault)

  function RouteOf(routes: seq<ProviderRoute>, provider: string): (route: Option<ProviderRoute>)
    ensures route.Some? ==> route.value in routes && route.value.provider == provider
    ensures route.None? ==> forall r | r in routes :: r.provider != provider
    decreases |routes|
  {
    if routes == [] then None
    else if routes[0].provider == provider then Some(routes[0])
    else RouteOf(routes[1..], provider)
  }

  /** Whether a message of the confirmed prefix was rewritten. */
  predicate TouchesCache<D>(p: PreparedCall<D>) {
    exists r | r in p.compaction.records :: r.messageIndex in p.cache.cacheableIndices
  }

  class PromptRailGateway<D(!new, ==)> {
    const controller: G.Controller
    const cache: PromptCacheCoordinator<D>
    const compactor: C.Compactor

    constructor (controller: G.Controller, cache: PromptCacheCoordinator<D>, compactor: C.Compactor)
      ensures this.controller == controller && this.cache == cache && this.compactor == compactor
    {
      this.controller, this.cache, this.compactor := controller, cache, compactor;
    }

    ghost predicate Valid()
      reads this, controller, controller.runs.Values, cache
    {
      controller.Valid() && cache.Valid() && cache.reading.encoding == compactor.encoding
    }

    /** Analyses a conversation with the blocks built from its own messages. */
    method AnalyzeIntent(intent: Intent, messages: seq<Message>, candidates: seq<ModelCandidate>, output: nat, now: int)
      returns (a: CacheAnalysis<D>)
      requires Valid() && messages != [] && forall c | c in candidates :: c.routes != []
      modifies cache`sessions
      ensures Valid() && AnalysisOf(cache.reading, a, Call(messages, intent.tools))
      ensures C.Describes(a, cache.reading.encoding, messages)
      ensures forall i | i in a.compactableIndices :: i < |messages|
      ensures cache.SessionOf(intent.sessionId) == Current(old(cache.SessionOf(intent.sessionId)), now)
    {
      hide Analyze, AnalysisOf, C.Describes;
      var state := Current(cache.SessionOf(intent.sessionId), now);
      a := cache.AnalyzeCall(intent.sessionId, messages, intent.tools, candidates, output, None, now);
      AnalysisIsWellFormed(cache.reading, cache.minimumCompactableTokens, state, messages, intent.tools, candidates,
                           output, Blocks(cache.reading, messages));
    }

    /** Prepares one call, while other calls of the run act before the allocator answers and after.  Success hands
        out a coherent call.  When no one interferes, its reservation is live and within the agent limit, and a
        refusal at any stage leaves the run without a reservation and without a charge. */
    method PrepareCall(runId: string, intent: Intent, candidates: seq<ModelCandidate>, policy: OperatingPolicy,
                       outside: Outside, before: seq<L.Action>, after: seq<L.Action>)
      returns (prepared: Result<PreparedCall<D>, Refusal>, ghost evidence: L.Evidence)
      requires Valid() && intent.messages != [] && policy.Valid()
      requires UniqueIds(candidates) && (forall c | c in candidates :: c.routes != [] && c.Valid())
      requires outside.allocation.Some? ==> outside.allocation.value.Valid()
      requires runId in controller.runs ==>
                 var id := controller.runs[runId].nextSequence; L.Spare(before, id) && L.Spare(after, id)
      modifies controller.Touched(runId), cache
      ensures Valid()
      ensures prepared.Ok? ==>
                && runId in controller.runs && Coherent(prepared.value, intent, cache.reading, policy, outside)
                && prepared.value.budget.callId == old(controller.runs[runId].nextSequence)
      ensures runId in controller.runs ==>
                Prepares(old(controller.runs[runId].Book()), controller.runs[runId].Book(), prepared.Ok?, outside,
                         evidence, before, after)
      ensures before == after == [] && prepared.Ok? ==>
                && Live(controller, runId, prepared.value.budget.callId)
                && prepared.value.budget.callId !in old(controller.runs[runId].reserved)
                && L.WithinLimit(controller.runs[runId].State())
                && controller.runs[runId].spentCostUsd == old(controller.runs[runId].spentCostUsd)
      ensures before == after == [] && prepared.Err? && runId in controller.runs ==>
                NothingHeld(old(controller.runs[runId].Book()), controller.runs[runId].Book())
    {
      hide Coherent, Feasible, C.Describes, AnalysisOf, NothingHeld, L.WithinLimit, L.Apply, L.Sound, Tally, UniqueIds,
        L.FailCall, Answered, Prepares, L.Spare, L.LeavesNothing;
      var analysis := AnalyzeIntent(intent, intent.messages, candidates, outside.output, outside.now);
      var basis := L.Evidence(analysis.totalTokens, analysis.contextBlocks);
      evidence := basis;
      ghost var b := if runId in controller.runs then Some(controller.runs[runId].Book()) else None;
      var budget := Reserve(controller, runId, outside, basis, before);
      if budget.Err? {
        if runId in controller.runs { RefusedPrepares(b.value, outside, basis, before, after); }
        return Err(budget.error), evidence;
      }
      ghost var granted := controller.runs[runId].Book();
      GrantedPrepares(b.value, outside, basis, before, after);
      controller.Meanwhile(runId, after);
      prepared := Assemble(intent, analysis, budget.value, candidates, compactor, cache.reading, policy, outside);
      if prepared.Err? {
        var fault := controller.FailCall(runId, budget.value.callId, false);
        if before == [] { ReleasingLeavesNothing(b.value, granted, budget.value, basis); }
      }
    }

    /** Remembers what the provider cached for the messages that were sent. */
    method RememberCall(p: PreparedCall<D>, intent: Intent, candidates: seq<ModelCandidate>, outside: Outside,
                        route: ProviderRoute, u: ModelUsage, now: int)
      requires Valid() && (forall c | c in candidates :: c.routes != [])
      requires AnalysisOf(cache.reading, p.cache, Call(intent.messages, intent.tools))
      requires p.compaction.messages != [] && (p.compaction.records == [] ==> p.compaction.messages == intent.messages)
      modifies cache
      ensures Valid() && Remembered(old(cache.SessionOf(intent.sessionId)), p, intent, u, now)
    {
      hide C.Describes, AnalysisOf, Remembers, CandidatePrefixCount, L.Settle, L.Sound, Tally;
      var observation := p.cache;
      if p.compaction.records != [] {
        observation := AnalyzeIntent(intent, p.compaction.messages, candidates, outside.output, now);
      }
      var read := if TouchesCache(p) then 0 else u.cacheReadTokens;
      cache.ObserveCall(intent.sessionId, observation, route, Usage(u.modelId, u.provider, read, u.cacheWriteTokens),
                        now, Call(p.compaction.messages, intent.tools));
    }

    /** The session after an observed call: its record is the old one, or describes the messages sent. */
    ghost predicate Remembered(before: Session<D>, p: PreparedCall<D>, intent: Intent, u: ModelUsage, now: int)
      reads this, cache
    {
      var session := cache.SessionOf(intent.sessionId);
      && session.lastModelId == Some(u.modelId) && session.lastProvider == Some(u.provider)
      && (|| session.record == before.record || session.record == Current(before, now).record
          || (&& session.record.Some? && intent.sessionId in cache.origins
              && cache.origins[intent.sessionId] == Call(p.compaction.messages, intent.tools)
              && Remembers(cache.reading, session.record.value, cache.origins[intent.sessionId])
              && ((exists r | r in p.compaction.records :: r.messageIndex in p.cache.cacheableIndices) ==>
                    u.cacheWriteTokens > 0)))
    }

    /** Settles a finished call and remembers what the provider cached.  A new cache record always describes
        the messages that were sent, after compaction; and when compaction rewrote part of the cached prefix,
        reading the old prefix is no evidence, so only a reported write makes a record. */
    method ObserveModel(runId: string, p: PreparedCall<D>, intent: Intent, candidates: seq<ModelCandidate>,
                        policy: OperatingPolicy, outside: Outside, u: ModelUsage, cacheWritePrice: Option<real>,
                        elapsedMs: int, now: int)
      returns (rejection: Option<Rejection>, ghost cost: real)
      requires Valid() && Coherent(p, intent, cache.reading, policy, outside) && intent.messages != []
      requires (forall c | c in candidates :: c.routes != []) && (forall r | r in p.provider.routes :: r.Valid())
      requires (u.costUsd.Some? ==> u.costUsd.value >= 0.0) && (cacheWritePrice.Some? ==> cacheWritePrice.value >= 0.0)
      modifies controller.Touched(runId), cache
      ensures Valid() && cost >= 0.0
      ensures rejection == Some(ModelMismatch) <==> u.modelId != p.model.candidate.modelId
      ensures rejection == Some(ForeignProvider) <==>
                u.modelId == p.model.candidate.modelId && forall r | r in p.provider.routes :: r.provider != u.provider
      ensures rejection.None? ==>
                && runId in controller.runs
                && (u.costUsd.Some? ==> cost == u.costUsd.value)
                && (u.costUsd.None? ==> exists route | route in p.provider.routes ::
                      route.provider == u.provider && cost == Cost(u, route, cacheWritePrice))
                && controller.runs[runId].Book() == L.Apply(old(controller.runs[runId].Book()),
                     L.SettleCall(p.budget.callId, cost, u.latencyMs + p.preparationMs, elapsedMs))
      ensures rejection.Some? ==> cache.sessions == old(cache.sessions)
      ensures rejection.None? ==>
                Remembered(old(cache.SessionOf(intent.sessionId)), p, intent, u, now)
    {
      hide Feasible, C.Describes, AnalysisOf, L.Apply, L.Sound, Tally, Cost, L.Settle, Remembered, C.TokenSum;
      cost := 0.0;
      if u.modelId != p.model.candidate.modelId { return Some(ModelMismatch), cost; }
      var route := RouteOf(p.provider.routes, u.provider);
      if route.None? { return Some(ForeignProvider), cost; }
      CostIsNotNegative(u, route.value, cacheWritePrice);
      var charged := if u.costUsd.Some? then u.costUsd.value else Cost(u, route.value, cacheWritePrice);
      cost := charged;
      var fault := controller.SettleCall(runId, p.budget.callId, charged, u.latencyMs + p.preparationMs, elapsedMs);
      if fault.Some? { return Some(NotSettled(fault.value)), cost; }
      assert p.compaction.messages != [];
      RememberCall(p, intent, candidates, outside, route.value, u, now);
      return None, cost;
    }
  }
}
