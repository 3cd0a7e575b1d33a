/** The cache-aware price of a call, as each of five components computes it for itself, and the
    lemmas that say where their answers agree. */
module Pricing {
  import opened Basics
  import opened Models
  import opened Ordering

  function OutputCost(route: ProviderRoute, predictedOutput: nat): real {
    predictedOutput as real * route.outputPrice / MILLION
  }

  function PlainInput(route: ProviderRoute, tokens: nat): real {
    tokens as real * route.inputPrice / MILLION
  }

  /** The order in which equally priced routes are preferred. */
  function RouteKey(cost: real, route: ProviderRoute): Key {
    Key(cost, route.p95TotalMs as real, 0.0, route.routeId)
  }

  // ---------------------------------------------------------------- the cache coordinator

  function CoordinatorInputCost(route: ProviderRoute, total: nat, cached: nat): real {
    (cached as real * route.CachedRate() + MaxInt(0, total - cached) as real * route.inputPrice) / MILLION
  }

  predicate MatchesRecord<D>(modelId: string, route: ProviderRoute, record: Option<CacheRecord<D>>) {
    record.Some? && modelId == record.value.modelId && route.provider == record.value.provider && route.cacheSupported
  }

  function CoordinatorCached<D>(modelId: string, route: ProviderRoute, record: Option<CacheRecord<D>>,
                                total: nat): nat
  {
    if MatchesRecord(modelId, route, record) then MinInt(total, record.value.prefixTokens) else 0
  }

  function CoordinatorCost<D>(
    modelId: string, route: ProviderRoute, record: Option<CacheRecord<D>>, total: nat, output: nat): real
  {
    CoordinatorInputCost(route, total, CoordinatorCached(modelId, route, record, total)) + OutputCost(route, output)
  }

  function CoordinatorKey<D(!new)>(modelId: string, record: Option<CacheRecord<D>>, total: nat, output: nat)
    : ProviderRoute -> Key
  {
    route => RouteKey(CoordinatorCost(modelId, route, record, total, output), route)
  }

  function CoordinatorRoute<D(!new)>(
    candidate: ModelCandidate, record: Option<CacheRecord<D>>, total: nat, output: nat): (route: ProviderRoute)
    requires candidate.routes != []
    ensures route in candidate.routes
  {
    FirstLeast(candidate.routes, CoordinatorKey(candidate.modelId, record, total, output))
  }

  /** The first route that could have served the recorded prefix. */
  function RecordedRoute<D>(routes: seq<ProviderRoute>, record: CacheRecord<D>): Option<ProviderRoute> {
    if routes == [] then None
    else if routes[0].provider == record.provider && routes[0].cacheSupported then Some(routes[0])
    else RecordedRoute(routes[1..], record)
  }

  function CandidateValue<D(!new)>(
    candidate: ModelCandidate, record: Option<CacheRecord<D>>, total: nat, output: nat): CacheValue
    requires candidate.routes != []
  {
    var route := CoordinatorRoute(candidate, record, total, output);
    var exact := MatchesRecord(candidate.modelId, route, record);
    var cached := CoordinatorCached(candidate.modelId, route, record, total);
    var inputCost := CoordinatorInputCost(route, total, cached);
    var uncached := PlainInput(route, total);
    var switchCost :=
      if record.None? || exact then 0.0
      else
        match RecordedRoute(candidate.routes, record.value)
        case None => 0.0
        case Some(known) =>
          MinInt(total, record.value.prefixTokens) as real * Max(0.0, known.inputPrice - known.CachedRate()) / MILLION;
    CacheValue(route.provider, exact, cached, inputCost, Max(0.0, uncached - inputCost), switchCost)
  }

  // ---------------------------------------------------------------- the budget controller

  function ControllerCost(route: ProviderRoute, value: Option<CacheValue>, total: nat, output: nat): real {
    var exact := value.Some? && value.value.exactReuse && value.value.provider == route.provider
      && route.cacheSupported;
    var cached := if exact then MinInt(total, value.value.cachedTokens) else 0;
    var rate := if cached != 0 && route.cacheReadPrice.Some? then route.cacheReadPrice.value else route.inputPrice;
    (cached as real * rate + (total - cached) as real * route.inputPrice) / MILLION + OutputCost(route, output)
  }

  /** The cheapest total the controller shows the allocator for a candidate. */
  function AdvertisedCost(routes: seq<ProviderRoute>, value: Option<CacheValue>, total: nat, output: nat): real
    requires routes != []
    decreases |routes|
  {
    var first := ControllerCost(routes[0], value, total, output);
    if |routes| == 1 then first
    else
      var rest := AdvertisedCost(routes[1..], value, total, output);
      if rest < first then rest else first
  }

  // ---------------------------------------------------------------- the router

  /** Tokens that compaction could remove from the listed messages, down to a floor for each. */
  function Reducible(messageTokens: seq<nat>, kept: nat, indices: seq<nat>): nat
    decreases |indices|
  {
    if indices == [] then 0
    else
      (if indices[0] < |messageTokens| then MaxInt(0, messageTokens[indices[0]] - kept) else 0)
      + Reducible(messageTokens, kept, indices[1..])
  }

  function Except(indices: seq<nat>, excluded: seq<nat>): (rest: seq<nat>)
    ensures forall i :: i in rest <==> i in indices && i !in excluded
    ensures Distinct(indices) ==> Distinct(rest)
    decreases |indices|
  {
    if indices == [] then []
    else if indices[0] in excluded then Except(indices[1..], excluded)
    else [indices[0]] + Except(indices[1..], excluded)
  }

  /** Every message keeps at least this many tokens, as far as routing is concerned. */
  const ROUTED_FLOOR: nat := 32

  predicate RouterKeepsCache<D>(cache: CacheAnalysis<D>, required: nat) {
    MaxInt(0, cache.totalTokens - required)
      <= Reducible(cache.messageTokens, ROUTED_FLOOR, Except(cache.compactableIndices, cache.cacheableIndices))
  }

  function RouterInputCost<D>(route: ProviderRoute, required: nat, cache: CacheAnalysis<D>, value: CacheValue): real {
    var exact := value.exactReuse && value.provider == route.provider && route.cacheSupported;
    var cached := if exact && RouterKeepsCache(cache, required) then MinInt(required, value.cachedTokens) else 0;
    var rate := if cached != 0 && route.cacheReadPrice.Some? then route.cacheReadPrice.value else route.inputPrice;
    (cached as real * rate + (required - cached) as real * route.inputPrice) / MILLION
  }

  function RouterCost<D>(
    route: ProviderRoute, required: nat, cache: CacheAnalysis<D>, value: CacheValue, output: nat): real
  {
    RouterInputCost(route, required, cache, value) + OutputCost(route, output)
  }

  function RouterKey<D(!new)>(required: nat, cache: CacheAnalysis<D>, value: CacheValue,
                              output: nat): ProviderRoute -> Key
  {
    route => RouteKey(RouterCost(route, required, cache, value, output), route)
  }

  /** The route the router prices a candidate by. */
  function RoutedRoute<D(!new)>(
    routes: seq<ProviderRoute>, required: nat, cache: CacheAnalysis<D>, value: CacheValue, output: nat)
    : (route: ProviderRoute)
    requires routes != []
    ensures route in routes
  {
    FirstLeast(routes, RouterKey(required, cache, value, output))
  }

  // ---------------------------------------------------------------- the provider allocator

  function AllocatorCost<D>(
    route: ProviderRoute, value: CacheValue, output: nat, cache: CacheAnalysis<D>, required: nat): real
  {
    var reduction := MaxInt(0, cache.totalTokens - required);
    var capacity :=
      Reducible(cache.messageTokens, ROUTED_FLOOR, Except(cache.compactableIndices, cache.cacheableIndices));
    var exact := value.exactReuse && route.provider == value.provider && route.cacheSupported && reduction <= capacity;
    var cached := if exact then MinInt(required, value.cachedTokens) else 0;
    var rate := if cached != 0 && route.cacheReadPrice.Some? then route.cacheReadPrice.value else route.inputPrice;
    var inputCost := (cached as real * rate + (required - cached) as real * route.inputPrice) / MILLION;
    inputCost + OutputCost(route, output)
  }

  function AllocatorKey<D(!new)>(value: CacheValue, output: nat, cache: CacheAnalysis<D>, required: nat)
    : ProviderRoute -> Key
  {
    route => RouteKey(AllocatorCost(route, value, output, cache, required), route)
  }

  // ---------------------------------------------------------------- the compaction planner

  function PlannerInputCost(route: ProviderRoute, value: CacheValue, target: int, keepsCache: bool): real {
    var cached := if value.exactReuse && keepsCache then MinInt(target, value.cachedTokens) else 0;
    var rate := if cached != 0 && route.cacheReadPrice.Some? then route.cacheReadPrice.value else route.inputPrice;
    cached as real * rate / MILLION + MaxInt(0, target - cached) as real * route.inputPrice / MILLION
  }

  // ---------------------------------------------------------------- what a cache is worth

  /** What reading tokens from a route's cache saves over sending them again; never negative. */
  function Saving(route: ProviderRoute, tokens: nat): real {
    tokens as real * Max(0.0, route.inputPrice - route.CachedRate()) / MILLION
  }

  /** The value of a candidate's cache is that of its cheapest route: the cache is read exactly when that route is
      the one recorded for this model and supports caching, and staying retains what the read saves. */
  lemma ValueMeaning<D(!new)>(candidate: ModelCandidate, record: Option<CacheRecord<D>>, total: nat, output: nat)
    returns (route: ProviderRoute)
    requires candidate.routes != []
    ensures route in candidate.routes && forall q | q in candidate.routes ::
              CoordinatorCost(candidate.modelId, route, record, total, output)
                <= CoordinatorCost(candidate.modelId, q, record, total, output)
    ensures var v := CandidateValue(candidate, record, total, output);
            && v.provider == route.provider
            && (v.exactReuse <==>
                  && record.Some? && candidate.modelId == record.value.modelId
                  && route.provider == record.value.provider && route.cacheSupported)
            && v.cachedTokens == (if v.exactReuse then MinInt(total, record.value.prefixTokens) else 0)
            && v.inputCostUsd == CoordinatorInputCost(route, total, v.cachedTokens)
            && v.retainedValueUsd == Saving(route, v.cachedTokens)
  {
    route := CoordinatorRoute(candidate, record, total, output);
    forall q | q in candidate.routes
      ensures CoordinatorCost(candidate.modelId, route, record, total, output)
                <= CoordinatorCost(candidate.modelId, q, record, total, output)
    {
      CoordinatorIsLeast(candidate, record, total, output, q);
    }
    hide CoordinatorRoute, CoordinatorCost, RecordedRoute, CoordinatorInputCost, Saving, CandidateValue, PlainInput;
    ValueIs(candidate, record, total, output);
    var cached := CandidateValue(candidate, record, total, output).cachedTokens;
    SavingIsDiscount(route, total, cached);
  }

  lemma ValueIs<D(!new)>(candidate: ModelCandidate, record: Option<CacheRecord<D>>, total: nat, output: nat)
    requires candidate.routes != []
    ensures var v, route := CandidateValue(candidate, record, total, output),
                            CoordinatorRoute(candidate, record, total, output);
            && v.provider == route.provider && v.exactReuse == MatchesRecord(candidate.modelId, route, record)
            && v.cachedTokens == CoordinatorCached(candidate.modelId, route, record, total)
            && v.inputCostUsd == CoordinatorInputCost(route, total, v.cachedTokens)
            && v.retainedValueUsd == Max(0.0, PlainInput(route, total) - v.inputCostUsd)
  {
    hide CoordinatorRoute, RecordedRoute, CoordinatorInputCost, CoordinatorCached, MatchesRecord, Max, PlainInput;
  }

  /** Leaving the recorded route forgoes what it would have saved; without such a route there is nothing to lose. */
  lemma SwitchMeaning<D(!new)>(candidate: ModelCandidate, record: CacheRecord<D>, total: nat, output: nat, k: nat)
    requires candidate.routes != [] && k <= |candidate.routes|
    requires forall i | 0 <= i < k ::
               candidate.routes[i].provider != record.provider || !candidate.routes[i].cacheSupported
    requires k < |candidate.routes| ==>
               candidate.routes[k].provider == record.provider && candidate.routes[k].cacheSupported
    ensures var v := CandidateValue(candidate, Some(record), total, output);
            v.switchCostUsd
              == if v.exactReuse || k == |candidate.routes| then 0.0
                 else Saving(candidate.routes[k], MinInt(total, record.prefixTokens))
    ensures CandidateValue<D>(candidate, None, total, output).switchCostUsd == 0.0
  {
    hide CoordinatorRoute, CoordinatorInputCost;
    RecordedRouteIsFirst(candidate.routes, record, k);
  }

  /** The saving is the difference to sending everything again, and the rest is charged as usual. */
  lemma SavingIsDiscount(route: ProviderRoute, total: nat, cached: nat)
    requires cached <= total
    ensures Max(0.0, PlainInput(route, total) - CoordinatorInputCost(route, total, cached))
              == Saving(route, cached)
    ensures CoordinatorInputCost(route, total, cached)
              == (cached as real * route.CachedRate() + (total - cached) as real * route.inputPrice) / MILLION
  {
    var n, m := total as real, cached as real;
    var discount := route.inputPrice - route.CachedRate();
    DiscountSplits(n, m, route.CachedRate(), route.inputPrice);
    if discount <= 0.0 {
      ProductGrows(0.0, m, -discount);
      assert m * discount <= 0.0;
    } else {
      ProductGrows(0.0, m, discount);
    }
  }

  lemma DiscountSplits(total: real, cached: real, rate: real, plain: real)
    ensures total * plain / MILLION - (cached * rate + (total - cached) * plain) / MILLION
              == cached * (plain - rate) / MILLION
  {
    assert (total - cached) * plain == total * plain - cached * plain;
    assert cached * (plain - rate) == cached * plain - cached * rate;
  }

  lemma {:induction false} RecordedRouteIsFirst<D>(routes: seq<ProviderRoute>, record: CacheRecord<D>, k: nat)
    requires k <= |routes|
    requires forall i | 0 <= i < k :: routes[i].provider != record.provider || !routes[i].cacheSupported
    ensures k == |routes| ==> RecordedRoute(routes, record) == None
    ensures k < |routes| && routes[k].provider == record.provider && routes[k].cacheSupported ==>
              RecordedRoute(routes, record) == Some(routes[k])
    decreases |routes|
  {
    if k > 0 { RecordedRouteIsFirst(routes[1..], record, k - 1); }
  }

  // ---------------------------------------------------------------- coordinator and controller

  /** On every route, reading a cached token costs at most as much as a plain input token. */
  predicate CachingPays(candidate: ModelCandidate) {
    forall i | 0 <= i < |candidate.routes| :: candidate.routes[i].CachedRate() <= candidate.routes[i].inputPrice
  }

  lemma NothingCached(route: ProviderRoute, total: nat)
    ensures CoordinatorInputCost(route, total, 0) == total as real * route.inputPrice / MILLION
  {}

  /** The route is the one whose cache the coordinator counts on. */
  predicate Discounted(route: ProviderRoute, value: CacheValue) {
    value.exactReuse && value.provider == route.provider && route.cacheSupported
  }

  lemma ControllerReads(route: ProviderRoute, value: CacheValue, total: nat, output: nat)
    ensures ControllerCost(route, Some(value), total, output)
              == CoordinatorInputCost(route, total, if Discounted(route, value)
                                      then MinInt(total, value.cachedTokens) else 0)
                 + OutputCost(route, output)
  {
    hide OutputCost;
  }

  lemma ReusedValue<D(!new)>(
    candidate: ModelCandidate, record: Option<CacheRecord<D>>, total: nat, output: nat, route: ProviderRoute)
    requires candidate.Valid() && CandidateValue(candidate, record, total, output).exactReuse
    ensures var value := CandidateValue(candidate, record, total, output);
            (if Discounted(route, value) then MinInt(total, value.cachedTokens) else 0)
              == CoordinatorCached(candidate.modelId, route, record, total)
  {
    hide CoordinatorRoute, CoordinatorInputCost;
  }

  /** When the coordinator chose a cached route, both components price every route alike. */
  lemma ExactPricesAgree<D(!new)>(
    candidate: ModelCandidate, record: Option<CacheRecord<D>>, total: nat, output: nat, route: ProviderRoute)
    requires candidate.Valid() && CandidateValue(candidate, record, total, output).exactReuse
    ensures ControllerCost(route, Some(CandidateValue(candidate, record, total, output)), total, output)
              == CoordinatorCost(candidate.modelId, route, record, total, output)
  {
    hide CandidateValue, ControllerCost, CoordinatorInputCost, CoordinatorCached, Discounted, OutputCost;
    ControllerReads(route, CandidateValue(candidate, record, total, output), total, output);
    ReusedValue(candidate, record, total, output, route);
  }

  /** Otherwise the controller prices every route plainly, and only a matching route can differ. */
  lemma PlainPrice<D(!new)>(
    candidate: ModelCandidate, record: Option<CacheRecord<D>>, total: nat, output: nat, route: ProviderRoute)
    requires candidate.Valid() && !CandidateValue(candidate, record, total, output).exactReuse
    ensures var plain := ControllerCost(route, Some(CandidateValue(candidate, record, total, output)), total, output);
            && plain == PlainCost(route, total, output)
            && (!MatchesRecord(candidate.modelId, route, record) ==>
                  plain == CoordinatorCost(candidate.modelId, route, record, total, output))
            && (route.CachedRate() <= route.inputPrice ==>
                  CoordinatorCost(candidate.modelId, route, record, total, output) <= plain)
  {
    hide OutputCost, CandidateValue, CoordinatorInputCost, CoordinatorCached, ControllerCost;
    var cached := CoordinatorCached(candidate.modelId, route, record, total);
    ControllerPricesPlainly(route, CandidateValue(candidate, record, total, output), total, output);
    NothingCached(route, total);
    CachedPart(candidate.modelId, route, record, total);
    if route.CachedRate() <= route.inputPrice { InputDiscountNeverCosts(route, total, cached); }
  }

  lemma ControllerPricesPlainly(route: ProviderRoute, value: CacheValue, total: nat, output: nat)
    requires !value.exactReuse
    ensures ControllerCost(route, Some(value), total, output)
              == PlainCost(route, total, output)
  {
    hide OutputCost;
    assert 0.0 * route.inputPrice == 0.0;
  }

  lemma CachedPart<D>(modelId: string, route: ProviderRoute, record: Option<CacheRecord<D>>, total: nat)
    ensures CoordinatorCached(modelId, route, record, total) <= total
    ensures !MatchesRecord(modelId, route, record) ==> CoordinatorCached(modelId, route, record, total) == 0
  {
  }

  lemma InputDiscountNeverCosts(route: ProviderRoute, total: nat, cached: nat)
    requires cached <= total && route.CachedRate() <= route.inputPrice
    ensures CoordinatorInputCost(route, total, cached) <= total as real * route.inputPrice / MILLION
  {
    DiscountNeverCosts(total as real, cached as real, route.CachedRate(), route.inputPrice);
  }

  lemma DiscountNeverCosts(total: real, cached: real, rate: real, plain: real)
    requires 0.0 <= cached <= total && rate <= plain
    ensures (cached * rate + (total - cached) * plain) / MILLION <= total * plain / MILLION
  {
    ProductGrows(rate, plain, cached);
    assert cached * plain + (total - cached) * plain == total * plain;
  }

  lemma {:induction false} AdvertisedIsLeast(routes: seq<ProviderRoute>, value: Option<CacheValue>, total: nat,
                                             output: nat)
    requires routes != []
    ensures exists r | r in routes ::
              AdvertisedCost(routes, value, total, output) == ControllerCost(r, value, total, output)
    ensures forall r | r in routes ::
              AdvertisedCost(routes, value, total, output) <= ControllerCost(r, value, total, output)
    decreases |routes|
  {
    if |routes| == 1 {
      assert routes[0] in routes;
    } else {
      AdvertisedIsLeast(routes[1..], value, total, output);
      var r :| r in routes[1..] &&
        AdvertisedCost(routes[1..], value, total, output) == ControllerCost(r, value, total, output);
      assert r in routes && routes[0] in routes;
      forall q | q in routes
        ensures AdvertisedCost(routes, value, total, output) <= ControllerCost(q, value, total, output)
      {
        if q != routes[0] { assert q in routes[1..]; }
      }
    }
  }

  lemma CoordinatorIsLeast<D(!new)>(
    candidate: ModelCandidate, record: Option<CacheRecord<D>>, total: nat, output: nat, r: ProviderRoute)
    requires r in candidate.routes
    ensures CoordinatorCost(candidate.modelId, CoordinatorRoute(candidate, record, total, output), record, total,
                            output)
              <= CoordinatorCost(candidate.modelId, r, record, total, output)
  {
    var key := CoordinatorKey(candidate.modelId, record, total, output);
    FirstLeastIsLeast(candidate.routes, key);
    assert !Less(key(r), key(CoordinatorRoute(candidate, record, total, output)));
  }

  /** The cost the coordinator chose by. */
  function ChosenCost<D(!new)>(candidate: ModelCandidate, record: Option<CacheRecord<D>>, total: nat, output: nat): real
    requires candidate.routes != []
  {
    CoordinatorCost(candidate.modelId, CoordinatorRoute(candidate, record, total, output), record, total, output)
  }

  function PlainCost(route: ProviderRoute, tokens: nat, output: nat): real {
    tokens as real * route.inputPrice / MILLION + OutputCost(route, output)
  }

  /** Without its cache, the route costs less than every matching route with its cache and every other
      route without one. */
  predicate Undercuts<D>(
    r: ProviderRoute, routes: seq<ProviderRoute>, modelId: string, record: CacheRecord<D>, total: nat, output: nat)
  {
    forall q | q in routes ::
      PlainCost(r, total, output) <
        if MatchesRecord(modelId, q, Some(record))
        then CoordinatorInputCost(q, total, MinInt(total, record.prefixTokens)) + OutputCost(q, output)
        else PlainCost(q, total, output)
  }

  predicate PlainPriceUndercuts<D>(candidate: ModelCandidate, record: Option<CacheRecord<D>>, total: nat, output: nat) {
    record.Some? && exists r | r in candidate.routes ::
      MatchesRecord(candidate.modelId, r, record)
      && Undercuts(r, candidate.routes, candidate.modelId, record.value, total, output)
  }

  lemma CoordinatorPrice<D>(modelId: string, q: ProviderRoute, record: Option<CacheRecord<D>>, total: nat, output: nat)
    ensures CoordinatorCost(modelId, q, record, total, output) ==
              if MatchesRecord(modelId, q, record)
              then CoordinatorInputCost(q, total, MinInt(total, record.value.prefixTokens)) + OutputCost(q, output)
              else PlainCost(q, total, output)
  {
    hide CoordinatorInputCost, OutputCost;
    NothingCached(q, total);
  }

  /** Undercutting every route is undercutting the route the coordinator chose. */
  lemma UndercutsChosen<D(!new)>(
    r: ProviderRoute, candidate: ModelCandidate, record: CacheRecord<D>, total: nat, output: nat)
    requires candidate.Valid()
    ensures Undercuts(r, candidate.routes, candidate.modelId, record, total, output) <==>
              PlainCost(r, total, output) < ChosenCost(candidate, Some(record), total, output)
  {
    hide CoordinatorInputCost, PlainCost, OutputCost, CoordinatorCost, CoordinatorRoute, MatchesRecord;
    forall q | q in candidate.routes
      ensures ChosenCost(candidate, Some(record), total, output)
                <= CoordinatorCost(candidate.modelId, q, Some(record), total, output)
    {
      ChosenIsLeast(candidate, Some(record), total, output, q);
    }
    forall q { CoordinatorPrice(candidate.modelId, q, Some(record), total, output); }
    assert CoordinatorRoute(candidate, Some(record), total, output) in candidate.routes;
  }

  /** The controller advertises exactly the cost the coordinator chose by, unless the coordinator chose an
      uncached route while some route that caches would, read without its cache, be the cheapest of all. */
  lemma AdvertisedMatchesCoordinatorIff<D(!new)>(
    candidate: ModelCandidate, record: Option<CacheRecord<D>>, total: nat, output: nat)
    requires candidate.Valid()
    ensures var value := CandidateValue(candidate, record, total, output);
            AdvertisedCost(candidate.routes, Some(value), total, output)
              == ChosenCost(candidate, record, total, output) <==>
              value.exactReuse || !PlainPriceUndercuts(candidate, record, total, output)
  {
    hide CandidateValue, ControllerCost, CoordinatorCost, Undercuts, OutputCost, AdvertisedCost, CoordinatorRoute,
      MatchesRecord;
    var value := CandidateValue(candidate, record, total, output);
    var chosen := CoordinatorRoute(candidate, record, total, output);
    AdvertisedIsLeast(candidate.routes, Some(value), total, output);
    var r :| r in candidate.routes &&
      AdvertisedCost(candidate.routes, Some(value), total, output) == ControllerCost(r, Some(value), total, output);
    CoordinatorIsLeast(candidate, record, total, output, r);
    if value.exactReuse {
      ExactPricesAgree(candidate, record, total, output, r);
      ExactPricesAgree(candidate, record, total, output, chosen);
    } else {
      PlainPrice(candidate, record, total, output, r);
      PlainPrice(candidate, record, total, output, chosen);
      ChosenDoesNotMatch(candidate, record, total, output);
      forall q | q in candidate.routes
        ensures AdvertisedCost(candidate.routes, Some(value), total, output) <= PlainCost(q, total, output)
      {
        PlainPrice(candidate, record, total, output, q);
      }
      if record.Some? {
        forall q { UndercutsChosen(q, candidate, record.value, total, output); }
      } else {
        NoRecordNoMatch(candidate.modelId, r, record);
      }
    }
  }

  lemma NoRecordNoMatch<D>(modelId: string, r: ProviderRoute, record: Option<CacheRecord<D>>)
    ensures record.None? ==> !MatchesRecord(modelId, r, record)
  {
  }

  lemma ChosenDoesNotMatch<D(!new)>(candidate: ModelCandidate, record: Option<CacheRecord<D>>, total: nat, output: nat)
    requires candidate.Valid()
    ensures MatchesRecord(candidate.modelId, CoordinatorRoute(candidate, record, total, output), record) <==>
              CandidateValue(candidate, record, total, output).exactReuse
  {
  }

  /** In particular they agree whenever reading a cache never costs more than plain input. */
  lemma AdvertisedMatchesCoordinator<D(!new)>(
    candidate: ModelCandidate, record: Option<CacheRecord<D>>, total: nat, output: nat)
    requires candidate.Valid() && CachingPays(candidate)
    ensures AdvertisedCost(candidate.routes, Some(CandidateValue(candidate, record, total, output)), total, output)
              == ChosenCost(candidate, record, total, output)
  {
    hide CandidateValue, ChosenCost, AdvertisedCost, Undercuts, PlainCost, CoordinatorCost, ControllerCost,
      MatchesRecord;
    AdvertisedMatchesCoordinatorIff(candidate, record, total, output);
    if !CandidateValue(candidate, record, total, output).exactReuse
      && PlainPriceUndercuts(candidate, record, total, output) {
      var r :| r in candidate.routes && MatchesRecord(candidate.modelId, r, record)
               && Undercuts(r, candidate.routes, candidate.modelId, record.value, total, output);
      UndercutsChosen(r, candidate, record.value, total, output);
      PlainPrice(candidate, record, total, output, r);
      ChosenIsLeast(candidate, record, total, output, r);
    }
  }

  lemma ChosenIsLeast<D(!new)>(
    candidate: ModelCandidate, record: Option<CacheRecord<D>>, total: nat, output: nat, r: ProviderRoute)
    requires candidate.Valid() && r in candidate.routes
    ensures ChosenCost(candidate, record, total, output) <= CoordinatorCost(candidate.modelId, r, record, total, output)
  {
    hide CoordinatorCost, CoordinatorRoute;
    CoordinatorIsLeast(candidate, record, total, output, r);
  }

  const DEAR_READS: ProviderRoute := ProviderRoute("dear", "first", 1.0, 0.0, Some(10.0), 1, 1, true, true, 60)

  const CHEAP_READS: ProviderRoute := ProviderRoute("cheap", "second", 5.0, 0.0, Some(0.5), 1, 1, true, true, 60)

  const TWO_ROUTES: ModelCandidate := ModelCandidate("model", 1.0, 1000, {}, [DEAR_READS, CHEAP_READS])

  function ReadOf(tokens: nat): Option<CacheRecord<int>> {
    Some(CacheRecord("model", "first", 0, 1, tokens, 60))
  }

  lemma LeastOfTwo(key: ProviderRoute -> Key)
    ensures FirstLeast([DEAR_READS, CHEAP_READS], key)
              == if Less(key(CHEAP_READS), key(DEAR_READS)) then CHEAP_READS else DEAR_READS
  {
    assert [DEAR_READS, CHEAP_READS][1..] == [CHEAP_READS];
  }

  /** When the recorded route asks more for a cached token than for a plain one, the coordinator leaves it for
      a route of five times the price, and the controller advertises the plain price of the first. */
  lemma AdvertisedMayBeLower()
    ensures TWO_ROUTES.Valid()
    ensures ChosenCost(TWO_ROUTES, ReadOf(100), 100, 0) == 500.0 / MILLION
    ensures AdvertisedCost(TWO_ROUTES.routes, Some(CandidateValue(TWO_ROUTES, ReadOf(100), 100, 0)), 100, 0)
              == 100.0 / MILLION
  {
    LeastOfTwo(CoordinatorKey("model", ReadOf(100), 100, 0));
    assert TWO_ROUTES.routes[1..] == [CHEAP_READS];
  }

  // ---------------------------------------------------------------- controller and router

  lemma FullContextKeepsCache<D>(cache: CacheAnalysis<D>)
    ensures RouterKeepsCache(cache, cache.totalTokens)
  {}

  lemma FullContextPricesAgree<D>(route: ProviderRoute, cache: CacheAnalysis<D>, value: CacheValue, output: nat)
    ensures RouterCost(route, cache.totalTokens, cache, value, output)
              == ControllerCost(route, Some(value), cache.totalTokens, output)
  {
    FullContextKeepsCache(cache);
  }

  /** At full context the router's predicted cost of a candidate is the cost the controller advertised. */
  lemma RouterMatchesAdvertised<D(!new)>(
    candidate: ModelCandidate, cache: CacheAnalysis<D>, value: CacheValue, output: nat)
    requires candidate.Valid()
    ensures var total := cache.totalTokens;
            var route := RoutedRoute(candidate.routes, total, cache, value, output);
            RouterCost(route, total, cache, value, output)
              == AdvertisedCost(candidate.routes, Some(value), total, output)
  {
    var total := cache.totalTokens;
    var key := RouterKey(total, cache, value, output);
    var route := RoutedRoute(candidate.routes, total, cache, value, output);
    FirstLeastIsLeast(candidate.routes, key);
    AdvertisedIsLeast(candidate.routes, Some(value), total, output);
    var r :| r in candidate.routes &&
      AdvertisedCost(candidate.routes, Some(value), total, output) == ControllerCost(r, Some(value), total, output);
    FullContextPricesAgree(r, cache, value, output);
    FullContextPricesAgree(route, cache, value, output);
    hide RouterCost; hide ControllerCost;
    assert !Less(key(r), key(route));
  }

  // ---------------------------------------------------------------- router and provider allocator

  /** On every route the allocator's separately written formula is the router's. */
  lemma AllocatorPricesAsRouter<D(!new)>(
    route: ProviderRoute, required: nat, cache: CacheAnalysis<D>, value: CacheValue, output: nat)
    ensures AllocatorKey(value, output, cache, required)(route) == RouterKey(required, cache, value, output)(route)
  {
    hide OutputCost, Reducible, Except;
  }

  /** For any context the provider allocator's cheapest route is the very route the router priced. */
  lemma AllocatorPicksRoutedRoute<D(!new)>(
    routes: seq<ProviderRoute>, required: nat, cache: CacheAnalysis<D>, value: CacheValue, output: nat)
    requires routes != []
    ensures FirstLeast(routes, AllocatorKey(value, output, cache, required))
              == RoutedRoute(routes, required, cache, value, output)
  {
    hide FirstLeast, AllocatorKey, RouterKey;
    forall route | route in routes
      ensures AllocatorKey(value, output, cache, required)(route) == RouterKey(required, cache, value, output)(route)
    {
      AllocatorPricesAsRouter(route, required, cache, value, output);
    }
    FirstLeastSame(routes, AllocatorKey(value, output, cache, required), RouterKey(required, cache, value, output));
  }

  // ---------------------------------------------------------------- router and compaction planner

  lemma RouterReads<D>(route: ProviderRoute, tokens: nat, cache: CacheAnalysis<D>, value: CacheValue)
    ensures RouterInputCost(route, tokens, cache, value) == CoordinatorInputCost(route, tokens,
              if Discounted(route, value) && RouterKeepsCache(cache, tokens) then MinInt(tokens, value.cachedTokens)
                else 0)
  {
    hide RouterKeepsCache;
  }

  lemma PlannerReads(route: ProviderRoute, target: nat, value: CacheValue, keeps: bool)
    ensures PlannerInputCost(route, value, target, keeps) == CoordinatorInputCost(route, target,
              if value.exactReuse && keeps then MinInt(target, value.cachedTokens) else 0)
  {
    var cached := if value.exactReuse && keeps then MinInt(target, value.cachedTokens) else 0;
    SumOfQuotients(cached as real * route.CachedRate(), (target - cached) as real * route.inputPrice);
  }

  lemma SumOfQuotients(a: real, b: real)
    ensures a / MILLION + b / MILLION == (a + b) / MILLION
  {
  }

  lemma MixedRates(t: real, c: real, p: real, q: real)
    requires c >= 0.0
    ensures (c * q + (t - c) * p) / MILLION == t * p / MILLION <==> c == 0.0 || q == p
  {
    assert c * q + (t - c) * p == t * p + c * (q - p);
    if c != 0.0 && q != p { Differ(c, q - p, 0.0); }
  }

  lemma DiscountShows(route: ProviderRoute, tokens: nat, cached: nat)
    requires cached <= tokens
    ensures CoordinatorInputCost(route, tokens, cached) == CoordinatorInputCost(route, tokens, 0) <==>
              cached == 0 || route.CachedRate() == route.inputPrice
  {
    NothingCached(route, tokens);
    MixedRates(tokens as real, cached as real, route.inputPrice, route.CachedRate());
    assert (tokens - cached) as real == tokens as real - cached as real;
  }

  /** The planner takes the cached discount without looking at the route it prices.  Its estimate is the
      router's input cost exactly when the discount it takes is worth nothing or the router takes it too. */
  lemma PlannerMatchesRouterIff<D>(route: ProviderRoute, target: nat, cache: CacheAnalysis<D>, value: CacheValue)
    ensures var keeps := RouterKeepsCache(cache, target);
            var cached := MinInt(target, value.cachedTokens);
            PlannerInputCost(route, value, target, keeps) == RouterInputCost(route, target, cache, value) <==>
              (value.exactReuse && keeps && cached > 0 && route.CachedRate() != route.inputPrice ==>
                 value.provider == route.provider && route.cacheSupported)
  {
    hide PlannerInputCost, RouterInputCost, CoordinatorInputCost, RouterKeepsCache;
    PlannerReads(route, target, value, RouterKeepsCache(cache, target));
    RouterReads(route, target, cache, value);
    DiscountShows(route, target, MinInt(target, value.cachedTokens));
  }

  lemma Differ(n: real, a: real, b: real)
    requires n > 0.0 && a != b
    ensures n * a != n * b
  {
    assert n * (a - b) != 0.0;
  }

  /** The planner can promise less than the router charges on the very route that the router picked: at 200
      tokens the coordinator reuses 80 cached ones of the first provider, at 150 the second provider is cheaper. */
  lemma PlannerMayEstimateLess(cache: CacheAnalysis<int>)
    requires cache.totalTokens == 200 && RouterKeepsCache(cache, 150)
    ensures var value := CandidateValue(TWO_ROUTES, ReadOf(80), 200, 0);
            var route := RoutedRoute(TWO_ROUTES.routes, 150, cache, value, 0);
            && PlannerInputCost(route, value, 150, true) == 390.0 / MILLION
            && RouterInputCost(route, 150, cache, value) == 750.0 / MILLION
  {
    hide RouterKeepsCache;
    LeastOfTwo(CoordinatorKey("model", ReadOf(80), 200, 0));
    var value := CandidateValue(TWO_ROUTES, ReadOf(80), 200, 0);
    assert value.exactReuse && value.provider == "first" && value.cachedTokens == 80;
    LeastOfTwo(RouterKey(150, cache, value, 0));
  }

  // ---------------------------------------------------------------- the price of a longer context

  lemma KeepsLonger<D>(cache: CacheAnalysis<D>, a: nat, b: nat)
    requires a <= b && RouterKeepsCache(cache, a)
    ensures RouterKeepsCache(cache, b)
  {
  }

  lemma CostGrows(c1: real, c2: real, q: real, p1: real, p2: real, p: real)
    requires c1 <= c2 && p1 <= p2 && q >= 0.0 && p >= 0.0
    ensures (c1 * q + p1 * p) / MILLION <= (c2 * q + p2 * p) / MILLION
  {
    ProductGrows(c1, c2, q);
    ProductGrows(p1, p2, p);
  }

  lemma InputCostGrows(route: ProviderRoute, a: nat, read: nat, b: nat, more: nat)
    requires route.Valid() && read <= more && read <= a && more <= b && a - read <= b - more
    ensures CoordinatorInputCost(route, a, read) <= CoordinatorInputCost(route, b, more)
  {
    CostGrows(read as real, more as real, route.CachedRate(), (a - read) as real, (b - more) as real, route.inputPrice);
  }

  lemma MoreTokensCostMore(route: ProviderRoute, a: nat, b: nat, cached: nat)
    requires route.Valid() && a <= b
    ensures CoordinatorInputCost(route, a, MinInt(a, cached)) <= CoordinatorInputCost(route, b, MinInt(b, cached))
    ensures CoordinatorInputCost(route, a, 0) <= CoordinatorInputCost(route, b, 0)
  {
    hide CoordinatorInputCost;
    InputCostGrows(route, a, MinInt(a, cached), b, MinInt(b, cached));
    InputCostGrows(route, a, 0, b, 0);
  }

  /** Carrying the extra tokens plainly is no dearer exactly when they are worth the discount. */
  lemma DiscountAgainstTokens(route: ProviderRoute, a: nat, b: nat, cached: nat)
    requires a <= b && cached <= b
    ensures CoordinatorInputCost(route, a, 0) <= CoordinatorInputCost(route, b, cached) <==>
              cached as real * (route.inputPrice - route.CachedRate()) <= (b - a) as real * route.inputPrice
  {
    var x, y, c, p, q := a as real, b as real, cached as real, route.inputPrice, route.CachedRate();
    NothingCached(route, a);
    assert (b - a) as real == y - x;
    assert (y - x) * p == y * p - x * p && c * (p - q) == c * p - c * q && (y - c) * p == y * p - c * p;
  }

  /** A shorter context costs at most as much as a longer one exactly when cutting it down does not lose the
      discount, or the tokens saved are worth at least the discount lost. */
  lemma InputCostMonotoneIff<D>(route: ProviderRoute, a: nat, b: nat, cache: CacheAnalysis<D>, value: CacheValue)
    requires route.Valid() && a <= b
    ensures !Discounted(route, value) ==>
              RouterInputCost(route, a, cache, value) <= RouterInputCost(route, b, cache, value)
    ensures Discounted(route, value) ==>
              (RouterInputCost(route, a, cache, value) <= RouterInputCost(route, b, cache, value) <==>
                 RouterKeepsCache(cache, a) == RouterKeepsCache(cache, b)
                 || MinInt(b, value.cachedTokens) as real * (route.inputPrice - route.CachedRate())
                      <= (b - a) as real * route.inputPrice)
  {
    hide CoordinatorInputCost, RouterInputCost, RouterKeepsCache;
    RouterReads(route, a, cache, value);
    RouterReads(route, b, cache, value);
    MoreTokensCostMore(route, a, b, value.cachedTokens);
    DiscountAgainstTokens(route, a, b, MinInt(b, value.cachedTokens));
    if RouterKeepsCache(cache, a) { KeepsLonger(cache, a, b); }
  }

  /** What the router pays for a context on the route it picks for it. */
  function RoutedPrice<D(!new)>(
    routes: seq<ProviderRoute>, tokens: nat, cache: CacheAnalysis<D>, value: CacheValue, output: nat): real
    requires routes != []
  {
    RouterCost(RoutedRoute(routes, tokens, cache, value, output), tokens, cache, value, output)
  }

  lemma RoutedPriceIsLeast<D(!new)>(
    routes: seq<ProviderRoute>, tokens: nat, cache: CacheAnalysis<D>, value: CacheValue, output: nat, r: ProviderRoute)
    requires r in routes
    ensures RoutedPrice(routes, tokens, cache, value, output) <= RouterCost(r, tokens, cache, value, output)
  {
    hide RouterCost;
    var key := RouterKey(tokens, cache, value, output);
    FirstLeastIsLeast(routes, key);
    assert !Less(key(r), key(RoutedRoute(routes, tokens, cache, value, output)));
  }

  /** Some route carries the shorter context plainly for at most what r asks for the longer one with its cache. */
  predicate PlainlyCovered(r: ProviderRoute, routes: seq<ProviderRoute>, a: nat, b: nat, cached: nat, output: nat) {
    exists q | q in routes ::
      PlainCost(q, a, output) <= CoordinatorInputCost(r, b, MinInt(b, cached)) + OutputCost(r, output)
  }

  /** The routed price of a shorter context is at most that of a longer one exactly when both keep the cached
      prefix or neither does, or no discounted route undercuts, at the longer context, every plain route at
      the shorter one. */
  lemma RoutedPriceMonotoneIff<D(!new)>(
    routes: seq<ProviderRoute>, a: nat, b: nat, cache: CacheAnalysis<D>, value: CacheValue, output: nat)
    requires routes != [] && a <= b && forall i | 0 <= i < |routes| :: routes[i].Valid()
    ensures RoutedPrice(routes, a, cache, value, output) <= RoutedPrice(routes, b, cache, value, output) <==>
              RouterKeepsCache(cache, a) == RouterKeepsCache(cache, b)
              || forall r | r in routes && Discounted(r, value) ::
                   PlainlyCovered(r, routes, a, b, value.cachedTokens, output)
  {
    hide RouterKeepsCache, RouterInputCost, CoordinatorInputCost, RoutedRoute, Discounted, OutputCost, PlainlyCovered;
    var ra, rb := RoutedRoute(routes, a, cache, value, output), RoutedRoute(routes, b, cache, value, output);
    forall r | r in routes
      ensures RoutedPrice(routes, a, cache, value, output) <= RouterCost(r, a, cache, value, output)
      ensures RoutedPrice(routes, b, cache, value, output) <= RouterCost(r, b, cache, value, output)
      ensures RouterKeepsCache(cache, a) == RouterKeepsCache(cache, b) || !Discounted(r, value) ==>
                RouterCost(r, a, cache, value, output) <= RouterCost(r, b, cache, value, output)
    {
      RoutedPriceIsLeast(routes, a, cache, value, output, r);
      RoutedPriceIsLeast(routes, b, cache, value, output, r);
      InputCostMonotoneIff(r, a, b, cache, value);
    }
    if RouterKeepsCache(cache, a) { KeepsLonger(cache, a, b); }
    if RouterKeepsCache(cache, b) && !RouterKeepsCache(cache, a) {
      LosingTheDiscount(routes, a, b, cache, value, output);
    }
  }

  lemma LosingTheDiscount<D(!new)>(
    routes: seq<ProviderRoute>, a: nat, b: nat, cache: CacheAnalysis<D>, value: CacheValue, output: nat)
    requires routes != [] && a <= b && (forall i | 0 <= i < |routes| :: routes[i].Valid())
    requires RouterKeepsCache(cache, b) && !RouterKeepsCache(cache, a)
    ensures RoutedPrice(routes, a, cache, value, output) <= RoutedPrice(routes, b, cache, value, output) <==>
              forall r | r in routes && Discounted(r, value) ::
                PlainlyCovered(r, routes, a, b, value.cachedTokens, output)
  {
    hide RouterKeepsCache, RouterInputCost, CoordinatorInputCost, RoutedRoute, Discounted, OutputCost;
    var ra, rb := RoutedRoute(routes, a, cache, value, output), RoutedRoute(routes, b, cache, value, output);
    forall r | r in routes
      ensures RouterCost(r, a, cache, value, output) == PlainCost(r, a, output)
      ensures Discounted(r, value) ==>
                RouterCost(r, b, cache, value, output)
                  == CoordinatorInputCost(r, b, MinInt(b, value.cachedTokens)) + OutputCost(r, output)
      ensures Discounted(r, value) || RouterCost(r, a, cache, value, output) <= RouterCost(r, b, cache, value, output)
      ensures RoutedPrice(routes, a, cache, value, output) <= RouterCost(r, a, cache, value, output)
      ensures RoutedPrice(routes, b, cache, value, output) <= RouterCost(r, b, cache, value, output)
    {
      RouterReads(r, a, cache, value);
      RouterReads(r, b, cache, value);
      NothingCached(r, a);
      RoutedPriceIsLeast(routes, a, cache, value, output, r);
      RoutedPriceIsLeast(routes, b, cache, value, output, r);
      InputCostMonotoneIff(r, a, b, cache, value);
    }
    assert ra in routes && rb in routes;
    if RoutedPrice(routes, a, cache, value, output) <= RoutedPrice(routes, b, cache, value, output) {
      forall r | r in routes && Discounted(r, value)
        ensures PlainlyCovered(r, routes, a, b, value.cachedTokens, output)
      {
        assert PlainCost(ra, a, output) <= RouterCost(r, b, cache, value, output);
      }
    }
    if Discounted(rb, value) && PlainlyCovered(rb, routes, a, b, value.cachedTokens, output) {
      var q :| q in routes && PlainCost(q, a, output) <= RouterCost(rb, b, cache, value, output);
      assert RouterCost(q, a, cache, value, output) == PlainCost(q, a, output);
    }
  }
}
