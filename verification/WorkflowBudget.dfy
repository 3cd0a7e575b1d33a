/** Pacing a workflow's budget over its remaining work, and authorizing one call within it. */
module WorkflowBudget {
  import opened Basics
  import L = WorkflowLedger
  import S = WorkflowSystem
  import T = WorkflowTheorems

  datatype Fault =
    | NoScopes | BadWeight | BadScope | Exhausted | MissingPrediction | BadPrediction
    | BadAmount | CostExceedsBudget | NoOutputFunded | BadCallerLimit

  // ---------------------------------------------------------------- the effective target

  function Available(s: L.Scope): real {
    s.maxUsd - s.spentUsd - s.reservedUsd
  }

  function BudgetView(s: L.Scope): Result<real, Fault> {
    if s.maxUsd <= 0.0 || s.spentUsd < 0.0 || s.reservedUsd < 0.0 then Err(BadScope)
    else if Available(s) <= 0.0 then Err(Exhausted)
    else Ok(Available(s))
  }

  datatype Prediction = Prediction(remainingCalls: real, remainingWeight: real)

  /** The part of an amount that a part is of its whole. */
  function Portion(amount: real, part: real, whole: real): real
    requires whole > 0.0
  {
    amount * part / whole
  }

  /** The share of what is available that the current request may take. */
  function Share(available: real, weight: real, remaining: real): real
    requires weight + remaining > 0.0
  {
    Portion(available, weight, weight + remaining)
  }

  datatype Target = Target(effectiveUsd: real, availableUsd: real)

  /** A scope has something left, and its remaining work is predicted. */
  predicate Usable(row: L.Row, horizon: map<L.Id, Prediction>) {
    && row.seen.spentUsd >= 0.0 && row.seen.reservedUsd >= 0.0 && row.seen.maxUsd > 0.0
    && row.seen.spentUsd + row.seen.reservedUsd < row.seen.maxUsd
    && row.id in horizon
    && horizon[row.id].remainingCalls >= 0.0 && horizon[row.id].remainingWeight >= 0.0
  }

  /** The least target, and the least available amount, over the scopes of a chain. */
  method EffectiveTarget(rows: seq<L.Row>, horizon: map<L.Id, Prediction>, weight: real)
    returns (target: Result<Target, Fault>)
    ensures target.Ok? <==> rows != [] && weight > 0.0 && forall i | 0 <= i < |rows| :: Usable(rows[i], horizon)
    ensures target.Ok? ==>
              && (forall i | 0 <= i < |rows| ::
                    target.value.effectiveUsd <= Share(Available(rows[i].seen), weight,
                                                       horizon[rows[i].id].remainingWeight))
              && (exists i :: 0 <= i < |rows| &&
                    target.value.effectiveUsd == Share(Available(rows[i].seen), weight,
                                                       horizon[rows[i].id].remainingWeight))
              && (forall i | 0 <= i < |rows| :: target.value.availableUsd <= Available(rows[i].seen))
              && (exists i :: 0 <= i < |rows| && target.value.availableUsd == Available(rows[i].seen))
              && 0.0 < target.value.effectiveUsd <= target.value.availableUsd
  {
    if rows == [] { return Err(NoScopes); }
    if weight <= 0.0 { return Err(BadWeight); }
    var effective, available := 0.0, 0.0;
    ghost var least, poorest := 0, 0;
    for i := 0 to |rows|
      invariant forall j | 0 <= j < i :: Usable(rows[j], horizon)
      invariant forall j | 0 <= j < i ::
                  effective <= Share(Available(rows[j].seen), weight, horizon[rows[j].id].remainingWeight)
      invariant forall j | 0 <= j < i :: available <= Available(rows[j].seen)
      invariant i > 0 ==> 0 <= least < i && 0 <= poorest < i
      invariant i > 0 ==> effective == Share(Available(rows[least].seen), weight,
                                             horizon[rows[least].id].remainingWeight)
      invariant i > 0 ==> available == Available(rows[poorest].seen)
      invariant i > 0 ==> 0.0 < effective <= available
    {
      hide Share;
      var view := BudgetView(rows[i].seen);
      if view.Err? { return Err(view.error); }
      if rows[i].id !in horizon { return Err(MissingPrediction); }
      var p := horizon[rows[i].id];
      if p.remainingCalls < 0.0 || p.remainingWeight < 0.0 { return Err(BadPrediction); }
      var share := Share(view.value, weight, p.remainingWeight);
      ShareIsPart(view.value, weight, p.remainingWeight);
      if i == 0 || share < effective { effective, least := share, i; }
      if i == 0 || view.value < available { available, poorest := view.value, i; }
    }
    return Ok(Target(effective, available));
  }

  lemma ShareIsPart(available: real, weight: real, remaining: real)
    requires available > 0.0 && weight > 0.0 && remaining >= 0.0
    ensures 0.0 < Share(available, weight, remaining) <= available
    ensures available - Share(available, weight, remaining) == Portion(available, remaining, weight + remaining)
  {
    var whole := weight + remaining;
    Distribute(available, weight, remaining);
    Quotient(available * weight, whole, available);
    SplitQuotient(available * weight, available * remaining, whole, available);
  }

  lemma Distribute(a: real, x: real, y: real)
    requires a >= 0.0 && x >= 0.0 && y >= 0.0
    ensures a * x + a * y == a * (x + y)
    ensures a * x >= 0.0 && a * y >= 0.0 && (a > 0.0 && x > 0.0 ==> a * x > 0.0)
  {}

  lemma Quotient(n: real, d: real, q: real)
    requires d > 0.0 && n > 0.0 && n <= q * d
    ensures 0.0 < n / d <= q
  {}

  lemma SplitQuotient(a: real, b: real, d: real, q: real)
    requires d > 0.0 && a + b == q * d
    ensures a / d + b / d == q
  {}

  // ---------------------------------------------------------------- pacing over many calls

  /** One call as the budget sees it: its weight, the work each scope expects afterwards, its spending. */
  datatype PacedCall = PacedCall(weight: real, remaining: map<L.Id, real>, spend: real)

  /** Every call spends at most its share of each scope, and the predicted work of each scope runs down
      by exactly the weights of the calls. */
  ghost predicate Paced(available: map<L.Id, real>, work: map<L.Id, real>, calls: seq<PacedCall>)
    decreases |calls|
  {
    calls == [] || (
      var c := calls[0];
      && c.weight > 0.0 && c.spend >= 0.0 && c.remaining.Keys == available.Keys == work.Keys
      && (forall s | s in available ::
            c.remaining[s] >= 0.0 && c.weight + c.remaining[s] == work[s]
            && c.spend <= Share(available[s], c.weight, c.remaining[s]))
      && Paced(After(available, c.spend), c.remaining, calls[1..]))
  }

  function After(available: map<L.Id, real>, spend: real): map<L.Id, real> {
    map s | s in available :: available[s] - spend
  }

  function Left(available: map<L.Id, real>, calls: seq<PacedCall>): map<L.Id, real>
    decreases |calls|
  {
    if calls == [] then available else Left(After(available, calls[0].spend), calls[1..])
  }

  function Spending(calls: seq<PacedCall>): real
    decreases |calls|
  {
    if calls == [] then 0.0 else calls[0].spend + Spending(calls[1..])
  }

  function WorkLeft(work: map<L.Id, real>, calls: seq<PacedCall>): map<L.Id, real>
    decreases |calls|
  {
    if calls == [] then work else WorkLeft(calls[0].remaining, calls[1..])
  }

  lemma OneStepKeepsShare(available: real, weight: real, remaining: real, spend: real)
    requires available >= 0.0 && weight > 0.0 && remaining >= 0.0
    requires spend <= Share(available, weight, remaining)
    ensures available - spend >= Portion(available, remaining, weight + remaining) >= 0.0
  {
    if available > 0.0 {
      ShareIsPart(available, weight, remaining);
    } else {
      assert Portion(0.0, remaining, weight + remaining) == 0.0;
    }
    PortionIsNonnegative(available, remaining, weight + remaining);
  }

  lemma PortionIsNonnegative(amount: real, part: real, whole: real)
    requires amount >= 0.0 && part >= 0.0 && whole > 0.0
    ensures Portion(amount, part, whole) >= 0.0
  {
    assert amount * part >= 0.0;
  }

  lemma WholePortion(amount: real, whole: real)
    requires whole > 0.0
    ensures Portion(amount, whole, whole) == amount
  {}

  /** A portion of a portion of the same chain of parts is a portion of the whole. */
  lemma PortionOfPortion(amount: real, middle: real, last: real, whole: real)
    requires whole > 0.0 && middle > 0.0
    ensures Portion(Portion(amount, middle, whole), last, middle) == Portion(amount, last, whole)
  {
    var k := amount / whole;
    assert amount * middle / whole == k * middle;
    assert (k * middle) * last == (k * last) * middle;
    assert (k * last) * middle / middle == k * last;
    assert k * last == amount * last / whole;
  }

  lemma PortionGrows(amount: real, more: real, part: real, whole: real)
    requires amount <= more && part >= 0.0 && whole > 0.0
    ensures Portion(amount, part, whole) <= Portion(more, part, whole)
  {
    assert amount * part <= more * part;
  }

  /** Pacing telescopes: after any number of calls every scope of the chain still has at least the
      fraction of its initial budget that its remaining work is of its initial work. */
  lemma {:induction false} PacingKeepsEveryShare(
    available: map<L.Id, real>, work: map<L.Id, real>, calls: seq<PacedCall>, s: L.Id)
    requires Paced(available, work, calls) && s in available && s in work
    requires available[s] >= 0.0 && work[s] > 0.0
    ensures s in Left(available, calls) && s in WorkLeft(work, calls)
    ensures WorkLeft(work, calls)[s] >= 0.0 && Left(available, calls)[s] == available[s] - Spending(calls)
    ensures Left(available, calls)[s] >= Portion(available[s], WorkLeft(work, calls)[s], work[s]) >= 0.0
    decreases |calls|
  {
    hide Share; hide Portion;
    if calls == [] {
      WholePortion(available[s], work[s]);
    } else {
      var c, next := calls[0], After(available, calls[0].spend);
      OneStepKeepsShare(available[s], c.weight, c.remaining[s], c.spend);
      if c.remaining[s] > 0.0 {
        var last := WorkLeft(c.remaining, calls[1..]);
        PacingKeepsEveryShare(next, c.remaining, calls[1..], s);
        PortionGrows(Portion(available[s], c.remaining[s], work[s]), next[s], last[s], c.remaining[s]);
        PortionOfPortion(available[s], c.remaining[s], last[s], work[s]);
        PortionIsNonnegative(available[s], last[s], work[s]);
      } else {
        assert calls[1..] == [];
      }
    }
  }

  /** A single scope whose calls spend exactly their target. */
  ghost predicate Exact(available: real, work: real, weights: seq<real>, spends: seq<real>)
    decreases |weights|
  {
    |weights| == |spends| && (weights == [] || (
      && weights[0] > 0.0 && weights[0] <= work
      && spends[0] == Share(available, weights[0], work - weights[0])
      && Exact(available - spends[0], work - weights[0], weights[1..], spends[1..])))
  }

  /** Spending exactly the target gives every call the share of the initial budget that its weight is
      of the whole work, whatever came before it. */
  lemma {:induction false} ExactSpendingIsProportional(
    available: real, work: real, weights: seq<real>, spends: seq<real>, i: nat)
    requires Exact(available, work, weights, spends) && i < |weights| && work > 0.0
    ensures spends[i] == Portion(available, weights[i], work)
    decreases |weights|
  {
    hide Portion;
    if i > 0 {
      var rest := work - weights[0];
      assert weights[1..][0] > 0.0 && weights[1..][0] <= rest;
      Remainder(available, weights[0], work);
      ExactSpendingIsProportional(available - spends[0], rest, weights[1..], spends[1..], i - 1);
      PortionOfPortion(available, rest, weights[i], work);
    }
  }

  lemma Remainder(amount: real, part: real, whole: real)
    requires whole > 0.0
    ensures amount - Portion(amount, part, whole) == Portion(amount, whole - part, whole)
  {
    assert amount * part + amount * (whole - part) == amount * whole;
    SplitQuotient(amount * part, amount * (whole - part), whole, amount);
  }

  // ---------------------------------------------------------------- authorizing one call

  function Cost(input: nat, output: nat, inputPrice: real, outputPrice: real): real {
    (input as real * inputPrice + output as real * outputPrice) / MILLION
  }

  /** The predicted number of output tokens may be fractional. */
  function PredictedCost(input: nat, output: real, inputPrice: real, outputPrice: real): Result<real, Fault> {
    if inputPrice <= 0.0 || outputPrice <= 0.0 || output <= 0.0 then Err(BadAmount)
    else Ok((input as real * inputPrice + output * outputPrice) / MILLION)
  }

  datatype Authorization = Authorization(callLimitUsd: real, inputReserveUsd: real, maxOutputTokens: int)

  function CallLimit(available: real, target: real, predicted: real): real {
    Min(available, Max(target, predicted))
  }

  function FundedOutput(callLimit: real, input: nat, inputPrice: real, outputPrice: real): int
    requires outputPrice > 0.0
  {
    ((callLimit - input as real * inputPrice / MILLION) * MILLION / outputPrice).Floor
  }

  function Authorize(
    available: real, target: real, predicted: real, input: nat, inputPrice: real, outputPrice: real,
    callerMax: Option<int>): Result<Authorization, Fault>
  {
    if available <= 0.0 || target <= 0.0 || predicted <= 0.0 then Err(BadAmount)
    else if predicted > available + SLACK then Err(CostExceedsBudget)
    else if inputPrice <= 0.0 || outputPrice <= 0.0 then Err(BadAmount)
    else
      var limit := CallLimit(available, target, predicted);
      var reserve := input as real * inputPrice / MILLION;
      if limit - reserve <= 0.0 then Err(NoOutputFunded)
      else if callerMax.Some? && callerMax.value <= 0 then Err(BadCallerLimit)
      else
        var funded := FundedOutput(limit, input, inputPrice, outputPrice);
        var maximum := if callerMax.Some? then MinInt(funded, callerMax.value) else funded;
        if maximum < 1 then Err(NoOutputFunded) else Ok(Authorization(limit, reserve, maximum))
  }

  /** What the ranking does with one candidate: predict its cost, then authorize it. */
  function AuthorizeCandidate(
    available: real, target: real, input: nat, predictedOutput: real, inputPrice: real, outputPrice: real,
    callerMax: Option<int>): Result<Authorization, Fault>
  {
    match PredictedCost(input, predictedOutput, inputPrice, outputPrice)
    case Err(fault) => Err(fault)
    case Ok(predicted) => Authorize(available, target, predicted, input, inputPrice, outputPrice, callerMax)
  }

  lemma FundedOutputFits(callLimit: real, input: nat, inputPrice: real, outputPrice: real, output: nat)
    requires outputPrice > 0.0
    ensures output <= FundedOutput(callLimit, input, inputPrice, outputPrice) <==>
              input as real * inputPrice + output as real * outputPrice <= callLimit * MILLION
  {
    var budget := (callLimit - input as real * inputPrice / MILLION) * MILLION;
    assert budget == callLimit * MILLION - input as real * inputPrice;
    FloorOfQuotient(output, budget, outputPrice);
  }

  lemma FloorOfQuotient(n: nat, x: real, d: real)
    requires d > 0.0
    ensures n <= (x / d).Floor <==> n as real * d <= x
  {
    var q := x / d;
    assert q * d == x;
    if n as real <= q {
      assert n as real * d <= q * d;
    } else {
      assert n as real * d > q * d;
    }
  }

  lemma CostGrows(input: nat, output: nat, input': nat, output': nat, inputPrice: real, outputPrice: real)
    requires input <= input' && output <= output' && inputPrice >= 0.0 && outputPrice >= 0.0
    ensures Cost(input, output, inputPrice, outputPrice) <= Cost(input', output', inputPrice, outputPrice)
  {
    ProductGrows(input as real, input' as real, inputPrice);
    ProductGrows(output as real, output' as real, outputPrice);
  }

  /** Whatever a call uses within its authorization costs at most its limit, which no scope of the chain
      is short of; and without a limit of the caller's own, one more output token could cost more. */
  lemma AuthorizedCallFitsItsLimit(
    available: real, target: real, predicted: real, input: nat, inputPrice: real, outputPrice: real,
    callerMax: Option<int>, usedInput: nat, usedOutput: nat)
    requires Authorize(available, target, predicted, input, inputPrice, outputPrice, callerMax).Ok?
    ensures var a := Authorize(available, target, predicted, input, inputPrice, outputPrice, callerMax).value;
            && 0.0 < a.callLimitUsd <= available
            && (usedInput <= input && usedOutput <= a.maxOutputTokens ==>
                  Cost(usedInput, usedOutput, inputPrice, outputPrice) <= a.callLimitUsd)
            && (callerMax.None? ==> Cost(input, a.maxOutputTokens + 1, inputPrice, outputPrice) > a.callLimitUsd)
            && (callerMax.Some? ==> a.maxOutputTokens <= callerMax.value)
            && (callerMax.Some? && a.maxOutputTokens < callerMax.value ==>
                  Cost(input, a.maxOutputTokens + 1, inputPrice, outputPrice) > a.callLimitUsd)
  {
    hide FundedOutput; hide Cost; hide CallLimit;
    var a := Authorize(available, target, predicted, input, inputPrice, outputPrice, callerMax).value;
    LimitIsPositive(available, target, predicted);
    FundedOutputFits(a.callLimitUsd, input, inputPrice, outputPrice, a.maxOutputTokens);
    FundedOutputFits(a.callLimitUsd, input, inputPrice, outputPrice, a.maxOutputTokens + 1);
    CostAgainstLimit(input, a.maxOutputTokens, inputPrice, outputPrice, a.callLimitUsd);
    CostAgainstLimit(input, a.maxOutputTokens + 1, inputPrice, outputPrice, a.callLimitUsd);
    if usedInput <= input && usedOutput <= a.maxOutputTokens {
      CostGrows(usedInput, usedOutput, input, a.maxOutputTokens, inputPrice, outputPrice);
    }
  }

  /** When a call is authorized, and for how much: at least its target and its predicted cost, as far as they are
      available, and no more than the larger of the two.  It is refused exactly when an amount is not positive, the
      prediction passes what is available, or not even one output token can be paid for or is wanted. */
  lemma AuthorizationMeaning(
    available: real, target: real, predicted: real, input: nat, inputPrice: real, outputPrice: real,
    callerMax: Option<int>)
    ensures var r := Authorize(available, target, predicted, input, inputPrice, outputPrice, callerMax);
            var positive := available > 0.0 && target > 0.0 && predicted > 0.0;
            var priced := inputPrice > 0.0 && outputPrice > 0.0;
            var limit := CallLimit(available, target, predicted);
            && (r == Err(CostExceedsBudget) <==> positive && predicted > available + 0.000000000001)
            && (r == Err(BadAmount) <==> !positive || (predicted <= available + 0.000000000001 && !priced))
            && (r.Ok? <==>
                  && positive && priced && predicted <= available + 0.000000000001
                  && Cost(input, 1, inputPrice, outputPrice) <= limit && (callerMax.Some? ==> callerMax.value >= 1))
            && (r.Ok? ==> r.value.callLimitUsd == limit && r.value.inputReserveUsd == Cost(input, 0, inputPrice, 0.0))
    ensures var limit := CallLimit(available, target, predicted);
            && limit <= available && (limit == available || limit == target || limit == predicted)
            && (limit >= target || limit == available) && (limit >= predicted || limit == available)
            && (limit <= target || limit <= predicted)
  {
    hide FundedOutput, Cost;
    var limit := CallLimit(available, target, predicted);
    if available > 0.0 && target > 0.0 && predicted > 0.0 && inputPrice > 0.0 && outputPrice > 0.0 {
      FundedOutputFits(limit, input, inputPrice, outputPrice, 1);
      CostAgainstLimit(input, 1, inputPrice, outputPrice, limit);
      ReserveIsCost(input, inputPrice, outputPrice);
    }
  }

  /** A whole number of predicted tokens is predicted to cost what using them costs. */
  lemma PredictionIsCost(input: nat, output: nat, inputPrice: real, outputPrice: real)
    ensures PredictedCost(input, output as real, inputPrice, outputPrice)
              == if inputPrice > 0.0 && outputPrice > 0.0 && output > 0
                 then Ok(Cost(input, output, inputPrice, outputPrice)) else Err(BadAmount)
  {
  }

  lemma ReserveIsCost(input: nat, inputPrice: real, outputPrice: real)
    requires outputPrice > 0.0
    ensures Cost(input, 0, inputPrice, 0.0) == input as real * inputPrice / MILLION
    ensures Cost(input, 1, inputPrice, outputPrice) > input as real * inputPrice / MILLION
  {
  }

  /** An authorized candidate may produce all the output predicted for it, unless its caller allows less or the
      prediction passes what is available by a part of the slack. */
  lemma PredictedOutputIsFunded(
    available: real, target: real, input: nat, predictedOutput: real, inputPrice: real, outputPrice: real,
    callerMax: Option<int>)
    requires AuthorizeCandidate(available, target, input, predictedOutput, inputPrice, outputPrice, callerMax).Ok?
    ensures var a := AuthorizeCandidate(available, target, input, predictedOutput, inputPrice, outputPrice,
                                        callerMax).value;
            var predicted := PredictedCost(input, predictedOutput, inputPrice, outputPrice).value;
            || predictedOutput.Floor <= a.maxOutputTokens || callerMax == Some(a.maxOutputTokens)
            || available < predicted <= available + SLACK
  {
    hide FundedOutput;
    var a := AuthorizeCandidate(available, target, input, predictedOutput, inputPrice, outputPrice, callerMax).value;
    FundedOutputFits(a.callLimitUsd, input, inputPrice, outputPrice, predictedOutput.Floor);
    var x, z := input as real * inputPrice, predictedOutput * outputPrice;
    var predicted := PredictedCost(input, predictedOutput, inputPrice, outputPrice).value;
    ProductGrows(predictedOutput.Floor as real, predictedOutput, outputPrice);
    assert predicted * MILLION == x + z;
    if predicted <= available { ProductGrows(predicted, a.callLimitUsd, MILLION); }
  }

  lemma LimitIsPositive(available: real, target: real, predicted: real)
    requires available > 0.0 && target > 0.0
    ensures 0.0 < CallLimit(available, target, predicted) <= available
  {}

  lemma CostAgainstLimit(input: nat, output: nat, inputPrice: real, outputPrice: real, limit: real)
    ensures Cost(input, output, inputPrice, outputPrice) <= limit <==>
              input as real * inputPrice + output as real * outputPrice <= limit * MILLION
  {}

  // ---------------------------------------------------------------- from authorization to the ledger

  /** A call authorized from a chain as it stands is always granted its reservation. */
  lemma AuthorizedCallIsReserved(
    l: L.Ledger, runId: L.Id, scopeId: L.Id, available: real, target: real, predicted: real, input: nat,
    inputPrice: real, outputPrice: real, callerMax: Option<int>, rid: L.Id)
    requires L.Consistent(l) && L.ReadChain(l, runId, scopeId).Arrived? && rid !in l.reservations
    requires var rows := L.ReadChain(l, runId, scopeId).chain;
             forall i | 0 <= i < |rows| :: rows[i].id in l.scopes && available <= Available(l.scopes[rows[i].id])
    requires Authorize(available, target, predicted, input, inputPrice, outputPrice, callerMax).Ok?
    ensures var a := Authorize(available, target, predicted, input, inputPrice, outputPrice, callerMax).value;
            L.Reserve(l, runId, L.Ids(L.ReadChain(l, runId, scopeId).chain), a.callLimitUsd, rid).Ok?
  {
    var a := Authorize(available, target, predicted, input, inputPrice, outputPrice, callerMax).value;
    AuthorizedCallFitsItsLimit(available, target, predicted, input, inputPrice, outputPrice, callerMax, 0, 0);
    T.FreshReservationIsGranted(l, runId, scopeId, a.callLimitUsd, rid);
  }

  /** Within its authorization the exact cost of a started call always settles. */
  lemma AuthorizedSpendSettles(
    s: S.System, rid: L.Id, available: real, target: real, predicted: real, input: nat, inputPrice: real,
    outputPrice: real, callerMax: Option<int>, usedInput: nat, usedOutput: nat)
    requires S.Sound(s) && rid in s.ledger.reservations && s.ledger.reservations[rid].status == L.Started
    requires Authorize(available, target, predicted, input, inputPrice, outputPrice, callerMax).Ok?
    requires var a := Authorize(available, target, predicted, input, inputPrice, outputPrice, callerMax).value;
             s.ledger.reservations[rid].callLimitUsd == a.callLimitUsd && usedInput <= input
               && usedOutput <= a.maxOutputTokens
    ensures var spend := Cost(usedInput, usedOutput, inputPrice, outputPrice);
            L.Finalize(s.ledger, rid, s.ledger.reservations[rid], L.Settle, spend).Ok?
  {
    var spend := Cost(usedInput, usedOutput, inputPrice, outputPrice);
    AuthorizedCallFitsItsLimit(available, target, predicted, input, inputPrice, outputPrice, callerMax, usedInput,
                               usedOutput);
    CostGrows(0, 0, usedInput, usedOutput, inputPrice, outputPrice);
    T.SettlementAcceptance(s, rid, L.Settle, spend);
  }

  // ---------------------------------------------------------------- rounding the reported spending

  /** Spending is rounded before it is reported.  Whatever a call uses within its authorization settles, rounded,
      exactly when the cost of using all of it does not round up past the limit by more than the slack. */
  lemma RoundedSpendSettlesIff(
    s: S.System, rid: L.Id, available: real, target: real, predicted: real, input: nat, inputPrice: real,
    outputPrice: real, callerMax: Option<int>)
    requires S.Sound(s) && rid in s.ledger.reservations && s.ledger.reservations[rid].status == L.Started
    requires Authorize(available, target, predicted, input, inputPrice, outputPrice, callerMax).Ok?
    requires var a := Authorize(available, target, predicted, input, inputPrice, outputPrice, callerMax).value;
             s.ledger.reservations[rid].callLimitUsd == a.callLimitUsd
    ensures var a := Authorize(available, target, predicted, input, inputPrice, outputPrice, callerMax).value;
            (forall usedInput: nat, usedOutput: nat | usedInput <= input && usedOutput <= a.maxOutputTokens ::
               RoundedSpendSettles(s, rid, Cost(usedInput, usedOutput, inputPrice, outputPrice))) <==>
              Round8(Cost(input, a.maxOutputTokens, inputPrice, outputPrice)) <= a.callLimitUsd + SLACK
  {
    hide Cost, CallLimit, FundedOutput, RoundedSpendSettles, Round8;
    var a := Authorize(available, target, predicted, input, inputPrice, outputPrice, callerMax).value;
    var most := Cost(input, a.maxOutputTokens, inputPrice, outputPrice);
    forall usedInput: nat, usedOutput: nat | usedInput <= input && usedOutput <= a.maxOutputTokens
      ensures var cost := Cost(usedInput, usedOutput, inputPrice, outputPrice);
              && (RoundedSpendSettles(s, rid, cost) <==> Round8(cost) <= a.callLimitUsd + SLACK)
              && Round8(cost) <= Round8(most)
    {
      var cost := Cost(usedInput, usedOutput, inputPrice, outputPrice);
      CostGrows(0, 0, usedInput, usedOutput, inputPrice, outputPrice);
      CostGrows(usedInput, usedOutput, input, a.maxOutputTokens, inputPrice, outputPrice);
      NothingCostsNothing(inputPrice, outputPrice);
      RoundingIsMonotone(cost, most);
      RoundedSettlement(s, rid, cost);
    }
    assert RoundedSpendSettles(s, rid, Cost(input, a.maxOutputTokens, inputPrice, outputPrice)) <==>
             Round8(most) <= a.callLimitUsd + SLACK;
  }

  ghost predicate RoundedSpendSettles(s: S.System, rid: L.Id, cost: real)
    requires rid in s.ledger.reservations
  {
    L.Finalize(s.ledger, rid, s.ledger.reservations[rid], L.Settle, Round8(cost)).Ok?
  }

  lemma NothingCostsNothing(inputPrice: real, outputPrice: real)
    ensures Cost(0, 0, inputPrice, outputPrice) == 0.0
  {
  }

  lemma RoundedSettlement(s: S.System, rid: L.Id, cost: real)
    requires S.Sound(s) && rid in s.ledger.reservations && s.ledger.reservations[rid].status == L.Started && cost >= 0.0
    ensures RoundedSpendSettles(s, rid, cost) <==> Round8(cost) <= s.ledger.reservations[rid].callLimitUsd + SLACK
  {
    hide Round8;
    RoundingKeepsSign(cost);
    T.SettlementAcceptance(s, rid, L.Settle, Round8(cost));
  }

  /** A call that uses exactly what it was authorized can therefore be refused: in a reachable state its cost,
      which is its limit, rounds up past the slack. */
  lemma RoundingCanRefuseAnAuthorizedCall()
    ensures var auth := Authorize(1.0, 0.500000006, 0.500000006, 500000, 1.0, 0.006, None);
            && auth.Ok? && auth.value.maxOutputTokens == 1
            && Cost(500000, 1, 1.0, 0.006) <= auth.value.callLimitUsd
            && exists actions :: var s := S.Execute(S.START, actions);
                 && T.CALL in s.ledger.reservations && s.ledger.reservations[T.CALL].status == L.Started
                 && s.ledger.reservations[T.CALL].callLimitUsd == auth.value.callLimitUsd
                 && !RoundedSpendSettles(s, T.CALL, Cost(500000, 1, 1.0, 0.006))
  {
    hide L.Finalize, S.Execute;
    assert FundedOutput(0.500000006, 500000, 1.0, 0.006) == 1;
    var cost := Cost(500000, 1, 1.0, 0.006);
    assert cost == 0.500000006;
    assert cost * HUNDRED_MILLION == 50000000.6;
    assert RoundHalfEven(50000000.6) == 50000001;
    T.StartedCallIsReachable(0.500000006);
    var actions :| T.CALL in S.Execute(S.START, actions).ledger.reservations &&
      S.Execute(S.START, actions).ledger.reservations[T.CALL]
        == L.Reservation(T.RUN, [T.ROOT], 0.500000006, L.Started, 0.0);
    S.EveryReachableSystemIsSound(actions);
    RoundedSettlement(S.Execute(S.START, actions), T.CALL, cost);
  }
}
