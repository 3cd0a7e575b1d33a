/** Usage accounting: one retried, idempotent transaction that debits a route's budget, counts the
    request for the user, and logs it under its routing call id. */
module UsageAccounting {
  import opened Basics
  import opened Tallies

  type Name = string

  datatype Mode = RoutingFee | ProviderSpend

  datatype Budget = Budget(
    remainingUsd: real,
    remainingWeight: real,
    shadowPrice: real,
    learningRate: real,
    priceMin: real,
    priceMax: real,
    mode: Mode,
    updates: nat,
    totalRequests: nat,
    totalSpendUsd: real,
    successful: nat,
    failed: nat,
    completions: map<Name, nat>)

  datatype UserTotals = UserTotals(
    totalRequests: nat, totalSpendUsd: real, successful: nat, failed: nat, completions: map<Name, nat>)

  /** The accounting facts of a request, as logged and as compared on a replay. */
  datatype Facts = Facts(
    routeName: Name,
    modelId: Name,
    provider: Name,
    success: bool,
    counted: bool,
    feeUsd: real,
    providerUsd: real,
    mode: Mode,
    accountedUsd: real,
    weight: Option<real>,
    weightDebit: Option<real>)

  datatype Store = Store(budget: Option<Budget>, user: Option<UserTotals>, logs: map<Name, Facts>)

  datatype Request = Request(
    callId: Name,
    routeName: Name,
    modelId: Name,
    provider: Name,
    success: bool,
    spendUsd: real,
    weight: real,
    weightDebit: real,
    counted: bool)
  {
    /** What the log accepts before it opens a transaction. */
    predicate Valid() {
      spendUsd >= 0.0 && (counted ==> weight > 0.0 && 0.0 <= weightDebit <= weight)
    }
  }

  datatype Fault =
    | InvalidRequest | BudgetMissing | UserMissing | InvalidController | BudgetExhausted | CallIdConflict
    | DuplicateWithoutLog | TransactionFailed

  const FEE_RATE: real := 0.03

  function Fee(spendUsd: real): (fee: real)
    ensures fee >= 0.0
  {
    RoundingKeepsSign(Max(0.0, spendUsd) * FEE_RATE);
    Round8(Max(0.0, spendUsd) * FEE_RATE)
  }

  function FactsOf(r: Request, mode: Mode): Facts {
    var fee := Fee(r.spendUsd);
    Facts(r.routeName, r.modelId, r.provider, r.success, r.counted, fee, r.spendUsd, mode,
          if mode == ProviderSpend then r.spendUsd else fee,
          if r.counted then Some(r.weight) else None,
          if r.counted then Some(r.weightDebit) else None)
  }

  predicate CloseOption(a: Option<real>, b: Option<real>) {
    match (a, b)
    case (None, None) => true
    case (Some(x), Some(y)) => Close(x, y)
    case _ => false
  }

  /** A replay must report the same facts, amounts up to the slack. */
  predicate SameFacts(logged: Facts, f: Facts) {
    && logged.routeName == f.routeName && logged.modelId == f.modelId && logged.provider == f.provider
    && logged.success == f.success && logged.counted == f.counted && logged.mode == f.mode
    && Close(logged.feeUsd, f.feeUsd) && Close(logged.providerUsd, f.providerUsd)
    && Close(logged.accountedUsd, f.accountedUsd)
    && CloseOption(logged.weight, f.weight) && CloseOption(logged.weightDebit, f.weightDebit)
  }

  function Clamp(x: real, low: real, high: real): real {
    Min(high, Max(low, x))
  }

  // ---------------------------------------------------------------- the shadow price controller

  /** The spending the controller allots to a request: its weight's part of what remains. */
  function Allotted(b: Budget, weight: real, debit: real): real
    requires weight > 0.0
  {
    debit * (b.remainingUsd / Max(b.remainingWeight, weight))
  }

  predicate ConsistentController(b: Budget, spend: real, weight: real, debit: real) {
    b.remainingUsd >= 0.0 && b.remainingWeight >= 0.0 && spend >= 0.0 && weight > 0.0
    && 0.0 <= debit <= weight && b.learningRate >= 0.0
    && 0.0 <= b.priceMin <= b.priceMax && b.priceMin <= b.shadowPrice <= b.priceMax
  }

  function NextPrice(b: Budget, spend: real, weight: real, debit: real): Result<real, Fault> {
    if !ConsistentController(b, spend, weight, debit) then Err(InvalidController)
    else Ok(Clamp(b.shadowPrice + b.learningRate * (spend - Allotted(b, weight, debit)), b.priceMin, b.priceMax))
  }

  /** The allotment never exceeds the remaining budget. */
  lemma AllottedFitsBudget(b: Budget, spend: real, weight: real, debit: real)
    requires ConsistentController(b, spend, weight, debit)
    ensures 0.0 <= Allotted(b, weight, debit) <= b.remainingUsd
  {
    var planning := Max(b.remainingWeight, weight);
    var rate := b.remainingUsd / planning;
    assert rate >= 0.0 && rate * planning == b.remainingUsd;
    ProductGrows(0.0, debit, rate);
    ProductGrows(debit, planning, rate);
  }

  lemma SignOfProduct(rate: real, error: real)
    requires rate >= 0.0
    ensures error >= 0.0 ==> rate * error >= 0.0
    ensures error <= 0.0 ==> rate * error <= 0.0
  {}

  /** The price rises when a request spends more than its allotment and falls when it spends less,
      and stays within its bounds either way. */
  lemma PriceFollowsSpending(b: Budget, spend: real, weight: real, debit: real)
    requires ConsistentController(b, spend, weight, debit)
    ensures var price := NextPrice(b, spend, weight, debit).value;
            && b.priceMin <= price <= b.priceMax
            && (spend >= Allotted(b, weight, debit) ==> price >= b.shadowPrice)
            && (spend <= Allotted(b, weight, debit) ==> price <= b.shadowPrice)
  {
    hide Allotted;
    var error := spend - Allotted(b, weight, debit);
    SignOfProduct(b.learningRate, error);
  }

  // ---------------------------------------------------------------- one attempt

  function Increment(m: map<Name, nat>, key: Name): map<Name, nat> {
    m[key := (if key in m then m[key] else 0) + 1]
  }

  function Debited(b: Budget, f: Facts, price: real): Budget
    requires f.weightDebit.Some?
  {
    b.(remainingUsd := b.remainingUsd - f.accountedUsd,
       remainingWeight := Max(0.0, b.remainingWeight - f.weightDebit.value),
       shadowPrice := price,
       updates := b.updates + 1,
       totalRequests := b.totalRequests + 1,
       totalSpendUsd := b.totalSpendUsd + f.accountedUsd,
       successful := b.successful + if f.success then 1 else 0,
       failed := b.failed + if f.success then 0 else 1,
       completions := Increment(b.completions, f.provider))
  }

  function Counted(u: UserTotals, f: Facts): UserTotals {
    UserTotals(u.totalRequests + 1, u.totalSpendUsd + f.feeUsd,
               u.successful + if f.success then 1 else 0, u.failed + if f.success then 0 else 1,
               Increment(u.completions, f.provider))
  }

  /** The body of the transaction: what it would store and return. */
  function Persist(s: Store, r: Request): Result<(Store, Facts), Fault> {
    if s.budget.None? then Err(BudgetMissing)
    else
      var b := s.budget.value;
      var f := FactsOf(r, b.mode);
      if r.callId in s.logs then
        if SameFacts(s.logs[r.callId], f) then Ok((s, s.logs[r.callId])) else Err(CallIdConflict)
      else if !r.counted then Ok((s.(logs := s.logs[r.callId := f]), f))
      else
        match NextPrice(b, f.accountedUsd, r.weight, r.weightDebit)
        case Err(fault) => Err(fault)
        case Ok(price) =>
          if b.remainingUsd < f.accountedUsd then Err(BudgetExhausted)
          else if s.user.None? then Err(UserMissing)
          else
            Ok((Store(Some(Debited(b, f, price)), Some(Counted(s.user.value, f)), s.logs[r.callId := f]), f))
  }

  /** How the storage answers one attempt.  A commit whose acknowledgement is lost looks like a failure. */
  datatype Answer = Commits | CommitsUnheard | AbortsTransiently | AbortsForGood | ReportsDuplicate

  predicate Committed(a: Answer) {
    a == Commits || a == CommitsUnheard
  }

  function AfterAttempt(s: Store, r: Request, a: Answer): Store {
    if Committed(a) && Persist(s, r).Ok? then Persist(s, r).value.0 else s
  }

  const MAX_ATTEMPTS: nat := 8

  /** What the caller is told after one attempt; nothing means that it tries again.  After a duplicate the log is
      read first and the budget later, when other writers may have changed the store. */
  function Reply(s: Store, later: Store, r: Request, a: Answer, attempt: nat): Option<Result<Facts, Fault>> {
    match a
    case Commits =>
      (match Persist(s, r) case Ok(done) => Some(Ok(done.1)) case Err(fault) => Some(Err(fault)))
    case CommitsUnheard =>
      (match Persist(s, r) case Ok(_) => Some(Err(TransactionFailed)) case Err(fault) => Some(Err(fault)))
    case AbortsTransiently => if attempt < MAX_ATTEMPTS then None else Some(Err(TransactionFailed))
    case AbortsForGood => Some(Err(TransactionFailed))
    case ReportsDuplicate =>
      if r.callId !in s.logs then Some(Err(DuplicateWithoutLog))
      else if later.budget.None? then Some(Err(BudgetMissing))
      else if SameFacts(s.logs[r.callId], FactsOf(r, later.budget.value.mode)) then Some(Ok(s.logs[r.callId]))
      else Some(Err(CallIdConflict))
  }

  // ---------------------------------------------------------------- runs of attempts, whoever makes them

  datatype Action = Attempt(request: Request, answer: Answer) | ChangeMode(mode: Mode)

  function Apply(s: Store, a: Action): Store {
    match a
    case Attempt(r, answer) => if r.Valid() then AfterAttempt(s, r, answer) else s
    case ChangeMode(mode) => if s.budget.Some? then s.(budget := Some(s.budget.value.(mode := mode))) else s
  }

  function Execute(s: Store, actions: seq<Action>): Store
    decreases |actions|
  {
    if actions == [] then s else Execute(Apply(s, actions[0]), actions[1..])
  }

  ghost function Each(): nat -> real {
    (n: nat) => n as real
  }

  /** What a logged request took from the budget, and whether it was counted. */
  ghost function DebitOf(): Facts -> real {
    (f: Facts) => if f.counted then f.accountedUsd else 0.0
  }

  ghost function CountOf(): Facts -> real {
    (f: Facts) => if f.counted then 1.0 else 0.0
  }

  ghost predicate SoundTotals(requests: nat, successful: nat, failed: nat, completions: map<Name, nat>) {
    requests == successful + failed && requests as real == Tally(completions, Each())
  }

  ghost predicate SoundBudget(b: Budget) {
    && b.remainingUsd >= 0.0 && b.remainingWeight >= 0.0
    && 0.0 <= b.priceMin <= b.priceMax && b.priceMin <= b.shadowPrice <= b.priceMax
    && SoundTotals(b.totalRequests, b.successful, b.failed, b.completions)
  }

  ghost predicate Sound(s: Store) {
    && s.budget.Some? && s.user.Some? && SoundBudget(s.budget.value)
    && SoundTotals(s.user.value.totalRequests, s.user.value.successful, s.user.value.failed, s.user.value.completions)
  }

  /** From one store to a later one: the budget has moved by exactly the debits of the logs gained. */
  ghost predicate Conserves(s: Store, t: Store)
    requires s.budget.Some? && t.budget.Some? && s.user.Some? && t.user.Some?
  {
    var b, c := s.budget.value, t.budget.value;
    && c.remainingUsd + c.totalSpendUsd == b.remainingUsd + b.totalSpendUsd
    && c.totalSpendUsd - Tally(t.logs, DebitOf()) == b.totalSpendUsd - Tally(s.logs, DebitOf())
    && c.totalRequests as real - Tally(t.logs, CountOf()) == b.totalRequests as real - Tally(s.logs, CountOf())
    && t.user.value.totalRequests - s.user.value.totalRequests == c.totalRequests - b.totalRequests
    && c.priceMin == b.priceMin && c.priceMax == b.priceMax
    && c.remainingWeight <= b.remainingWeight && c.remainingUsd <= b.remainingUsd
    && (forall id | id in s.logs :: id in t.logs && t.logs[id] == s.logs[id])
  }

  lemma IncrementAddsOne(m: map<Name, nat>, key: Name)
    ensures Tally(Increment(m, key), Each()) == Tally(m, Each()) + 1.0
  {
    TallyPut(m, key, (if key in m then m[key] else 0) + 1, Each());
  }

  lemma DebitKeeps(b: Budget, f: Facts, price: real)
    requires SoundBudget(b) && f.weightDebit.Some? && f.weightDebit.value >= 0.0
    requires 0.0 <= f.accountedUsd <= b.remainingUsd && b.priceMin <= price <= b.priceMax
    ensures SoundBudget(Debited(b, f, price))
  {
    hide Tally;
    IncrementAddsOne(b.completions, f.provider);
  }

  lemma CountKeeps(u: UserTotals, f: Facts)
    requires SoundTotals(u.totalRequests, u.successful, u.failed, u.completions)
    ensures var v := Counted(u, f); SoundTotals(v.totalRequests, v.successful, v.failed, v.completions)
  {
    hide Tally;
    IncrementAddsOne(u.completions, f.provider);
  }

  lemma PersistKeeps(s: Store, r: Request)
    requires Sound(s) && r.Valid() && Persist(s, r).Ok?
    ensures var t := Persist(s, r).value.0; Sound(t) && Conserves(s, t)
  {
    hide Tally; hide FactsOf; hide NextPrice; hide SameFacts; hide SoundTotals; hide Fee;
    assert s.budget.value.remainingWeight >= 0.0;
    hide SoundBudget;
    var t := Persist(s, r).value.0;
    var b := s.budget.value;
    var f := FactsOf(r, b.mode);
    FactsFields(r, b.mode);
    if r.callId !in s.logs {
      TallyPut(s.logs, r.callId, f, DebitOf());
      TallyPut(s.logs, r.callId, f, CountOf());
      if r.counted {
        PriceIsBounded(b, f.accountedUsd, r.weight, r.weightDebit);
        DebitKeeps(b, f, NextPrice(b, f.accountedUsd, r.weight, r.weightDebit).value);
        CountKeeps(s.user.value, f);
      }
    }
  }

  lemma FactsFields(r: Request, mode: Mode)
    requires r.Valid()
    ensures var f := FactsOf(r, mode);
            && f.accountedUsd >= 0.0 && f.counted == r.counted
            && (r.counted ==> f.weightDebit == Some(r.weightDebit))
  {
  }

  lemma PriceIsBounded(b: Budget, spend: real, weight: real, debit: real)
    requires NextPrice(b, spend, weight, debit).Ok?
    ensures b.priceMin <= NextPrice(b, spend, weight, debit).value <= b.priceMax
  {
    PriceFollowsSpending(b, spend, weight, debit);
  }

  lemma StepKeeps(s: Store, a: Action)
    requires Sound(s)
    ensures Sound(Apply(s, a)) && Conserves(s, Apply(s, a))
  {
    hide Tally; hide Persist;
    if a.Attempt? && a.request.Valid() && Persist(s, a.request).Ok? {
      PersistKeeps(s, a.request);
    }
  }

  /** Over any run of committed, lost, aborted, retried and duplicate attempts: the budget stays
      nonnegative, its remainder and its total spending add up to a constant, its price stays within
      bounds, and what was spent is the sum of one debit for each counted routing call. */
  lemma {:induction false} EveryRunConserves(s: Store, actions: seq<Action>)
    requires Sound(s)
    ensures Sound(Execute(s, actions)) && Conserves(s, Execute(s, actions))
    decreases |actions|
  {
    hide Tally; hide Sound; hide Apply;
    if actions == [] {
      SoundHasBudget(s);
      assert Conserves(s, s);
    } else {
      var t := Apply(s, actions[0]);
      SoundHasBudget(s);
      StepKeeps(s, actions[0]);
      SoundHasBudget(t);
      EveryRunConserves(t, actions[1..]);
      SoundHasBudget(Execute(s, actions));
    }
  }

  lemma SoundHasBudget(s: Store)
    requires Sound(s)
    ensures s.budget.Some? && s.user.Some?
  {}

  /** How many steps of a run debit a given routing call. */
  ghost function Debits(s: Store, actions: seq<Action>, callId: Name): nat
    decreases |actions|
  {
    if actions == [] then 0
    else
      var t := Apply(s, actions[0]);
      (if actions[0].Attempt? && actions[0].request.callId == callId && s.budget.Some? && t.budget.Some?
          && t.budget.value.totalRequests != s.budget.value.totalRequests then 1 else 0)
      + Debits(t, actions[1..], callId)
  }

  /** A routing call is debited at most once, and exactly when a counted log of it appears. */
  lemma {:induction false} EachCallIsDebitedOnce(s: Store, actions: seq<Action>, callId: Name)
    requires Sound(s)
    ensures var t := Execute(s, actions);
            Debits(s, actions, callId)
              == if callId in t.logs && callId !in s.logs && t.logs[callId].counted then 1 else 0
    decreases |actions|
  {
    hide Tally; hide FactsOf; hide NextPrice; hide SameFacts; hide SoundBudget; hide SoundTotals;
    if actions != [] {
      var a, t := actions[0], Apply(s, actions[0]);
      StepKeeps(s, a);
      EachCallIsDebitedOnce(t, actions[1..], callId);
      EveryRunConserves(t, actions[1..]);
      if a.Attempt? && a.request.Valid() { FactsFields(a.request, s.budget.value.mode); }
    }
  }

  /** Whatever happened to a committed request's reply, trying it again returns the logged facts and
      changes nothing, as long as the budget's accounting mode is the one it was logged under; under
      the other mode the retry is refused, still without a change.  A retry that the storage reports as a
      duplicate goes by the mode of the moment it reads the budget. */
  lemma RetryIsIdempotent(s: Store, r: Request, actions: seq<Action>, again: Answer, late: seq<Action>)
    requires Sound(s) && r.Valid() && r.callId !in s.logs && Persist(s, r).Ok?
    ensures var t := Execute(AfterAttempt(s, r, CommitsUnheard), actions);
            var later := Execute(t, late);
            var logged := FactsOf(r, s.budget.value.mode);
            && t.budget.Some? && later.budget.Some? && r.callId in t.logs && t.logs[r.callId] == logged
            && AfterAttempt(t, r, again) == t
            && Reply(t, t, r, Commits, 1)
                 == Some(if t.budget.value.mode == s.budget.value.mode then Ok(logged) else Err(CallIdConflict))
            && Reply(t, later, r, ReportsDuplicate, 1)
                 == Some(if later.budget.value.mode == s.budget.value.mode then Ok(logged) else Err(CallIdConflict))
  {
    hide Tally; hide NextPrice; hide SoundBudget; hide SoundTotals; hide Fee;
    var u := AfterAttempt(s, r, CommitsUnheard);
    PersistKeeps(s, r);
    EveryRunConserves(u, actions);
    EveryRunConserves(Execute(u, actions), late);
  }

  /** From any store, a request that is logged without being counted is refused when it is tried again after
      the accounting mode changed. */
  lemma ModeChangeRefusesRetry(s: Store, r: Request, mode: Mode)
    requires Sound(s) && r.Valid() && !r.counted && r.callId !in s.logs && mode != s.budget.value.mode
    ensures var t := Execute(AfterAttempt(s, r, Commits), [ChangeMode(mode)]);
            Persist(s, r).Ok? && Reply(t, t, r, Commits, 1) == Some(Err(CallIdConflict))
  {
    hide Tally, NextPrice, SoundBudget, SoundTotals, Fee;
    assert [ChangeMode(mode)][1..] == [];
    RetryIsIdempotent(s, r, [ChangeMode(mode)], Commits, []);
  }

  lemma {:induction false} RunConcat(s: Store, first: seq<Action>, second: seq<Action>)
    ensures Execute(s, first + second) == Execute(Execute(s, first), second)
    decreases |first|
  {
    if first == [] {
      assert first + second == second;
    } else {
      assert (first + second)[1..] == first[1..] + second;
      RunConcat(Apply(s, first[0]), first[1..], second);
    }
  }

  lemma AttemptLast(s: Store, before: seq<Action>, r: Request, answer: Answer)
    requires r.Valid()
    ensures Execute(s, before + [Attempt(r, answer)]) == AfterAttempt(Execute(s, before), r, answer)
  {
    hide AfterAttempt;
    RunConcat(s, before, [Attempt(r, answer)]);
    assert [Attempt(r, answer)][1..] == [];
  }

  /** The first attempts of one request, each after what others did before it. */
  function Trail(r: Request, answers: seq<Answer>, others: seq<seq<Action>>, n: nat): seq<Action>
    requires n <= |answers| == |others|
  {
    if n == 0 then [] else Trail(r, answers, others, n - 1) + others[n - 1] + [Attempt(r, answers[n - 1])]
  }

  /** What others do between the two reads that follow a reported duplicate whose log is there. */
  function BetweenReads(s: Store, r: Request, a: Answer, late: seq<Action>): seq<Action> {
    if a == ReportsDuplicate && r.callId in s.logs then late else []
  }

  // ---------------------------------------------------------------- what one request costs whom

  /** Three percent of what the provider charged, in steps of a hundred-millionth, to within half a step. */
  ghost predicate IsFeeOn(fee: real, spend: real) {
    && -0.000000005 <= fee - 0.03 * spend <= 0.000000005
    && (fee * 100000000.0).Floor as real == fee * 100000000.0
  }

  lemma FeeMeaning(spend: real)
    requires spend >= 0.0
    ensures IsFeeOn(Fee(spend), spend)
  {
    var x := spend * FEE_RATE * HUNDRED_MILLION;
    var steps := RoundHalfEven(x);
    assert -0.5 <= steps as real - x <= 0.5;
    assert Fee(spend) * 100000000.0 == steps as real;
  }

  /** What the log keeps of a request. */
  ghost predicate Records(f: Facts, r: Request, mode: Mode) {
    && f.routeName == r.routeName && f.modelId == r.modelId && f.provider == r.provider
    && f.success == r.success && f.counted == r.counted && f.mode == mode
    && IsFeeOn(f.feeUsd, r.spendUsd) && f.providerUsd == r.spendUsd
    && f.accountedUsd == (match mode case ProviderSpend => r.spendUsd case RoutingFee => f.feeUsd)
    && f.weight == (if r.counted then Some(r.weight) else None)
    && f.weightDebit == (if r.counted then Some(r.weightDebit) else None)
  }

  /** The budget is debited what its mode accounts, its weight falls down to zero at the lowest, its price follows
      the error against the allotted spending within its bounds, and one request is counted. */
  ghost predicate Pays(b: Budget, c: Budget, r: Request, debit: real) {
    && c.remainingUsd == b.remainingUsd - debit && c.totalSpendUsd == b.totalSpendUsd + debit
    && (r.weightDebit <= b.remainingWeight ==> c.remainingWeight == b.remainingWeight - r.weightDebit)
    && (r.weightDebit > b.remainingWeight ==> c.remainingWeight == 0.0)
    && (var weight := if b.remainingWeight > r.weight then b.remainingWeight else r.weight;
        weight > 0.0 &&
        var price := b.shadowPrice + b.learningRate * (debit - r.weightDebit * (b.remainingUsd / weight));
        c.shadowPrice == if price < b.priceMin then b.priceMin else if price > b.priceMax then b.priceMax else price)
    && c.updates == b.updates + 1 && c.totalRequests == b.totalRequests + 1
    && c.successful - b.successful == (if r.success then 1 else 0)
    && c.failed - b.failed == (if r.success then 0 else 1)
    && CountsOne(b.completions, c.completions, r.provider)
    && c.mode == b.mode && c.learningRate == b.learningRate && c.priceMin == b.priceMin && c.priceMax == b.priceMax
  }

  ghost predicate CountsOne(m: map<Name, nat>, n: map<Name, nat>, key: Name) {
    && key in n && n.Keys == m.Keys + {key} && n[key] == (if key in m then m[key] else 0) + 1
    && (forall other | other in m && other != key :: n[other] == m[other])
  }

  /** The user is charged the fee, whatever the mode of the route's budget. */
  ghost predicate Charges(u: UserTotals, v: UserTotals, r: Request, fee: real) {
    && v.totalRequests == u.totalRequests + 1 && v.totalSpendUsd == u.totalSpendUsd + fee
    && v.successful - u.successful == (if r.success then 1 else 0)
    && v.failed - u.failed == (if r.success then 0 else 1)
    && CountsOne(u.completions, v.completions, r.provider)
  }

  /** What a request not logged before does to the store. */
  ghost predicate PaidFor(s: Store, t: Store, r: Request) {
    && s.budget.Some? && r.callId in t.logs && t.logs == s.logs[r.callId := t.logs[r.callId]]
    && Records(t.logs[r.callId], r, s.budget.value.mode)
    && (r.counted ==>
          && t.budget.Some? && Pays(s.budget.value, t.budget.value, r, t.logs[r.callId].accountedUsd)
          && s.user.Some? && t.user.Some? && Charges(s.user.value, t.user.value, r, t.logs[r.callId].feeUsd))
    && (!r.counted ==> t.budget == s.budget && t.user == s.user)
  }

  /** A request not logged before is paid for exactly when it is not counted, or its budget holds what its mode
      accounts for it and does not learn at a negative rate. */
  lemma FreshRequestMeaning(s: Store, r: Request)
    requires Sound(s) && r.Valid() && r.callId !in s.logs
    ensures var b, f := s.budget.value, FactsOf(r, s.budget.value.mode);
            && Records(f, r, b.mode)
            && (Persist(s, r).Ok? <==> !r.counted || (b.learningRate >= 0.0 && f.accountedUsd <= b.remainingUsd))
            && (Persist(s, r).Err? ==>
                  Persist(s, r).error == if b.learningRate < 0.0 then InvalidController else BudgetExhausted)
  {
    hide Tally, Fee, IsFeeOn;
    FeeMeaning(r.spendUsd);
  }

  ghost predicate Near(x: real, y: real) {
    -0.000000000001 <= x - y <= 0.000000000001
  }

  ghost predicate NearIfAny(x: Option<real>, y: Option<real>) {
    x.Some? == y.Some? && (x.Some? ==> Near(x.value, y.value))
  }

  /** A request whose call is already logged changes nothing; it is answered with the log exactly when it agrees
      with it in every fact, amounts to within one slack, and is a conflict otherwise. */
  lemma LoggedRequestMeaning(s: Store, r: Request)
    requires s.budget.Some? && r.Valid() && r.callId in s.logs
    ensures var f, log := FactsOf(r, s.budget.value.mode), s.logs[r.callId];
            var agrees :=
              && log.routeName == r.routeName && log.modelId == r.modelId && log.provider == r.provider
              && log.success == r.success && log.counted == r.counted && log.mode == s.budget.value.mode
              && Near(log.feeUsd, f.feeUsd) && Near(log.providerUsd, r.spendUsd)
              && Near(log.accountedUsd, f.accountedUsd)
              && NearIfAny(log.weight, if r.counted then Some(r.weight) else None)
              && NearIfAny(log.weightDebit, if r.counted then Some(r.weightDebit) else None);
            Persist(s, r) == if agrees then Ok((s, log)) else Err(CallIdConflict)
  {
    hide Fee;
  }

  lemma FreshRequestIsPaidFor(s: Store, r: Request)
    requires r.Valid() && r.callId !in s.logs && Persist(s, r).Ok?
    ensures PaidFor(s, Persist(s, r).value.0, r)
  {
    hide FactsOf, NextPrice, Debited, Counted, Pays, Charges, Records, SameFacts;
    var f := FactsOf(r, s.budget.value.mode);
    FactsAreRecorded(r, s.budget.value.mode);
    if r.counted {
      RecordedFields(f, r, s.budget.value.mode);
      BudgetPays(s.budget.value, f, r);
      UserIsCharged(s.user.value, f, r);
    }
  }

  lemma FactsAreRecorded(r: Request, mode: Mode)
    requires r.Valid()
    ensures Records(FactsOf(r, mode), r, mode)
  {
    hide Fee, IsFeeOn;
    FeeMeaning(r.spendUsd);
  }

  lemma RecordedFields(f: Facts, r: Request, mode: Mode)
    requires Records(f, r, mode) && r.counted
    ensures f.weightDebit == Some(r.weightDebit) && f.provider == r.provider && f.success == r.success
  {
  }

  lemma BudgetPays(b: Budget, f: Facts, r: Request)
    requires r.Valid() && r.counted && NextPrice(b, f.accountedUsd, r.weight, r.weightDebit).Ok?
    requires f.weightDebit == Some(r.weightDebit) && f.provider == r.provider && f.success == r.success
    ensures Pays(b, Debited(b, f, NextPrice(b, f.accountedUsd, r.weight, r.weightDebit).value), r, f.accountedUsd)
  {
    hide Tally;
  }

  lemma UserIsCharged(u: UserTotals, f: Facts, r: Request)
    requires f.provider == r.provider && f.success == r.success
    ensures Charges(u, Counted(u, f), r, f.feeUsd)
  {
    hide Tally;
  }

  // ---------------------------------------------------------------- the accounting service

  class UsageStore {
    var budget: Option<Budget>
    var user: Option<UserTotals>
    var logs: map<Name, Facts>

    constructor (budget: Option<Budget>, user: Option<UserTotals>)
      ensures View() == Store(budget, user, map[])
    {
      this.budget, this.user, this.logs := budget, user, map[];
    }

    ghost function View(): Store
      reads this
    {
      Store(budget, user, logs)
    }

    /** Runs the transaction body; storage answers whether its writes are kept. */
    method Transact(r: Request, answer: Answer) returns (result: Result<Facts, Fault>)
      requires r.Valid() && Committed(answer)
      modifies this
      ensures View() == AfterAttempt(old(View()), r, answer)
      ensures result.Ok? && r.callId !in old(logs) ==> PaidFor(old(View()), View(), r)
      ensures match Persist(old(View()), r)
              case Ok(done) => result == Ok(done.1)
              case Err(fault) => result == Err(fault)
    {
      hide FactsOf, NextPrice, SameFacts, PaidFor;
      if r.callId !in logs && Persist(View(), r).Ok? { FreshRequestIsPaidFor(View(), r); }
      if budget.None? { return Err(BudgetMissing); }
      var b := budget.value;
      var facts := FactsOf(r, b.mode);
      if r.callId in logs {
        if SameFacts(logs[r.callId], facts) { return Ok(logs[r.callId]); }
        return Err(CallIdConflict);
      }
      if r.counted {
        var price := NextPrice(b, facts.accountedUsd, r.weight, r.weightDebit);
        if price.Err? { return Err(price.error); }
        if b.remainingUsd < facts.accountedUsd { return Err(BudgetExhausted); }
        if user.None? { return Err(UserMissing); }
        WeightDebitIsSet(r, b.mode);
        budget := Some(Debited(b, facts, price.value));
        user := Some(Counted(user.value, facts));
      }
      logs := logs[r.callId := facts];
      return Ok(facts);
    }

    lemma WeightDebitIsSet(r: Request, mode: Mode)
      requires r.counted
      ensures FactsOf(r, mode).weightDebit.Some?
    {}

    /** What other writers do to the store between two attempts. */
    method Meanwhile(actions: seq<Action>)
      modifies this
      ensures View() == Execute(old(View()), actions)
    {
      var s := Execute(Store(budget, user, logs), actions);
      budget, user, logs := s.budget, s.user, s.logs;
    }

    /** Retries the transaction a bounded number of times, while other writers act before each attempt and
        between the reads that follow a duplicate.  The call as a whole is one run of attempts: its own, after
        each of which it either tries again or returns the reply of that attempt, and theirs. */
    method WriteUsageLog(r: Request, answers: seq<Answer>, others: seq<seq<Action>>, late: seq<Action>)
      returns (result: Result<Facts, Fault>, ghost made: nat)
      requires |answers| == |others| == MAX_ATTEMPTS
      modifies this
      ensures !r.Valid() ==> made == 0 && result == Err(InvalidRequest) && View() == old(View())
      ensures r.Valid() ==>
                && 1 <= made <= MAX_ATTEMPTS && (forall i | 0 <= i < made - 1 :: answers[i] == AbortsTransiently)
                && var found := Execute(old(View()), Trail(r, answers, others, made - 1) + others[made - 1]);
                   View() == Execute(old(View()), Trail(r, answers, others, made)
                                                  + BetweenReads(found, r, answers[made - 1], late))
                   && Reply(found, View(), r, answers[made - 1], made) == Some(result)
    {
      hide FactsOf, NextPrice, SameFacts, Debited, Counted, Persist;
      made := 0;
      if !r.Valid() { return Err(InvalidRequest), 0; }
      var attempt := 1;
      while attempt <= MAX_ATTEMPTS
        invariant 1 <= attempt <= MAX_ATTEMPTS
        invariant View() == Execute(old(View()), Trail(r, answers, others, attempt - 1))
        invariant forall i | 0 <= i < attempt - 1 :: answers[i] == AbortsTransiently
      {
        made := attempt;
        RunConcat(old(View()), Trail(r, answers, others, attempt - 1), others[attempt - 1]);
        Meanwhile(others[attempt - 1]);
        AttemptLast(old(View()), Trail(r, answers, others, attempt - 1) + others[attempt - 1], r, answers[attempt - 1]);
        var answer := answers[attempt - 1];
        assert Trail(r, answers, others, attempt) + [] == Trail(r, answers, others, attempt);
        match answer {
          case Commits =>
            result := Transact(r, answer);
            return;
          case CommitsUnheard =>
            result := Transact(r, answer);
            if result.Ok? { result := Err(TransactionFailed); }
            return;
          case AbortsTransiently =>
            if attempt >= MAX_ATTEMPTS { return Err(TransactionFailed), made; }
          case AbortsForGood =>
            return Err(TransactionFailed), made;
          case ReportsDuplicate =>
            if r.callId !in logs { return Err(DuplicateWithoutLog), made; }
            var logged := logs[r.callId];
            RunConcat(old(View()), Trail(r, answers, others, attempt), late);
            Meanwhile(late);
            if budget.None? { return Err(BudgetMissing), made; }
            if SameFacts(logged, FactsOf(r, budget.value.mode)) { return Ok(logged), made; }
            return Err(CallIdConflict), made;
        }
        attempt := attempt + 1;
      }
      assert false;
    }
  }
}
