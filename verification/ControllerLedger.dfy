/** One agent run's reservation ledger.  Each function is a section that the program runs under its
    lock; between the two halves of an allocation the lock is free, so any steps may intervene. */
module ControllerLedger {
  import opened Basics
  import opened Tallies
  import opened Models

  datatype RunStatus = Active | Completed | Failed

  /** A call is identified with the sequence number it was issued, which the run never reuses. */
  datatype Run = Run(
    policy: OperatingPolicy,
    status: RunStatus,
    completedCalls: nat,
    spentCostUsd: real,
    reserved: map<int, CallBudget>,
    pending: set<int>,
    nextSequence: int,
    toolCalls: nat)

  datatype Fault =
    | RunMissing | RunInactive
    | CostExhausted | LatencyExhausted | BecameInactive
    | ContextTooLarge | ForeignOverride | ImmutableOverride
    | CallCostLimit | CallLatencyLimit | AgentCostLimit | AgentLatencyLimit
    | UnknownReservation | AllocationsPending | LimitViolated

  function NewRun(policy: OperatingPolicy): Run {
    Run(policy, Active, 0, 0.0, map[], {}, 1, 0)
  }

  ghost function CostOf(): CallBudget -> real {
    (b: CallBudget) => b.costUsd
  }

  ghost function ReservedCost(run: Run): real {
    Tally(run.reserved, CostOf())
  }

  /** What the run has committed: spent for good, or reserved for calls in flight. */
  ghost function Committed(run: Run): real {
    run.spentCostUsd + ReservedCost(run)
  }

  function RemainingCost(policy: OperatingPolicy, spent: real, reserved: real): Option<real> {
    match policy.hardAgentCostLimitUsd
    case None => None
    case Some(limit) => Some(limit - spent - reserved)
  }

  function RemainingLatency(policy: OperatingPolicy, elapsedMs: int): Option<int> {
    match policy.hardAgentLatencyLimitMs
    case None => None
    case Some(limit) => Some(limit - elapsedMs)
  }

  // ---------------------------------------------------------------- the two halves of an allocation

  ghost function Begin(run: Run, elapsedMs: int): Result<Run, Fault> {
    if run.status != Active then Err(RunInactive)
    else
      var cost := RemainingCost(run.policy, run.spentCostUsd, ReservedCost(run));
      var latency := RemainingLatency(run.policy, elapsedMs);
      if cost.Some? && cost.value <= 0.0 then Err(CostExhausted)
      else if latency.Some? && latency.value <= 0 then Err(LatencyExhausted)
      else Ok(run.(pending := run.pending + {run.nextSequence}, nextSequence := run.nextSequence + 1))
  }

  function Discard(run: Run, callId: int): Run {
    run.(pending := run.pending - {callId})
  }

  /** The evidence a decision is checked against: the call's input and its context blocks. */
  datatype Evidence = Evidence(inputTokens: nat, blocks: seq<ContextBlock>)
  {
    function BlockIds(): set<string> {
      set b | b in blocks :: b.blockId
    }

    function ImmutableIds(): set<string> {
      set b | b in blocks && b.structurallyImmutable :: b.blockId
    }
  }

  function Validate(
    policy: OperatingPolicy, d: AllocationDecision, remainingCost: Option<real>, remainingLatency: Option<int>,
    evidence: Evidence): Option<Fault>
  {
    if d.requiredContextTokens > evidence.inputTokens then Some(ContextTooLarge)
    else if exists o | o in d.importanceOverrides :: o.blockId !in evidence.BlockIds() then Some(ForeignOverride)
    else if exists o | o in d.importanceOverrides :: o.blockId in evidence.ImmutableIds() then Some(ImmutableOverride)
    else if policy.hardCallCostLimitUsd.Some? && d.costUsd > policy.hardCallCostLimitUsd.value + SLACK then
      Some(CallCostLimit)
    else if policy.hardCallLatencyLimitMs.Some? && d.latencyMs > policy.hardCallLatencyLimitMs.value then
      Some(CallLatencyLimit)
    else if remainingCost.Some? && d.costUsd > remainingCost.value + SLACK then Some(AgentCostLimit)
    else if remainingLatency.Some? && d.latencyMs > remainingLatency.value then Some(AgentLatencyLimit)
    else None
  }

  /** The reservation for a decision: its input part is the decided fraction of the whole. */
  function BudgetFor(callId: int, d: AllocationDecision): (b: CallBudget)
    ensures b.callId == callId && b.costUsd == d.costUsd && b.inputCostUsd + b.outputCostUsd == d.costUsd
    ensures b.inputCostUsd == d.inputCostFraction * d.costUsd && b.latencyMs == d.latencyMs
    ensures b.requiredContextTokens == d.requiredContextTokens && b.importanceOverrides == d.importanceOverrides
  {
    var inputCost := d.costUsd * d.inputCostFraction;
    CallBudget(callId, d.costUsd, inputCost, d.costUsd - inputCost, d.latencyMs, d.requiredContextTokens,
               d.importanceOverrides)
  }

  /** The second half: it re-reads what remains, because other calls moved while the lock was free. */
  ghost function Commit(run: Run, callId: int, d: AllocationDecision, evidence: Evidence, elapsedMs: int)
    : (Run, Result<CallBudget, Fault>)
  {
    var freed := Discard(run, callId);
    if run.status != Active then (freed, Err(BecameInactive))
    else
      var cost := RemainingCost(run.policy, run.spentCostUsd, ReservedCost(run));
      match Validate(run.policy, d, cost, RemainingLatency(run.policy, elapsedMs), evidence)
      case Some(fault) => (freed, Err(fault))
      case None =>
        var budget := BudgetFor(callId, d);
        (freed.(reserved := run.reserved[callId := budget]), Ok(budget))
  }

  // ---------------------------------------------------------------- settling, failing, finishing

  predicate BreaksLimit(policy: OperatingPolicy, spent: real, cost: real, latencyMs: int, elapsedMs: int) {
    || (policy.hardCallCostLimitUsd.Some? && cost > policy.hardCallCostLimitUsd.value + SLACK)
    || (policy.hardCallLatencyLimitMs.Some? && latencyMs > policy.hardCallLatencyLimitMs.value)
    || (policy.hardAgentCostLimitUsd.Some? && spent > policy.hardAgentCostLimitUsd.value + SLACK)
    || (policy.hardAgentLatencyLimitMs.Some? && elapsedMs > policy.hardAgentLatencyLimitMs.value)
  }

  /** Settling charges the call first; a broken limit then fails the run. */
  function Settle(run: Run, callId: int, cost: real, latencyMs: int, elapsedMs: int): (Run, Option<Fault>) {
    if run.status != Active then (run, Some(RunInactive))
    else if callId !in run.reserved then (run, Some(UnknownReservation))
    else
      var spent := run.spentCostUsd + cost;
      var settled := run.(reserved := run.reserved - {callId}, spentCostUsd := spent,
                          completedCalls := run.completedCalls + 1);
      if BreaksLimit(run.policy, spent, cost, latencyMs, elapsedMs)
      then (settled.(status := Failed), Some(LimitViolated))
      else (settled, None)
  }

  function FailCall(run: Run, callId: int, billingUnknown: bool): (Run, Option<Fault>) {
    if run.status != Active then (run, Some(RunInactive))
    else if callId !in run.reserved then (run, Some(UnknownReservation))
    else
      (run.(reserved := run.reserved - {callId},
            spentCostUsd := run.spentCostUsd + if billingUnknown then run.reserved[callId].costUsd else 0.0,
            completedCalls := run.completedCalls + 1), None)
  }

  function ObserveTool(run: Run, elapsedMs: int): (Run, Option<Fault>) {
    if run.status != Active then (run, Some(RunInactive))
    else
      var seen := run.(toolCalls := run.toolCalls + 1);
      if run.policy.hardAgentLatencyLimitMs.Some? && elapsedMs > run.policy.hardAgentLatencyLimitMs.value
      then (seen.(status := Failed), Some(AgentLatencyLimit))
      else (seen, None)
  }

  ghost function Finish(run: Run, status: RunStatus, elapsedMs: int): (Run, Option<Fault>)
    requires status != Active
  {
    if run.status != Active then (run, if run.status == status then None else Some(RunInactive))
    else if run.pending != {} then (run, Some(AllocationsPending))
    else
      var charged := run.(spentCostUsd := Committed(run), completedCalls := run.completedCalls + |run.reserved|,
                          reserved := map[]);
      if status == Completed && run.policy.hardAgentLatencyLimitMs.Some?
         && elapsedMs > run.policy.hardAgentLatencyLimitMs.value
      then (charged.(status := Failed), Some(AgentLatencyLimit))
      else (charged.(status := status), None)
  }

  // ---------------------------------------------------------------- what any interleaving of steps keeps

  /** A run with its history: what each finished call was charged, and which calls were never granted. */
  datatype Book = Book(run: Run, charges: map<int, real>, abandoned: set<int>)

  datatype Action =
    | BeginCall(elapsedMs: int)
    | CommitCall(callId: int, decision: AllocationDecision, evidence: Evidence, elapsedMs: int)
    | DiscardCall(callId: int)
    | SettleCall(callId: int, costUsd: real, latencyMs: int, elapsedMs: int)
    | FailTheCall(callId: int, billingUnknown: bool)
    | UseTool(elapsedMs: int)
    | FinishRun(status: RunStatus, elapsedMs: int)

  predicate Admissible(a: Action) {
    match a
    case CommitCall(_, d, _, _) => d.Valid()
    case SettleCall(_, cost, _, _) => cost >= 0.0
    case FinishRun(status, _) => status != Active
    case _ => true
  }

  ghost function ChargesAtClose(run: Run): map<int, real> {
    map id | id in run.reserved :: run.reserved[id].costUsd
  }

  /** One critical section.  Only the caller holding a pending allocation can commit or discard it. */
  ghost function Apply(b: Book, a: Action): Book {
    var run := b.run;
    if !Admissible(a) then b else
    match a
    case BeginCall(elapsed) =>
      (match Begin(run, elapsed) case Ok(next) => b.(run := next) case Err(_) => b)
    case CommitCall(id, d, evidence, elapsed) =>
      if id !in run.pending then b
      else
        var (next, granted) := Commit(run, id, d, evidence, elapsed);
        if granted.Ok? then b.(run := next) else b.(run := next, abandoned := b.abandoned + {id})
    case DiscardCall(id) =>
      if id !in run.pending then b else b.(run := Discard(run, id), abandoned := b.abandoned + {id})
    case SettleCall(id, cost, latency, elapsed) =>
      var next := Settle(run, id, cost, latency, elapsed).0;
      if next == run then b else b.(run := next, charges := b.charges[id := cost])
    case FailTheCall(id, unknown) =>
      var next := FailCall(run, id, unknown).0;
      if next == run then b
      else b.(run := next, charges := b.charges[id := if unknown then run.reserved[id].costUsd else 0.0])
    case UseTool(elapsed) => b.(run := ObserveTool(run, elapsed).0)
    case FinishRun(status, elapsed) =>
      var next := Finish(run, status, elapsed).0;
      if next == run then b else b.(run := next, charges := b.charges + ChargesAtClose(run))
  }

  ghost function Execute(b: Book, actions: seq<Action>): Book
    decreases |actions|
  {
    if actions == [] then b else Execute(Apply(b, actions[0]), actions[1..])
  }

  function Opened(policy: OperatingPolicy): Book {
    Book(NewRun(policy), map[], {})
  }

  // ---------------------------------------------------------------- every call is in one place

  ghost predicate InOnePlace(b: Book, id: int) {
    && (id in b.run.pending ==> id !in b.run.reserved && id !in b.charges && id !in b.abandoned)
    && (id in b.run.reserved ==> id !in b.charges && id !in b.abandoned)
    && (id in b.charges ==> id !in b.abandoned)
    && (1 <= id < b.run.nextSequence <==>
          id in b.run.pending || id in b.run.reserved || id in b.charges || id in b.abandoned)
  }

  ghost function Charge(): real -> real {
    (c: real) => c
  }

  ghost predicate Sound(b: Book) {
    && b.run.nextSequence >= 1
    && (forall id {:trigger InOnePlace(b, id)} :: InOnePlace(b, id))
    && (forall id | id in b.run.reserved :: b.run.reserved[id].costUsd > 0.0 && b.run.reserved[id].callId == id)
    && b.run.spentCostUsd == Tally(b.charges, Charge())
    && b.run.completedCalls == |b.charges|
  }

  lemma JoinWithout<K, V>(m: map<K, V>, n: map<K, V>, k: K)
    requires m.Keys !! n.Keys && k in n
    ensures (m + n) - {k} == m + (n - {k}) && m.Keys !! (n - {k}).Keys
  {}

  lemma {:induction false} TallyJoin<K>(m: map<K, real>, n: map<K, real>)
    requires m.Keys !! n.Keys
    ensures Tally(m + n, Charge()) == Tally(m, Charge()) + Tally(n, Charge())
    decreases |n|
  {
    if n == map[] {
      assert m + n == m;
    } else {
      var k :| k in n;
      TallyJoin(m, n - {k});
      JoinWithout(m, n, k);
      TallyTake(m + n, k, Charge());
      TallyTake(n, k, Charge());
    }
  }

  lemma ChargeOne(b: Book, id: int, cost: real, next: Run)
    requires Sound(b) && id in b.run.reserved
    requires next == b.run.(reserved := b.run.reserved - {id}, spentCostUsd := b.run.spentCostUsd + cost,
                            completedCalls := b.run.completedCalls + 1, status := next.status)
    ensures Sound(b.(run := next, charges := b.charges[id := cost]))
  {
    assert InOnePlace(b, id);
    TallyPut(b.charges, id, cost, Charge());
    var c := b.(run := next, charges := b.charges[id := cost]);
    forall k ensures InOnePlace(c, k) { assert InOnePlace(b, k); }
  }

  lemma ChargesAtCloseAddUp(b: Book)
    requires Sound(b)
    ensures forall k :: k in b.charges + ChargesAtClose(b.run) <==> k in b.charges || k in b.run.reserved
    ensures Tally(b.charges + ChargesAtClose(b.run), Charge()) == Committed(b.run)
    ensures |b.charges + ChargesAtClose(b.run)| == b.run.completedCalls + |b.run.reserved|
  {
    hide Tally;
    var last := ChargesAtClose(b.run);
    forall k | k in last ensures k !in b.charges { assert InOnePlace(b, k); }
    TallyJoin(b.charges, last);
    TallySame(last, Charge(), b.run.reserved, CostOf());
    CountAll(b.charges, last, b.run.reserved);
  }

  lemma ChargeAll(b: Book, next: Run)
    requires Sound(b) && b.run.pending == {}
    requires next == b.run.(spentCostUsd := Committed(b.run), completedCalls := b.run.completedCalls + |b.run.reserved|,
                            reserved := map[], status := next.status)
    ensures Sound(b.(run := next, charges := b.charges + ChargesAtClose(b.run)))
  {
    hide Tally;
    ChargesAtCloseAddUp(b);
    var charges := b.charges + ChargesAtClose(b.run);
    Relocated(b, b.(run := next, charges := charges));
  }

  /** When reserved calls all become charged ones, every call is still in one place. */
  lemma Relocated(b: Book, c: Book)
    requires forall id {:trigger InOnePlace(b, id)} :: InOnePlace(b, id)
    requires b.run.pending == {} == c.run.pending && c.run.reserved == map[] && c.abandoned == b.abandoned
    requires forall k :: k in c.charges <==> k in b.charges || k in b.run.reserved
    requires c.run.nextSequence == b.run.nextSequence
    ensures forall id {:trigger InOnePlace(c, id)} :: InOnePlace(c, id)
  {
    forall k ensures InOnePlace(c, k) { assert InOnePlace(b, k); }
  }

  lemma CountAll<V>(m: map<int, real>, n: map<int, real>, r: map<int, V>)
    requires m.Keys !! n.Keys && n.Keys == r.Keys
    ensures |m + n| == |m| + |r|
  {
    assert (m + n).Keys == m.Keys + n.Keys;
    assert |m + n| == |(m + n).Keys| && |m| == |m.Keys| && |r| == |r.Keys|;
  }

  lemma BeginKeeps(b: Book, elapsedMs: int)
    requires Sound(b)
    ensures Sound(Apply(b, BeginCall(elapsedMs)))
  {
    var c := Apply(b, BeginCall(elapsedMs));
    assert c.run.reserved == b.run.reserved;
    forall k ensures InOnePlace(c, k) { assert InOnePlace(b, k); }
  }

  lemma CommitKeeps(b: Book, id: int, d: AllocationDecision, evidence: Evidence, elapsedMs: int)
    requires Sound(b) && d.Valid()
    ensures Sound(Apply(b, CommitCall(id, d, evidence, elapsedMs)))
  {
    var c := Apply(b, CommitCall(id, d, evidence, elapsedMs));
    forall k ensures InOnePlace(c, k) { assert InOnePlace(b, k) && InOnePlace(b, id); }
  }

  lemma SettleKeeps(b: Book, id: int, cost: real, latency: int, elapsedMs: int)
    requires Sound(b) && cost >= 0.0
    ensures Sound(Apply(b, SettleCall(id, cost, latency, elapsedMs)))
  {
    hide Tally, Sound, BreaksLimit;
    var c := Apply(b, SettleCall(id, cost, latency, elapsedMs));
    if c != b { ChargeOne(b, id, cost, c.run); }
  }

  lemma FailKeeps(b: Book, id: int, unknown: bool)
    requires Sound(b)
    ensures Sound(Apply(b, FailTheCall(id, unknown)))
  {
    hide Tally, Sound;
    var c := Apply(b, FailTheCall(id, unknown));
    if c != b { ChargeOne(b, id, if unknown then b.run.reserved[id].costUsd else 0.0, c.run); }
  }

  lemma FinishKeeps(b: Book, status: RunStatus, elapsedMs: int)
    requires Sound(b) && status != Active
    ensures Sound(Apply(b, FinishRun(status, elapsedMs)))
  {
    hide Tally, Sound, Committed, ChargesAtClose;
    var c := Apply(b, FinishRun(status, elapsedMs));
    if c != b { ChargeAll(b, c.run); }
  }

  lemma DiscardKeeps(b: Book, id: int)
    requires Sound(b)
    ensures Sound(Apply(b, DiscardCall(id)))
  {
    hide Tally;
    var c := Apply(b, DiscardCall(id));
    forall k ensures InOnePlace(c, k) { assert InOnePlace(b, k); }
  }

  lemma ToolKeeps(b: Book, elapsedMs: int)
    requires Sound(b)
    ensures Sound(Apply(b, UseTool(elapsedMs)))
  {
    hide Tally;
    var c := Apply(b, UseTool(elapsedMs));
    forall k ensures InOnePlace(c, k) { assert InOnePlace(b, k); }
  }

  lemma InadmissibleChangesNothing(b: Book, a: Action)
    requires !Admissible(a)
    ensures Apply(b, a) == b
  {
  }

  lemma StepKeeps(b: Book, a: Action)
    requires Sound(b)
    ensures Sound(Apply(b, a))
  {
    hide Sound, Apply;
    if !Admissible(a) {
      InadmissibleChangesNothing(b, a);
    } else {
      match a
      case BeginCall(elapsed) => BeginKeeps(b, elapsed);
      case CommitCall(id, d, evidence, elapsed) => CommitKeeps(b, id, d, evidence, elapsed);
      case SettleCall(id, cost, latency, elapsed) => SettleKeeps(b, id, cost, latency, elapsed);
      case FailTheCall(id, unknown) => FailKeeps(b, id, unknown);
      case FinishRun(status, elapsed) => FinishKeeps(b, status, elapsed);
      case DiscardCall(id) => DiscardKeeps(b, id);
      case UseTool(elapsed) => ToolKeeps(b, elapsed);
    }
  }

  lemma {:induction false} RunKeeps(b: Book, actions: seq<Action>)
    requires Sound(b)
    ensures Sound(Execute(b, actions))
    decreases |actions|
  {
    if actions != [] {
      StepKeeps(b, actions[0]);
      RunKeeps(Apply(b, actions[0]), actions[1..]);
    }
  }

  /** In every reachable state each sequence number ever issued is pending, reserved, charged or
      abandoned, never two of these; spending is the sum of one charge for each finished call. */
  lemma EveryCallIsAccountedFor(policy: OperatingPolicy, actions: seq<Action>, id: int)
    ensures var b := Execute(Opened(policy), actions);
            && (1 <= id < b.run.nextSequence <==>
                  multiset{id in b.run.pending, id in b.run.reserved, id in b.charges, id in b.abandoned}[true] == 1)
            && b.run.spentCostUsd == Tally(b.charges, Charge())
            && b.run.completedCalls == |b.charges|
  {
    var b0 := Opened(policy);
    forall k ensures InOnePlace(b0, k) {}
    RunKeeps(b0, actions);
    assert InOnePlace(Execute(b0, actions), id);
  }

  // ---------------------------------------------------------------- closed runs are frozen

  ghost predicate Frozen(b: Book, c: Book) {
    && c.run.status == b.run.status && c.run.spentCostUsd == b.run.spentCostUsd
    && c.run.completedCalls == b.run.completedCalls && c.run.reserved == b.run.reserved
    && c.run.toolCalls == b.run.toolCalls && c.run.nextSequence == b.run.nextSequence
    && c.charges == b.charges && c.run.pending <= b.run.pending
  }

  /** A run leaves ACTIVE at most once; afterwards only pending allocations can still drain. */
  lemma {:induction false} ClosedRunIsFrozen(b: Book, actions: seq<Action>)
    requires b.run.status != Active
    ensures Frozen(b, Execute(b, actions))
    decreases |actions|
  {
    if actions != [] {
      var next := Apply(b, actions[0]);
      assert Frozen(b, next);
      ClosedRunIsFrozen(next, actions[1..]);
    }
  }

  lemma EmptyReservesNothing(run: Run)
    requires run.reserved == map[]
    ensures Committed(run) == run.spentCostUsd
  {}

  lemma FinishingCharges(b: Book, status: RunStatus, elapsedMs: int)
    requires b.run.status == Active && b.run.pending == {} && status != Active
    ensures var c := Apply(b, FinishRun(status, elapsedMs));
            && c.charges == b.charges + ChargesAtClose(b.run) && c.abandoned == b.abandoned
            && c.run == b.run.(spentCostUsd := Committed(b.run), reserved := map[], status := c.run.status,
                               completedCalls := b.run.completedCalls + |b.run.reserved|)
            && c.run.status == (
              if status == Completed && b.run.policy.hardAgentLatencyLimitMs.Some?
                 && elapsedMs > b.run.policy.hardAgentLatencyLimitMs.value then Failed else status)
            && Finish(b.run, status, elapsedMs).1 == (if c.run.status == status then None else Some(AgentLatencyLimit))
  {
    hide Tally, Committed, ChargesAtClose;
  }

  /** A run that finish_run closes has charged every reservation in full and holds nothing. */
  lemma FinishedRunHoldsNothing(b: Book, status: RunStatus, elapsedMs: int)
    requires Sound(b) && status != Active && b.run.status == Active
    requires Apply(b, FinishRun(status, elapsedMs)).run.status != Active
    ensures var c := Apply(b, FinishRun(status, elapsedMs));
            && c.run.reserved == map[] && c.run.pending == {}
            && c.run.spentCostUsd == Committed(b.run) == Committed(c.run)
            && (forall id | id in b.run.reserved :: id in c.charges && c.charges[id] == b.run.reserved[id].costUsd)
            && (forall id | id in b.charges :: id in c.charges && c.charges[id] == b.charges[id])
            && (c.run.status == status || (status == Completed && c.run.status == Failed))
  {
    hide Tally, Sound, Apply, Committed;
    var c := Apply(b, FinishRun(status, elapsedMs));
    ClosingNeedsNothingPending(b, status, elapsedMs);
    FinishingCharges(b, status, elapsedMs);
    EmptyReservesNothing(c.run);
    ChargedIsNotReserved(b);
  }

  lemma ClosingNeedsNothingPending(b: Book, status: RunStatus, elapsedMs: int)
    requires status != Active && b.run.status == Active
    requires Apply(b, FinishRun(status, elapsedMs)).run.status != Active
    ensures b.run.pending == {}
  {
    hide Tally;
  }

  lemma ChargedIsNotReserved(b: Book)
    requires Sound(b)
    ensures b.charges.Keys !! b.run.reserved.Keys
  {
    forall id | id in b.charges ensures id !in b.run.reserved { assert InOnePlace(b, id); }
  }

  // ---------------------------------------------------------------- which decisions are granted

  /** What remains of a limit when the decision comes back. */
  ghost function LeftOf(run: Run): real
    requires run.policy.hardAgentCostLimitUsd.Some?
  {
    run.policy.hardAgentCostLimitUsd.value - (run.spentCostUsd + Tally(run.reserved, CostOf()))
  }

  /** Every override names a block of the call, and none that may not change. */
  ghost predicate OverridesAreOpen(d: AllocationDecision, blocks: seq<ContextBlock>) {
    forall o | o in d.importanceOverrides ::
      && (exists b | b in blocks :: b.blockId == o.blockId)
      && (forall b | b in blocks && b.blockId == o.blockId :: !b.structurallyImmutable)
  }

  /** The run is active, the context is within the input, the overrides are open, and cost and latency fit both
      the limits of one call and what the run has left, one slack on costs. */
  ghost predicate Grantable(run: Run, d: AllocationDecision, evidence: Evidence, elapsedMs: int) {
    var p := run.policy;
    && run.status == Active
    && d.requiredContextTokens <= evidence.inputTokens && OverridesAreOpen(d, evidence.blocks)
    && (p.hardCallCostLimitUsd.Some? ==> d.costUsd <= p.hardCallCostLimitUsd.value + SLACK)
    && (p.hardCallLatencyLimitMs.Some? ==> d.latencyMs <= p.hardCallLatencyLimitMs.value)
    && (p.hardAgentCostLimitUsd.Some? ==> d.costUsd <= LeftOf(run) + SLACK)
    && (p.hardAgentLatencyLimitMs.Some? ==> d.latencyMs <= p.hardAgentLatencyLimitMs.value - elapsedMs)
  }

  /** A pending call is granted exactly what was decided for it, exactly when the decision is grantable; a
      refusal names a condition that fails. */
  lemma CommitGrantsIff(run: Run, callId: int, d: AllocationDecision, evidence: Evidence, elapsedMs: int)
    ensures var p, answer := run.policy, Commit(run, callId, d, evidence, elapsedMs).1;
            && (answer.Ok? <==> Grantable(run, d, evidence, elapsedMs))
            && (answer.Ok? ==>
                  answer.value == CallBudget(callId, d.costUsd, d.inputCostFraction * d.costUsd,
                                             d.costUsd - d.inputCostFraction * d.costUsd, d.latencyMs,
                                             d.requiredContextTokens, d.importanceOverrides))
            && (answer == Err(BecameInactive) <==> run.status != Active)
            && (answer == Err(ContextTooLarge) <==>
                  run.status == Active && d.requiredContextTokens > evidence.inputTokens)
            && (answer == Err(CallCostLimit) ==>
                  p.hardCallCostLimitUsd.Some? && d.costUsd > p.hardCallCostLimitUsd.value + SLACK)
            && (answer == Err(CallLatencyLimit) ==>
                  p.hardCallLatencyLimitMs.Some? && d.latencyMs > p.hardCallLatencyLimitMs.value)
            && (answer == Err(AgentCostLimit) ==>
                  p.hardAgentCostLimitUsd.Some? && d.costUsd > LeftOf(run) + SLACK)
            && (answer == Err(AgentLatencyLimit) ==>
                  p.hardAgentLatencyLimitMs.Some? && d.latencyMs > p.hardAgentLatencyLimitMs.value - elapsedMs)
            && (answer == Err(ForeignOverride) || answer == Err(ImmutableOverride) ==>
                  !OverridesAreOpen(d, evidence.blocks))
  {
    hide Tally, BudgetFor;
    OverridesMeaning(d, evidence);
  }

  lemma OverridesMeaning(d: AllocationDecision, evidence: Evidence)
    ensures OverridesAreOpen(d, evidence.blocks) <==>
              forall o | o in d.importanceOverrides ::
                o.blockId in evidence.BlockIds() && o.blockId !in evidence.ImmutableIds()
  {
    forall o | o in d.importanceOverrides
      ensures o.blockId in evidence.BlockIds() <==> exists b | b in evidence.blocks :: b.blockId == o.blockId
      ensures o.blockId in evidence.ImmutableIds() <==>
                exists b | b in evidence.blocks && b.blockId == o.blockId :: b.structurallyImmutable
    {
    }
  }

  /** An allocation begins exactly on an active run that has money and time left. */
  lemma BeginsIff(run: Run, elapsedMs: int)
    ensures var p, answer := run.policy, Begin(run, elapsedMs);
            && (answer.Ok? <==>
                  && run.status == Active
                  && (p.hardAgentCostLimitUsd.Some? ==> LeftOf(run) > 0.0)
                  && (p.hardAgentLatencyLimitMs.Some? ==> elapsedMs < p.hardAgentLatencyLimitMs.value))
            && (answer.Ok? ==>
                  answer.value == run.(pending := run.pending + {run.nextSequence},
                                       nextSequence := run.nextSequence + 1))
            && (answer == Err(RunInactive) <==> run.status != Active)
            && (answer == Err(CostExhausted) <==>
                  run.status == Active && p.hardAgentCostLimitUsd.Some? && LeftOf(run) <= 0.0)
  {
    hide Tally;
  }

  /** Settling an active run's reserved call fails the run exactly when the call passes a limit of one call, or
      brings the run past one of its own; the charge stands either way. */
  lemma SettlingMeaning(run: Run, callId: int, cost: real, latencyMs: int, elapsedMs: int)
    ensures var p, (next, fault) := run.policy, Settle(run, callId, cost, latencyMs, elapsedMs);
            && (fault == Some(RunInactive) <==> run.status != Active)
            && (fault == Some(UnknownReservation) <==> run.status == Active && callId !in run.reserved)
            && (run.status == Active && callId in run.reserved ==>
                  && next.spentCostUsd == run.spentCostUsd + cost && next.completedCalls == run.completedCalls + 1
                  && next.reserved == run.reserved - {callId} && next.pending == run.pending
                  && (fault.None? <==> next.status == Active)
                  && (fault.Some? <==> fault == Some(LimitViolated) && next.status == Failed)
                  && (next.status == Failed <==>
                        || (p.hardCallCostLimitUsd.Some? && cost > p.hardCallCostLimitUsd.value + SLACK)
                        || (p.hardCallLatencyLimitMs.Some? && latencyMs > p.hardCallLatencyLimitMs.value)
                        || (p.hardAgentCostLimitUsd.Some?
                            && run.spentCostUsd + cost > p.hardAgentCostLimitUsd.value + SLACK)
                        || (p.hardAgentLatencyLimitMs.Some? && elapsedMs > p.hardAgentLatencyLimitMs.value)))
            && (run.status != Active || callId !in run.reserved ==> next == run)
  {
  }

  // ---------------------------------------------------------------- the agent's cost limit

  ghost predicate WithinLimit(run: Run) {
    run.policy.hardAgentCostLimitUsd.Some? ==> Committed(run) <= run.policy.hardAgentCostLimitUsd.value + SLACK
  }

  /** However many allocations were pending and in whatever order they return, a grant is made only
      if everything committed, the new call included, fits the limit. */
  lemma GrantFitsTheLimit(b: Book, callId: int, d: AllocationDecision, evidence: Evidence, elapsedMs: int)
    requires Sound(b) && d.Valid() && callId in b.run.pending
    ensures var (next, granted) := Commit(b.run, callId, d, evidence, elapsedMs);
            && (granted.Ok? ==> WithinLimit(next) && Committed(next) == Committed(b.run) + d.costUsd)
            && (granted.Err? ==> Committed(next) == Committed(b.run) && callId !in next.reserved)
  {
    hide BudgetFor; hide Tally;
    assert InOnePlace(b, callId);
    TallyPut(b.run.reserved, callId, BudgetFor(callId, d), CostOf());
  }

  /** Settling keeps the bound exactly when the call costs no more than the limit leaves it beside
      everything else that is committed. */
  lemma SettleKeepsLimitIff(run: Run, callId: int, cost: real, latencyMs: int, elapsedMs: int, limit: real)
    requires run.status == Active && callId in run.reserved && run.policy.hardAgentCostLimitUsd == Some(limit)
    ensures var next := Settle(run, callId, cost, latencyMs, elapsedMs).0;
            WithinLimit(next) <==> cost <= limit + SLACK - (Committed(run) - run.reserved[callId].costUsd)
  {
    TallyRemove(run.reserved, callId, CostOf());
  }

  /** Failing a call whose billing is unknown moves its whole allocation from reserved to spent:
      the bound holds afterwards exactly when it held before. */
  lemma FailKeepsLimitIff(run: Run, callId: int)
    requires run.status == Active && callId in run.reserved
    ensures var next := FailCall(run, callId, true).0;
            next.status == Active && Committed(next) == Committed(run) && (WithinLimit(next) <==> WithinLimit(run))
    ensures Committed(FailCall(run, callId, false).0) == Committed(run) - run.reserved[callId].costUsd
  {
    TallyRemove(run.reserved, callId, CostOf());
  }

  ghost predicate Overruns(b: Book, a: Action) {
    a.SettleCall? && a.callId in b.run.reserved && a.costUsd > b.run.reserved[a.callId].costUsd
  }

  /** No settlement of the run reports more than its reservation. */
  ghost predicate Faithful(b: Book, actions: seq<Action>)
    decreases |actions|
  {
    actions == [] || (!Overruns(b, actions[0]) && Faithful(Apply(b, actions[0]), actions[1..]))
  }

  lemma FinishKeepsLimit(run: Run, status: RunStatus, elapsedMs: int)
    requires WithinLimit(run) && status != Active
    ensures WithinLimit(Finish(run, status, elapsedMs).0)
  {
    hide Tally;
    var next := Finish(run, status, elapsedMs).0;
    if next.reserved == map[] { EmptyReservesNothing(next); }
  }

  /** A settlement asks for no more than the limit, with one slack, leaves beside everything else committed. */
  ghost predicate SettlementFits(b: Book, a: Action) {
    a.SettleCall? && Admissible(a) && b.run.status == Active && a.callId in b.run.reserved
    && b.run.policy.hardAgentCostLimitUsd.Some? ==>
      a.costUsd <= b.run.policy.hardAgentCostLimitUsd.value + SLACK
                     - (Committed(b.run) - b.run.reserved[a.callId].costUsd)
  }

  /** From within the limit, a step stays within it exactly when it is no settlement that is too large. */
  lemma StepKeepsLimitIff(b: Book, a: Action)
    requires Sound(b) && WithinLimit(b.run)
    ensures WithinLimit(Apply(b, a).run) <==> SettlementFits(b, a)
  {
    hide BudgetFor, Tally, Validate, BreaksLimit;
    if Admissible(a) {
      match a
      case CommitCall(id, d, evidence, elapsed) =>
        if id in b.run.pending { GrantFitsTheLimit(b, id, d, evidence, elapsed); }
      case SettleCall(id, cost, latency, elapsed) => SettleStepIff(b, id, cost, latency, elapsed);
      case FailTheCall(id, unknown) => TallyRemove(b.run.reserved, id, CostOf());
      case FinishRun(status, elapsed) => FinishKeepsLimit(b.run, status, elapsed);
      case _ =>
    }
  }

  lemma SettleStepIff(b: Book, id: int, cost: real, latency: int, elapsed: int)
    requires WithinLimit(b.run) && cost >= 0.0
    ensures WithinLimit(Apply(b, SettleCall(id, cost, latency, elapsed)).run) <==>
              SettlementFits(b, SettleCall(id, cost, latency, elapsed))
  {
    hide Tally, Committed, BreaksLimit;
    if b.run.status == Active && id in b.run.reserved && b.run.policy.hardAgentCostLimitUsd.Some? {
      SettleKeepsLimitIff(b.run, id, cost, latency, elapsed, b.run.policy.hardAgentCostLimitUsd.value);
    }
  }

  ghost predicate EverySettlementFits(b: Book, actions: seq<Action>)
    decreases |actions|
  {
    actions == [] || (SettlementFits(b, actions[0]) && EverySettlementFits(Apply(b, actions[0]), actions[1..]))
  }

  ghost predicate WithinAfter(b: Book, actions: seq<Action>, k: nat)
    requires k <= |actions|
  {
    WithinLimit(Execute(b, actions[..k]).run)
  }

  /** A run is within its limit at every moment exactly when it is at the start and every settlement of a
      reserved call fits beside the other commitments of that moment. */
  lemma {:induction false} AlwaysWithinLimitIff(b: Book, actions: seq<Action>)
    requires Sound(b)
    ensures (forall k: nat | k <= |actions| :: WithinAfter(b, actions, k)) <==>
              WithinLimit(b.run) && EverySettlementFits(b, actions)
    decreases |actions|
  {
    hide Apply, WithinLimit, SettlementFits, Sound;
    assert actions[..0] == [];
    assert WithinAfter(b, actions, 0) <==> WithinLimit(b.run);
    if actions != [] {
      var next, rest := Apply(b, actions[0]), actions[1..];
      StepKeeps(b, actions[0]);
      AlwaysWithinLimitIff(next, rest);
      forall k: nat | k <= |rest| ensures WithinAfter(b, actions, k + 1) <==> WithinAfter(next, rest, k) {
        assert actions[..k + 1][0] == actions[0] && actions[..k + 1][1..] == rest[..k];
      }
      assert WithinAfter(next, rest, 0) <==> WithinLimit(next.run) by { assert rest[..0] == []; }
      if WithinLimit(b.run) { StepKeepsLimitIff(b, actions[0]); }
      if forall k: nat | k <= |rest| :: WithinAfter(next, rest, k) {
        forall k: nat | 0 < k <= |actions| ensures WithinAfter(b, actions, k) {
          assert WithinAfter(next, rest, k - 1);
        }
      }
    }
  }

  lemma StepKeepsLimit(b: Book, a: Action)
    requires Sound(b) && WithinLimit(b.run) && !Overruns(b, a)
    ensures WithinLimit(Apply(b, a).run)
  {
    hide Apply, Tally;
    StepKeepsLimitIff(b, a);
  }

  /** On a run where no settlement exceeds its reservation, spent plus reserved stays within the hard
      limit plus one slack in every reachable state, through failures and closing. */
  lemma {:induction false} FaithfulRunStaysWithinLimit(b: Book, actions: seq<Action>)
    requires Sound(b) && WithinLimit(b.run) && Faithful(b, actions)
    ensures WithinLimit(Execute(b, actions).run)
    decreases |actions|
  {
    if actions != [] {
      StepKeeps(b, actions[0]);
      StepKeepsLimit(b, actions[0]);
      FaithfulRunStaysWithinLimit(Apply(b, actions[0]), actions[1..]);
    }
  }

  lemma {:induction false} RunConcat(b: Book, first: seq<Action>, second: seq<Action>)
    ensures Execute(b, first + second) == Execute(Execute(b, first), second)
    decreases |first|
  {
    if first == [] {
      assert first + second == second;
    } else {
      assert (first + second)[1..] == first[1..] + second;
      RunConcat(Apply(b, first[0]), first[1..], second);
    }
  }

  lemma ExecuteTwo(b: Book, x: Action, y: Action)
    ensures Execute(b, [x, y]) == Apply(Apply(b, x), y)
  {
    hide Apply;
    assert [x, y][1..] == [y] && [y][1..] == [];
    assert Execute(b, [x, y]) == Execute(Apply(b, x), [y]);
  }

  const FIVE_DOLLARS := AllocationDecision(5.0, 1, 0.5, 1, [])

  const ONE_TOKEN := Evidence(1, [])

  /** The limit of the example: ten dollars for the run, nothing for one call, no time limit. */
  predicate TenDollars(policy: OperatingPolicy) {
    policy.hardAgentCostLimitUsd == Some(10.0) && policy.hardCallCostLimitUsd == None && !policy.CapsLatency()
  }

  lemma TwoCallsBegin(policy: OperatingPolicy)
    requires TenDollars(policy)
    ensures Execute(Opened(policy), [BeginCall(0), BeginCall(0)])
              == Opened(policy).(run := Run(policy, Active, 0, 0.0, map[], {1, 2}, 3, 0))
  {
    ExecuteTwo(Opened(policy), BeginCall(0), BeginCall(0));
    assert Tally(NewRun(policy).reserved, CostOf()) == 0.0;
  }

  lemma TwoCallsCommit(b: Book)
    requires TenDollars(b.run.policy) && b.run == Run(b.run.policy, Active, 0, 0.0, map[], {1, 2}, 3, 0)
    ensures var budgets := map[1 := BudgetFor(1, FIVE_DOLLARS), 2 := BudgetFor(2, FIVE_DOLLARS)];
            Execute(b, [CommitCall(1, FIVE_DOLLARS, ONE_TOKEN, 0), CommitCall(2, FIVE_DOLLARS, ONE_TOKEN, 0)])
              == b.(run := Run(b.run.policy, Active, 0, 0.0, budgets, {}, 3, 0))
  {
    hide BudgetFor;
    var first, second := CommitCall(1, FIVE_DOLLARS, ONE_TOKEN, 0), CommitCall(2, FIVE_DOLLARS, ONE_TOKEN, 0);
    ExecuteTwo(b, first, second);
    var one := map[1 := BudgetFor(1, FIVE_DOLLARS)];
    assert Tally(b.run.reserved, CostOf()) == 0.0;
    assert Apply(b, first).run == Run(b.run.policy, Active, 0, 0.0, one, {2}, 3, 0);
    TallyTake(one, 1, CostOf());
    assert one - {1} == map[];
    assert {2} - {2} == {};
  }

  lemma OneOverrunsOneFails(b: Book, first: CallBudget, second: CallBudget)
    requires TenDollars(b.run.policy) && first.costUsd == 5.0 && second.costUsd == 5.0
    requires b.run == Run(b.run.policy, Active, 0, 0.0, map[1 := first, 2 := second], {}, 3, 0)
    ensures var c := Execute(b, [SettleCall(1, 9.0, 0, 0), FailTheCall(2, true)]);
            c.run.status == Active && Committed(c.run) == 14.0
  {
    ExecuteTwo(b, SettleCall(1, 9.0, 0, 0), FailTheCall(2, true));
    TallyTake(b.run.reserved, 1, CostOf());
    assert b.run.reserved - {1} == map[2 := second];
    TallyTake(map[2 := second], 2, CostOf());
    assert map[2 := second] - {2} == map[];
    var settled := Settle(b.run, 1, 9.0, 0, 0).0;
    FailKeepsLimitIff(settled, 2);
  }

  /** Without that assumption an active run can end up above its limit: of two calls granted half of it
      each, one overruns within what is left, and the other fails with its billing unknown. */
  lemma OverrunThenFailureExceedsLimit(policy: OperatingPolicy)
    requires TenDollars(policy)
    ensures exists actions :: var run := Execute(Opened(policy), actions).run; run.status == Active && !WithinLimit(run)
  {
    hide Execute, Apply, BudgetFor;
    var begins := [BeginCall(0), BeginCall(0)];
    var commits := [CommitCall(1, FIVE_DOLLARS, ONE_TOKEN, 0), CommitCall(2, FIVE_DOLLARS, ONE_TOKEN, 0)];
    var ends := [SettleCall(1, 9.0, 0, 0), FailTheCall(2, true)];
    TwoCallsBegin(policy);
    TwoCallsCommit(Execute(Opened(policy), begins));
    RunConcat(Opened(policy), begins, commits);
    OneOverrunsOneFails(Execute(Opened(policy), begins + commits), BudgetFor(1, FIVE_DOLLARS),
                        BudgetFor(2, FIVE_DOLLARS));
    RunConcat(Opened(policy), begins + commits, ends);
    PolicyStays(Opened(policy), begins + commits + ends);
  }

  lemma {:induction false} PolicyStays(b: Book, actions: seq<Action>)
    ensures Execute(b, actions).run.policy == b.run.policy
    decreases |actions|
  {
    if actions != [] { PolicyStays(Apply(b, actions[0]), actions[1..]); }
  }

  // ---------------------------------------------------------------- runs that a broken limit fails

  /** The action settles a reserved call over some limit, or finds the run past its deadline. */
  predicate Violates(b: Book, a: Action) {
    match a
    case SettleCall(id, cost, latency, elapsed) =>
      id in b.run.reserved && cost >= 0.0
      && BreaksLimit(b.run.policy, b.run.spentCostUsd + cost, cost, latency, elapsed)
    case UseTool(elapsed) =>
      b.run.policy.hardAgentLatencyLimitMs.Some? && elapsed > b.run.policy.hardAgentLatencyLimitMs.value
    case _ => false
  }

  /** The call that an action ends. */
  function Ended(a: Action): set<int> {
    if a.SettleCall? then {a.callId} else {}
  }

  lemma StepViolates(b: Book, a: Action)
    requires b.run.status == Active
    ensures var c := Apply(b, a);
            && (Violates(b, a) ==> c.run.status == Failed && c.run.reserved == b.run.reserved - Ended(a))
            && (!Violates(b, a) && c.run.status != Active ==> a.FinishRun? && c.run.reserved == map[])
  {
    hide Tally, Committed, BudgetFor, Validate, BreaksLimit;
    assert b.run.reserved - {} == b.run.reserved;
  }

  /** A run that a broken limit fails keeps every other reservation for good: it holds nothing exactly when no
      other call was reserved. */
  lemma ViolatedRunKeepsReservations(b: Book, a: Action, later: seq<Action>)
    requires b.run.status == Active && Violates(b, a)
    ensures var end := Execute(Apply(b, a), later).run;
            && end.status == Failed && end.reserved == b.run.reserved - Ended(a)
            && (end.reserved == map[] <==> b.run.reserved.Keys <= Ended(a))
  {
    hide Apply, Violates;
    StepViolates(b, a);
    ClosedRunIsFrozen(Apply(b, a), later);
    var m := b.run.reserved;
    if m - Ended(a) == map[] {
      forall id | id in m ensures id in Ended(a) {
        assert id !in (m - Ended(a));
      }
    }
  }

  /** Some step of the run breaks a limit while another call is reserved, and the run is active until then. */
  ghost predicate BreaksHolding(b: Book, actions: seq<Action>)
    decreases |actions|
  {
    actions != [] && b.run.status == Active &&
    ((Violates(b, actions[0]) && !(b.run.reserved.Keys <= Ended(actions[0])))
     || BreaksHolding(Apply(b, actions[0]), actions[1..]))
  }

  /** A run is over and still holds a reservation exactly when a broken limit ended it while another call was
      reserved: finishing and failing calls never leave one. */
  lemma {:induction false} ClosedRunHoldsIff(b: Book, actions: seq<Action>)
    requires b.run.status == Active
    ensures var end := Execute(b, actions).run;
            end.status != Active && end.reserved != map[] <==> BreaksHolding(b, actions)
    decreases |actions|
  {
    hide Apply, Violates;
    if actions != [] {
      var a, rest, next := actions[0], actions[1..], Apply(b, actions[0]);
      StepViolates(b, a);
      if Violates(b, a) {
        ViolatedRunKeepsReservations(b, a, rest);
      } else if next.run.status == Active {
        ClosedRunHoldsIff(next, rest);
      } else {
        ClosedRunIsFrozen(next, rest);
      }
    }
  }

  lemma SettlingOverTheLimitFails(b: Book, first: CallBudget, second: CallBudget)
    requires TenDollars(b.run.policy)
    requires b.run == Run(b.run.policy, Active, 0, 0.0, map[1 := first, 2 := second], {}, 3, 0)
    ensures var c := Execute(b, [SettleCall(1, 11.0, 0, 0)]); c.run.status == Failed && 2 in c.run.reserved
  {
    var settle := SettleCall(1, 11.0, 0, 0);
    assert [settle][1..] == [];
    assert Execute(b, [settle]) == Apply(b, settle);
  }

  /** Such a run is reachable: of two calls granted half the limit each, one settles above all of it. */
  lemma FailedRunMayHoldAReservation(policy: OperatingPolicy)
    requires TenDollars(policy)
    ensures exists actions, id :: var run := Execute(Opened(policy), actions).run;
              run.status == Failed && id in run.reserved
  {
    hide Execute, Apply, BudgetFor;
    var begins := [BeginCall(0), BeginCall(0)];
    var commits := [CommitCall(1, FIVE_DOLLARS, ONE_TOKEN, 0), CommitCall(2, FIVE_DOLLARS, ONE_TOKEN, 0)];
    var settle := [SettleCall(1, 11.0, 0, 0)];
    TwoCallsBegin(policy);
    TwoCallsCommit(Execute(Opened(policy), begins));
    RunConcat(Opened(policy), begins, commits);
    SettlingOverTheLimitFails(Execute(Opened(policy), begins + commits), BudgetFor(1, FIVE_DOLLARS),
                              BudgetFor(2, FIVE_DOLLARS));
    RunConcat(Opened(policy), begins + commits, settle);
    assert 2 in Execute(Opened(policy), begins + commits + settle).run.reserved;
  }

  // ---------------------------------------------------------------- a preparation that others interrupt

  /** The actions that only the caller preparing a call takes for it. */
  predicate Handles(a: Action, id: int) {
    (a.CommitCall? || a.DiscardCall? || a.SettleCall? || a.FailTheCall?) && a.callId == id
  }

  /** Other callers' actions: none of them is taken for the call. */
  predicate Spare(actions: seq<Action>, id: int) {
    forall i | 0 <= i < |actions| :: !Handles(actions[i], id)
  }

  lemma {:induction false} PendingSurvives(b: Book, id: int, others: seq<Action>)
    requires id in b.run.pending && Spare(others, id)
    ensures id in Execute(b, others).run.pending
    decreases |others|
  {
    if others != [] {
      assert id in Apply(b, others[0]).run.pending;
      PendingSurvives(Apply(b, others[0]), id, others[1..]);
    }
  }

  /** The call is reserved, or a closed run has charged it in full. */
  ghost predicate KeptInFull(b: Book, id: int, budget: CallBudget) {
    || (id in b.run.reserved && b.run.reserved[id] == budget)
    || (b.run.status != Active && id !in b.run.reserved && id in b.charges && b.charges[id] == budget.costUsd)
  }

  lemma EachInOnePlace(b: Book, id: int)
    requires Sound(b)
    ensures InOnePlace(b, id)
  {
  }

  lemma OthersKeepInFull(b: Book, id: int, budget: CallBudget, a: Action)
    requires InOnePlace(b, id) && KeptInFull(b, id, budget) && !Handles(a, id)
    ensures KeptInFull(Apply(b, a), id, budget)
  {
    hide Tally, Committed, BudgetFor, Validate, BreaksLimit;
  }

  lemma {:induction false} ReservationSurvives(b: Book, id: int, budget: CallBudget, others: seq<Action>)
    requires Sound(b) && KeptInFull(b, id, budget) && Spare(others, id)
    ensures KeptInFull(Execute(b, others), id, budget)
    decreases |others|
  {
    hide KeptInFull, Sound, Apply;
    if others != [] {
      StepKeeps(b, others[0]);
      assert InOnePlace(b, id) by { EachInOnePlace(b, id); }
      OthersKeepInFull(b, id, budget, others[0]);
      ReservationSurvives(Apply(b, others[0]), id, budget, others[1..]);
    }
  }

  lemma {:induction false} AbandonedForGood(b: Book, id: int, actions: seq<Action>)
    requires id in b.abandoned
    ensures id in Execute(b, actions).abandoned
    decreases |actions|
  {
    if actions != [] { AbandonedForGood(Apply(b, actions[0]), id, actions[1..]); }
  }

  /** Nothing is pending, reserved or charged under the number. */
  ghost predicate LeavesNothing(b: Book, id: int) {
    id !in b.run.pending && id !in b.run.reserved && (id in b.charges ==> b.charges[id] == 0.0)
  }

  ghost predicate ReleasesOnly(b: Book, c: Book, id: int) {
    && c.run.pending == b.run.pending && c.run.status == b.run.status && c.run.spentCostUsd == b.run.spentCostUsd
    && c.run.reserved - {id} == b.run.reserved - {id} && c.charges - {id} == b.charges - {id}
  }

  /** Whatever others do, a granted call stays reserved, or is charged in full by a run that closed; releasing it
      then leaves nothing of it exactly when the run is still active, and changes nothing else. */
  lemma GrantOutlivesOthers(b: Book, id: int, others: seq<Action>)
    requires Sound(b) && id in b.run.reserved && Spare(others, id)
    ensures var late := Execute(b, others);
            var released := Apply(late, FailTheCall(id, false));
            && Sound(late) && KeptInFull(late, id, b.run.reserved[id]) && ReleasesOnly(late, released, id)
            && (LeavesNothing(released, id) <==> late.run.status == Active)
  {
    hide Execute, LeavesNothing, ReleasesOnly, Apply;
    RunKeeps(b, others);
    ReservationSurvives(b, id, b.run.reserved[id], others);
    EachInOnePlace(Execute(b, others), id);
    ReservedCostsSomething(b, id);
    ReleasingKept(Execute(b, others), id, b.run.reserved[id]);
  }

  lemma ReservedCostsSomething(b: Book, id: int)
    requires Sound(b) && id in b.run.reserved
    ensures b.run.reserved[id].costUsd > 0.0
  {
  }

  /** An allocation that was given up leaves nothing. */
  lemma AbandonedLeavesNothing(b: Book, id: int)
    requires Sound(b) && id in b.abandoned
    ensures LeavesNothing(b, id)
  {
    assert InOnePlace(b, id);
  }

  /** Other calls may act at any moment while one call is prepared: after its allocation began, and after it
      was granted.  When a later stage then refuses the call, releasing it leaves nothing behind exactly when
      the grant had been refused or the run is still active; the other reservations stay as they were. */
  lemma InterruptedPreparation(
    b: Book, elapsed: int, before: seq<Action>, d: AllocationDecision, evidence: Evidence, returned: int,
    after: seq<Action>)
    requires Sound(b) && d.Valid() && Begin(b.run, elapsed).Ok?
    requires var id := b.run.nextSequence;
             Spare(before, id) && Spare(after, id)
    ensures var id := b.run.nextSequence;
            var asked := Execute(Apply(b, BeginCall(elapsed)), before);
            var answered := Apply(asked, CommitCall(id, d, evidence, returned));
            var late := Execute(answered, after);
            var released := Apply(late, FailTheCall(id, false));
            && (LeavesNothing(released, id) <==> id !in answered.run.reserved || late.run.status == Active)
            && ReleasesOnly(late, released, id)
  {
    hide Sound, Execute, KeptInFull, LeavesNothing, Apply;
    var id := b.run.nextSequence;
    var begun := Apply(b, BeginCall(elapsed));
    StepKeeps(b, BeginCall(elapsed));
    BegunIsPending(b, elapsed);
    PendingSurvives(begun, id, before);
    RunKeeps(begun, before);
    var asked := Execute(begun, before);
    var answered := Apply(asked, CommitCall(id, d, evidence, returned));
    StepKeeps(asked, CommitCall(id, d, evidence, returned));
    AnsweredEitherWay(asked, id, d, evidence, returned);
    RunKeeps(answered, after);
    var late := Execute(answered, after);
    if id in answered.run.reserved {
      GrantOutlivesOthers(answered, id, after);
    } else {
      AbandonedForGood(answered, id, after);
      ReleasingAbandoned(late, id);
    }
  }

  lemma BegunIsPending(b: Book, elapsed: int)
    requires Begin(b.run, elapsed).Ok?
    ensures b.run.nextSequence in Apply(b, BeginCall(elapsed)).run.pending
  {
  }

  lemma AnsweredEitherWay(b: Book, id: int, d: AllocationDecision, evidence: Evidence, returned: int)
    requires Sound(b) && d.Valid() && id in b.run.pending
    ensures var c := Apply(b, CommitCall(id, d, evidence, returned));
            if id in c.run.reserved then KeptInFull(c, id, c.run.reserved[id]) && c.run.reserved[id].costUsd > 0.0
            else id in c.abandoned
  {
    hide Tally;
    assert InOnePlace(b, id);
  }

  lemma ReleasingKept(b: Book, id: int, budget: CallBudget)
    requires InOnePlace(b, id) && KeptInFull(b, id, budget) && budget.costUsd > 0.0
    ensures LeavesNothing(Apply(b, FailTheCall(id, false)), id) <==> b.run.status == Active
    ensures ReleasesOnly(b, Apply(b, FailTheCall(id, false)), id)
  {
    hide Tally;
  }

  lemma ReleasingAbandoned(b: Book, id: int)
    requires Sound(b) && id in b.abandoned
    ensures Apply(b, FailTheCall(id, false)) == b && LeavesNothing(b, id)
  {
    hide Tally;
    assert InOnePlace(b, id);
  }
}
