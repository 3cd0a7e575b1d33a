/** The controller's mutable runs.  Every method is one section under the lock, tied to the ledger
    step it performs; the allocator itself is called between BeginAllocation and CommitAllocation. */
module GlobalController {
  import opened Basics
  import opened Tallies
  import opened Models
  import L = ControllerLedger

  lemma EmptyMap<K, V>(m: map<K, V>)
    requires forall k :: k !in m
    ensures m == map[]
  {}

  class AgentRun {
    const policy: OperatingPolicy
    var status: L.RunStatus
    var completedCalls: nat
    var spentCostUsd: real
    var reserved: map<int, CallBudget>
    var pending: set<int>
    var nextSequence: int
    var toolCalls: nat
    ghost var charges: map<int, real>
    ghost var abandoned: set<int>

    constructor (policy: OperatingPolicy)
      ensures Valid() && Book() == L.Opened(policy)
    {
      this.policy := policy;
      status, completedCalls, spentCostUsd := L.Active, 0, 0.0;
      reserved, pending, nextSequence, toolCalls := map[], {}, 1, 0;
      charges, abandoned := map[], {};
      new;
      forall id ensures L.InOnePlace(Book(), id) {}
    }

    ghost function State(): L.Run
      reads this
    {
      L.Run(policy, status, completedCalls, spentCostUsd, reserved, pending, nextSequence, toolCalls)
    }

    ghost function Book(): L.Book
      reads this
    {
      L.Book(State(), charges, abandoned)
    }

    ghost predicate Valid()
      reads this
    {
      L.Sound(Book())
    }

    method ReservedTotal() returns (total: real)
      ensures total == L.ReservedCost(State())
    {
      total := 0.0;
      var left := reserved;
      while left != map[]
        invariant total + Tally(left, L.CostOf()) == L.ReservedCost(State())
        decreases |left|
      {
        assert exists k :: k in left by {
          if forall k :: k !in left { EmptyMap(left); }
        }
        var k :| k in left;
        TallyTake(left, k, L.CostOf());
        total := total + left[k].costUsd;
        left := left - {k};
      }
    }

    method Begin(elapsedMs: int) returns (callId: Result<int, L.Fault>)
      requires Valid()
      modifies this
      ensures Valid() && Book() == L.Apply(old(Book()), L.BeginCall(elapsedMs))
      ensures match L.Begin(old(State()), elapsedMs)
              case Ok(_) => callId == Ok(old(nextSequence)) && callId.value in pending
              case Err(fault) => callId == Err(fault)
    {
      hide Tally;
      if status != L.Active { return Err(L.RunInactive); }
      var total := ReservedTotal();
      var cost := L.RemainingCost(policy, spentCostUsd, total);
      var latency := L.RemainingLatency(policy, elapsedMs);
      if cost.Some? && cost.value <= 0.0 { return Err(L.CostExhausted); }
      if latency.Some? && latency.value <= 0 { return Err(L.LatencyExhausted); }
      L.StepKeeps(Book(), L.BeginCall(elapsedMs));
      callId := Ok(nextSequence);
      pending := pending + {nextSequence};
      nextSequence := nextSequence + 1;
    }

    method Discard(callId: int)
      requires Valid() && callId in pending
      modifies this
      ensures Valid() && Book() == L.Apply(old(Book()), L.DiscardCall(callId))
    {
      hide Tally;
      L.StepKeeps(Book(), L.DiscardCall(callId));
      pending := pending - {callId};
      abandoned := abandoned + {callId};
    }

    method Commit(callId: int, d: AllocationDecision, evidence: L.Evidence, elapsedMs: int)
      returns (budget: Result<CallBudget, L.Fault>)
      requires Valid() && d.Valid() && callId in pending
      modifies this
      ensures Valid() && Book() == L.Apply(old(Book()), L.CommitCall(callId, d, evidence, elapsedMs))
      ensures budget == L.Commit(old(State()), callId, d, evidence, elapsedMs).1
      ensures budget.Ok? ==> L.WithinLimit(State())
    {
      hide Tally; hide L.BudgetFor;
      L.StepKeeps(Book(), L.CommitCall(callId, d, evidence, elapsedMs));
      L.GrantFitsTheLimit(Book(), callId, d, evidence, elapsedMs);
      pending := pending - {callId};
      if status != L.Active {
        abandoned := abandoned + {callId};
        return Err(L.BecameInactive);
      }
      var total := ReservedTotal();
      var fault := L.Validate(policy, d, L.RemainingCost(policy, spentCostUsd, total),
                              L.RemainingLatency(policy, elapsedMs), evidence);
      if fault.Some? {
        abandoned := abandoned + {callId};
        return Err(fault.value);
      }
      var granted := L.BudgetFor(callId, d);
      reserved := reserved[callId := granted];
      return Ok(granted);
    }

    method Settle(callId: int, costUsd: real, latencyMs: int, elapsedMs: int) returns (fault: Option<L.Fault>)
      requires Valid() && costUsd >= 0.0
      modifies this
      ensures Valid() && Book() == L.Apply(old(Book()), L.SettleCall(callId, costUsd, latencyMs, elapsedMs))
      ensures fault == L.Settle(old(State()), callId, costUsd, latencyMs, elapsedMs).1
    {
      hide Tally;
      if status != L.Active { return Some(L.RunInactive); }
      if callId !in reserved { return Some(L.UnknownReservation); }
      L.StepKeeps(Book(), L.SettleCall(callId, costUsd, latencyMs, elapsedMs));
      reserved := reserved - {callId};
      spentCostUsd := spentCostUsd + costUsd;
      completedCalls := completedCalls + 1;
      charges := charges[callId := costUsd];
      if L.BreaksLimit(policy, spentCostUsd, costUsd, latencyMs, elapsedMs) {
        status := L.Failed;
        return Some(L.LimitViolated);
      }
      return None;
    }

    method Fail(callId: int, billingUnknown: bool) returns (fault: Option<L.Fault>)
      requires Valid()
      modifies this
      ensures Valid() && Book() == L.Apply(old(Book()), L.FailTheCall(callId, billingUnknown))
      ensures fault == L.FailCall(old(State()), callId, billingUnknown).1
    {
      hide Tally;
      if status != L.Active { return Some(L.RunInactive); }
      if callId !in reserved { return Some(L.UnknownReservation); }
      L.StepKeeps(Book(), L.FailTheCall(callId, billingUnknown));
      var charge := if billingUnknown then reserved[callId].costUsd else 0.0;
      reserved := reserved - {callId};
      spentCostUsd := spentCostUsd + charge;
      completedCalls := completedCalls + 1;
      charges := charges[callId := charge];
      return None;
    }

    method UseTool(elapsedMs: int) returns (fault: Option<L.Fault>)
      requires Valid()
      modifies this
      ensures Valid() && Book() == L.Apply(old(Book()), L.UseTool(elapsedMs))
      ensures fault == L.ObserveTool(old(State()), elapsedMs).1
    {
      hide Tally;
      if status != L.Active { return Some(L.RunInactive); }
      L.StepKeeps(Book(), L.UseTool(elapsedMs));
      toolCalls := toolCalls + 1;
      if policy.hardAgentLatencyLimitMs.Some? && elapsedMs > policy.hardAgentLatencyLimitMs.value {
        status := L.Failed;
        return Some(L.AgentLatencyLimit);
      }
      return None;
    }

    /** Charges every unsettled reservation in full, since nobody knows what was billed. */
    method ChargeUnresolved()
      requires Valid() && pending == {}
      modifies `spentCostUsd, `completedCalls, `charges, `reserved
      ensures spentCostUsd == old(L.Committed(State())) && completedCalls == old(completedCalls) + old(|reserved|)
      ensures reserved == map[] && charges == old(charges + L.ChargesAtClose(State()))
    {
      hide Tally, L.Sound, L.ChargesAtClose, L.ReservedCost;
      var unresolved := ReservedTotal();
      charges := charges + L.ChargesAtClose(State());
      spentCostUsd := spentCostUsd + unresolved;
      completedCalls := completedCalls + |reserved|;
      reserved := map[];
    }

    method Finish(closing: L.RunStatus, elapsedMs: int) returns (fault: Option<L.Fault>)
      requires Valid() && closing != L.Active
      modifies this
      ensures Valid() && Book() == L.Apply(old(Book()), L.FinishRun(closing, elapsedMs))
      ensures fault == L.Finish(old(State()), closing, elapsedMs).1
    {
      hide Tally;
      if status != L.Active {
        return if status == closing then None else Some(L.RunInactive);
      }
      if pending != {} { return Some(L.AllocationsPending); }
      fault := Close(closing, elapsedMs);
    }

    method Close(closing: L.RunStatus, elapsedMs: int) returns (fault: Option<L.Fault>)
      requires Valid() && closing != L.Active && status == L.Active && pending == {}
      modifies this
      ensures Valid() && Book() == L.Apply(old(Book()), L.FinishRun(closing, elapsedMs))
      ensures fault == L.Finish(old(State()), closing, elapsedMs).1
    {
      hide Tally; hide L.Finish; hide L.Apply; hide L.ChargesAtClose; hide L.Committed; hide L.Sound;
      L.StepKeeps(Book(), L.FinishRun(closing, elapsedMs));
      L.FinishingCharges(Book(), closing, elapsedMs);
      ChargeUnresolved();
      if closing == L.Completed && policy.hardAgentLatencyLimitMs.Some?
         && elapsedMs > policy.hardAgentLatencyLimitMs.value {
        status := L.Failed;
        return Some(L.AgentLatencyLimit);
      }
      status := closing;
      return None;
    }

    /** Takes any action of the ledger; one that its caller is not in a position to take does nothing. */
    method Take(a: L.Action)
      requires Valid()
      modifies this
      ensures Valid() && Book() == L.Apply(old(Book()), a)
    {
      hide L.Begin, L.Commit, L.Settle, L.FailCall, L.ObserveTool, L.Finish, L.Sound, Tally;
      if !L.Admissible(a) {
        return;
      }
      match a {
        case BeginCall(elapsed) => var _ := Begin(elapsed);
        case CommitCall(id, d, evidence, elapsed) =>
          if id in pending { var _ := Commit(id, d, evidence, elapsed); }
        case DiscardCall(id) => if id in pending { Discard(id); }
        case SettleCall(id, cost, latency, elapsed) => var _ := Settle(id, cost, latency, elapsed);
        case FailTheCall(id, unknown) => var _ := Fail(id, unknown);
        case UseTool(elapsed) => var _ := UseTool(elapsed);
        case FinishRun(closing, elapsed) => var _ := Finish(closing, elapsed);
      }
    }

    /** Taking actions one after another runs the ledger. */
    method TakeAll(actions: seq<L.Action>)
      requires Valid()
      modifies this
      ensures Valid() && Book() == L.Execute(old(Book()), actions)
    {
      hide L.Apply, L.Sound;
      for k := 0 to |actions|
        invariant Valid() && L.Execute(Book(), actions[k..]) == L.Execute(old(Book()), actions)
      {
        assert actions[k..][0] == actions[k] && actions[k..][1..] == actions[k + 1..];
        Take(actions[k]);
      }
    }
  }

  class Controller {
    var runs: map<string, AgentRun>

    constructor ()
      ensures Valid() && runs == map[]
    {
      runs := map[];
    }

    /** No two names share a run object, and every run's book is sound. */
    ghost predicate Valid()
      reads this, runs.Values
    {
      && (forall a, b | a in runs && b in runs && a != b :: runs[a] != runs[b])
      && (forall a | a in runs :: runs[a].Valid())
    }

    /** The one run object that a call naming runId may change. */
    ghost function Touched(runId: string): set<object>
      reads this
    {
      if runId in runs then {runs[runId]} else {}
    }

    /** The run id is generated and has never been used. */
    method StartRun(runId: string, policy: OperatingPolicy)
      requires Valid() && runId !in runs
      modifies this
      ensures Valid() && runs.Keys == old(runs.Keys) + {runId}
      ensures forall r | r in old(runs) :: runs[r] == old(runs[r])
      ensures fresh(runs[runId]) && runs[runId].Book() == L.Opened(policy)
    {
      hide L.Sound, L.Opened, Tally;
      var run := new AgentRun(policy);
      runs := runs[runId := run];
    }

    /** First half of an allocation: issue a sequence number and mark it pending. */
    method BeginAllocation(runId: string, elapsedMs: int) returns (callId: Result<int, L.Fault>)
      requires Valid()
      modifies Touched(runId)
      ensures Valid()
      ensures if runId !in runs then callId == Err(L.RunMissing)
              else
                && runs[runId].Book() == L.Apply(old(runs[runId].Book()), L.BeginCall(elapsedMs))
                && (match L.Begin(old(runs[runId].State()), elapsedMs)
                    case Ok(_) => callId == Ok(old(runs[runId].nextSequence)) && callId.value in runs[runId].pending
                    case Err(fault) => callId == Err(fault))
    {
      if runId !in runs { return Err(L.RunMissing); }
      callId := runs[runId].Begin(elapsedMs);
    }

    /** The allocator raised: the pending call is given up. */
    method DiscardPending(runId: string, callId: int)
      requires Valid() && (runId in runs ==> callId in runs[runId].pending)
      modifies Touched(runId)
      ensures Valid()
      ensures runId in runs ==> runs[runId].Book() == L.Apply(old(runs[runId].Book()), L.DiscardCall(callId))
    {
      if runId in runs { runs[runId].Discard(callId); }
    }

    /** Second half of an allocation: validate the decision against what remains now. */
    method CommitAllocation(runId: string, callId: int, d: AllocationDecision, evidence: L.Evidence, elapsedMs: int)
      returns (budget: Result<CallBudget, L.Fault>)
      requires Valid() && d.Valid() && (runId in runs ==> callId in runs[runId].pending)
      modifies Touched(runId)
      ensures Valid()
      ensures if runId !in runs then budget == Err(L.RunMissing)
              else
                && runs[runId].Book() == L.Apply(old(runs[runId].Book()), L.CommitCall(callId, d, evidence, elapsedMs))
                && budget == L.Commit(old(runs[runId].State()), callId, d, evidence, elapsedMs).1
                && (budget.Ok? <==> L.Grantable(old(runs[runId].State()), d, evidence, elapsedMs))
                && (budget.Ok? ==> L.WithinLimit(runs[runId].State()))
    {
      hide L.Grantable, L.Commit;
      if runId !in runs { return Err(L.RunMissing); }
      L.CommitGrantsIff(runs[runId].State(), callId, d, evidence, elapsedMs);
      budget := runs[runId].Commit(callId, d, evidence, elapsedMs);
    }

    method SettleCall(runId: string, callId: int, costUsd: real, latencyMs: int, elapsedMs: int)
      returns (fault: Option<L.Fault>)
      requires Valid() && costUsd >= 0.0
      modifies Touched(runId)
      ensures Valid()
      ensures if runId !in runs then fault == Some(L.RunMissing)
              else
                && fault == L.Settle(old(runs[runId].State()), callId, costUsd, latencyMs, elapsedMs).1
                && runs[runId].Book()
                     == L.Apply(old(runs[runId].Book()), L.SettleCall(callId, costUsd, latencyMs, elapsedMs))
    {
      if runId !in runs { return Some(L.RunMissing); }
      fault := runs[runId].Settle(callId, costUsd, latencyMs, elapsedMs);
    }

    method FailCall(runId: string, callId: int, billingUnknown: bool) returns (fault: Option<L.Fault>)
      requires Valid()
      modifies Touched(runId)
      ensures Valid()
      ensures if runId !in runs then fault == Some(L.RunMissing)
              else
                && fault == L.FailCall(old(runs[runId].State()), callId, billingUnknown).1
                && runs[runId].Book() == L.Apply(old(runs[runId].Book()), L.FailTheCall(callId, billingUnknown))
    {
      if runId !in runs { return Some(L.RunMissing); }
      fault := runs[runId].Fail(callId, billingUnknown);
    }

    method ObserveTool(runId: string, elapsedMs: int) returns (fault: Option<L.Fault>)
      requires Valid()
      modifies Touched(runId)
      ensures Valid()
      ensures if runId !in runs then fault == Some(L.RunMissing)
              else
                && fault == L.ObserveTool(old(runs[runId].State()), elapsedMs).1
                && runs[runId].Book() == L.Apply(old(runs[runId].Book()), L.UseTool(elapsedMs))
    {
      if runId !in runs { return Some(L.RunMissing); }
      fault := runs[runId].UseTool(elapsedMs);
    }

    method FinishRun(runId: string, status: L.RunStatus, elapsedMs: int) returns (fault: Option<L.Fault>)
      requires Valid() && status != L.Active
      modifies Touched(runId)
      ensures Valid()
      ensures if runId !in runs then fault == Some(L.RunMissing)
              else
                && fault == L.Finish(old(runs[runId].State()), status, elapsedMs).1
                && runs[runId].Book() == L.Apply(old(runs[runId].Book()), L.FinishRun(status, elapsedMs))
    {
      if runId !in runs { return Some(L.RunMissing); }
      fault := runs[runId].Finish(status, elapsedMs);
    }

    /** What other callers do to a run in the meantime. */
    method Meanwhile(runId: string, actions: seq<L.Action>)
      requires Valid()
      modifies Touched(runId)
      ensures Valid()
      ensures runId in runs ==> runs[runId].Book() == L.Execute(old(runs[runId].Book()), actions)
    {
      if runId in runs { runs[runId].TakeAll(actions); }
    }
  }
}
