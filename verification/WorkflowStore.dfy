/** The stored collections and the service operations that update them in place.  An operation has exactly
    the effect of the ledger steps it is made of; those that finish a scope or a run also say so when other
    callers act between their steps. */
module WorkflowStore {
  import opened Basics
  import opened WorkflowLedger
  import opened WorkflowSteps
  import opened WorkflowSystem
  import opened WorkflowTheorems

  /** Where a walk ends once it has read a scope without a parent. */
  ghost function AtTop(runId: Id, leafId: Id, rootId: Id, rows: seq<Row>): Walk
    requires rows != []
  {
    if rows[0].id != rootId then Halted(ScopeNotInRun) else Arrived(runId, leafId, rows)
  }

  lemma ChainReadIsSound(l: Ledger, runId: Id, scopeId: Id)
    requires Consistent(l)
    ensures var end := ReadChain(l, runId, scopeId);
            && SoundWalk(l, end) && end != Halted(ScopeCycle) && end != Halted(ScopeNotInRun)
            && (end.Arrived? ==> RowsAreFresh(l, end.chain))
  {
    WalkAllKeeps(l, StartWalk(l, runId, scopeId));
    if scopeId in l.scopes {
      assert Rooted(l.scopes, scopeId);
      var path :| PathTo(l.scopes, path, scopeId);
      ReadChainFindsThePath(l, runId, scopeId, path);
    } else {
      ReadChainFindsThePath(l, runId, scopeId, []);
    }
  }

  lemma RowOnTop(row: Row, below: seq<Row>)
    ensures forall id :: id in Ids([row] + below) <==> id == row.id || id in Ids(below)
  {
    assert Ids([row] + below) == [row.id] + Ids(below);
  }

  /** A chain that was read down to a scope is its path, and that scope has money. */
  lemma ChainLeadsToParent(l: Ledger, runId: Id, scopeId: Id, rows: seq<Row>)
    requires Consistent(l) && ReadChain(l, runId, scopeId) == Arrived(runId, scopeId, rows)
    ensures rows != [] && IsPath(l.scopes, Ids(rows)) && l.scopes[rows[0].id].runId == runId
    ensures rows[|rows| - 1].seen.maxUsd > 0.0
  {
    hide WalkAll;
    ChainReadIsSound(l, runId, scopeId);
    var parent := rows[|rows| - 1];
    assert parent.id == Ids(rows)[|rows| - 1];
    assert Balanced(l, parent.id);
  }

  /** Every scope that the run had is closed. */
  ghost predicate ScopesClosed(l: Ledger, m: Ledger, runId: Id) {
    forall id | id in l.scopes && l.scopes[id].runId == runId :: id in m.scopes && m.scopes[id].phase != Active
  }

  lemma ClosedScopesStayClosed(l: Ledger, last: Ledger, m: Ledger, runId: Id, phase: Phase)
    requires phase != Active && Extends(CloseScopes(l, runId, l.scopes.Keys, phase), last) && m.scopes == last.scopes
    ensures ScopesClosed(l, m, runId)
  {
    var closed := CloseScopes(l, runId, l.scopes.Keys, phase);
    assert forall id | id in l.scopes && l.scopes[id].runId == runId ::
        id in closed.scopes && closed.scopes[id].phase != Active;
  }

  class Store {
    var runs: map<Id, Run>
    var scopes: map<Id, Scope>
    var reservations: map<Id, Reservation>

    ghost function View(): Ledger
      reads this
    {
      Ledger(runs, scopes, reservations)
    }

    ghost predicate Valid()
      reads this
    {
      Consistent(View())
    }

    constructor ()
      ensures Valid() && View() == EMPTY
    {
      runs, scopes, reservations := map[], map[], map[];
    }

    method CreateRun(runId: Id, rootId: Id, maxUsd: real) returns (done: Result<Id, Fault>)
      requires Valid() && maxUsd > 0.0
      modifies this
      ensures Valid()
      ensures match WorkflowLedger.CreateRun(old(View()), runId, rootId, maxUsd)
              case Ok(after) => done == Ok(rootId) && View() == after
              case Err(fault) => done == Err(fault) && View() == old(View())
    {
      if runId in runs || rootId in scopes {
        return Err(DuplicateId);
      }
      ghost var before := View();
      runs := runs[runId := Run(rootId, Active)];
      scopes := scopes[rootId := Scope(runId, None, maxUsd, 0.0, 0.0, Active)];
      CreateRunKeeps(before, runId, rootId, maxUsd);
      done := Ok(rootId);
    }

    /** Follows parent links from a scope up to the root of its run, whatever the collections hold. */
    method ReadScopeChain(runId: Id, scopeId: Id) returns (chain: Result<seq<Row>, Fault>)
      ensures match chain
              case Ok(rows) => ReadChain(View(), runId, scopeId) == Arrived(runId, scopeId, rows)
              case Err(fault) => ReadChain(View(), runId, scopeId) == Halted(fault)
    {
      if runId !in runs {
        return Err(RunMissing);
      }
      if runs[runId].phase != Active {
        return Err(RunNotActive);
      }
      hide WalkAll, UnreadScopes;
      var byId: map<Id, Scope> := map[];
      var current := Some(scopeId);
      var below: seq<Row> := [];
      ghost var l := View();
      ghost var w := StartWalk(l, runId, scopeId);
      while current.Some?
        invariant WalkAll(l, w) == ReadChain(l, runId, scopeId)
        invariant forall id :: id in byId <==> id in Ids(below)
        invariant current.Some? ==> w == Walking(runId, scopeId, runs[runId].rootScopeId, current.value, below)
        invariant current.None? ==> below != [] && w == AtTop(runId, scopeId, runs[runId].rootScopeId, below)
        decreases UnreadScopes(l, w)
      {
        var at := current.value;
        WalkAdvances(l, w);
        WalkAllUnfolds(l, w);
        WalkAllUnfolds(l, WalkStep(l, w));
        w := WalkStep(l, w);
        if at in byId {
          return Err(ScopeCycle);
        }
        if at !in scopes || scopes[at].runId != runId {
          return Err(ScopeMissing);
        }
        if scopes[at].phase != Active {
          return Err(ScopeNotActive);
        }
        byId := byId[at := scopes[at]];
        RowOnTop(Row(at, scopes[at]), below);
        below := [Row(at, scopes[at])] + below;
        current := scopes[at].parent;
      }
      WalkAllUnfolds(l, w);
      if below[0].id != runs[runId].rootScopeId {
        return Err(ScopeNotInRun);
      }
      return Ok(below);
    }

    method CreateScope(runId: Id, parentId: Id, scopeId: Id, budget: ChildBudget) returns (done: Result<real, Fault>)
      requires Valid() && Admissible(AddScope(0, scopeId, budget))
      modifies this
      ensures Valid()
      ensures match ReadChain(old(View()), runId, parentId)
              case Arrived(_, _, chain) => chain != [] && (
                match InsertScope(old(View()), runId, chain, scopeId, budget)
                case Ok(after) => View() == after && done == Ok(after.scopes[scopeId].maxUsd)
                case Err(fault) => done == Err(fault) && View() == old(View()))
              case Halted(fault) => done == Err(fault) && View() == old(View())
              case Walking(_, _, _, _, _) => false
    {
      hide Consistent, IsPath, ReadChain, Extends;
      var chain := ReadScopeChain(runId, parentId);
      if chain.Err? {
        return Err(chain.error);
      }
      ChainLeadsToParent(View(), runId, parentId, chain.value);
      var parent := chain.value[|chain.value| - 1];
      var maximum := match budget case Dollars(usd) => usd case Fraction(f) => parent.seen.maxUsd * f;
      assert maximum == ChildMaximum(budget, parent.seen.maxUsd);
      hide ChildMaximum;
      if maximum > parent.seen.maxUsd + SLACK {
        return Err(ChildExceedsParent);
      }
      if scopeId in scopes {
        return Err(DuplicateId);
      }
      ghost var before := View();
      PositiveChild(budget, parent.seen.maxUsd);
      scopes := scopes[scopeId := Scope(runId, Some(parent.id), maximum, 0.0, 0.0, Active)];
      InsertScopeKeeps(before, runId, chain.value, scopeId, budget);
      assert InsertScope(before, runId, chain.value, scopeId, budget) == Ok(View());
      done := Ok(maximum);
    }

    /** One transaction: raise the reserved amount scope by scope, then store the reservation. */
    method ReserveCall(runId: Id, chain: seq<Row>, callLimitUsd: real, reservationId: Id) returns (done: Result<Id,
                                                                                                   Fault>)
      requires Valid() && callLimitUsd > 0.0
      requires IsPath(scopes, Ids(chain)) && scopes[chain[0].id].runId == runId
      modifies this
      ensures Valid()
      ensures match Reserve(old(View()), runId, Ids(chain), callLimitUsd, reservationId)
              case Ok(after) => done == Ok(reservationId) && View() == after
              case Err(fault) => done == Err(fault) && View() == old(View())
    {
      var begun := scopes;
      ghost var before := View();
      var ids := Ids(chain);
      for i := 0 to |ids|
        invariant runs == before.runs && reservations == before.reservations
        invariant HoldAll(begun, ids, callLimitUsd) == HoldAll(scopes, ids[i..], callLimitUsd)
      {
        assert ids[i..][1..] == ids[i + 1..];
        if !CanHold(scopes, ids[i], callLimitUsd) {
          scopes := begun;
          return Err(BudgetExhausted);
        }
        scopes := scopes[ids[i] := Hold(scopes[ids[i]], callLimitUsd)];
      }
      if reservationId in reservations {
        scopes := begun;
        return Err(DuplicateId);
      }
      reservations := reservations[reservationId := Reservation(runId, ids, callLimitUsd, Reserved, 0.0)];
      ReserveKeeps(before, runId, ids, callLimitUsd, reservationId);
      done := Ok(reservationId);
    }

    method StartReservation(claim: Claim) returns (done: Result<Id, Fault>)
      requires Valid()
      modifies this
      ensures Valid()
      ensures match ReadReservation(old(View()), claim)
              case Err(fault) => done == Err(fault) && View() == old(View())
              case Ok(copy) =>
                match Start(old(View()), claim.reservationId, copy)
                case Ok(after) => done == Ok(claim.reservationId) && View() == after
                case Err(fault) => done == Err(fault) && View() == old(View())
    {
      var id := claim.reservationId;
      var read := FindReservation(claim);
      if read.Err? {
        return Err(read.error);
      }
      if read.value.status == Started {
        return Ok(id);
      }
      if reservations[id].status != Reserved {
        return Err(InvalidState);
      }
      ghost var before := View();
      reservations := reservations[id := reservations[id].(status := Started)];
      StartKeeps(before, id, read.value);
      done := Ok(id);
    }

    /** A claim finds exactly the stored record that it is the claim on. */
    method FindReservation(claim: Claim) returns (found: Result<Reservation, Fault>)
      ensures found.Ok? <==>
                var id := claim.reservationId;
                id in reservations && reservations[id].scopeIds != [] && claim == ClaimOn(id, reservations[id])
      ensures found.Ok? ==> found.value == reservations[claim.reservationId]
      ensures found.Err? ==> found.error == ClaimMismatch
    {
      if claim.reservationId !in reservations {
        return Err(ClaimMismatch);
      }
      var r := reservations[claim.reservationId];
      if r.runId != claim.runId || r.callLimitUsd != claim.callLimitUsd ||
         r.scopeIds == [] || r.scopeIds[|r.scopeIds| - 1] != claim.scopeId {
        return Err(ClaimMismatch);
      }
      return Ok(r);
    }

    /** Settles, fails or cancels a call: one transaction over its whole chain. */
    method FinalizeReservation(claim: Claim, spendUsd: real, outcome: Outcome) returns (done: Result<Reservation,
                                                                                        Fault>)
      requires Valid()
      modifies this
      ensures Valid()
      ensures match ReadReservation(old(View()), claim)
              case Err(fault) => done == Err(fault) && View() == old(View())
              case Ok(copy) =>
                match Finalize(old(View()), claim.reservationId, copy, outcome, spendUsd)
                case Ok(after) => View() == after && done == Ok(after.reservations[claim.reservationId])
                case Err(fault) => done == Err(fault) && View() == old(View())
    {
      var id := claim.reservationId;
      var read := FindReservation(claim);
      if read.Err? {
        return Err(read.error);
      }
      var r := read.value;
      if !Open(r.status) {
        if r.status == Final(outcome) && Close(r.spendUsd, spendUsd) {
          return Ok(r);
        }
        return Err(AlreadyFinalized);
      }
      if r.status != RequiredStatus(outcome) {
        return Err(InvalidState);
      }
      var debit := if outcome == Cancel then 0.0 else spendUsd;
      if debit < 0.0 || debit > r.callLimitUsd + SLACK {
        return Err(CapViolation);
      }
      var begun := scopes;
      ghost var before := View();
      for i := 0 to |r.scopeIds|
        invariant runs == before.runs && reservations == before.reservations
        invariant ReleaseAll(begun, r.runId, r.scopeIds, r.callLimitUsd, debit)
                    == ReleaseAll(scopes, r.runId, r.scopeIds[i..], r.callLimitUsd, debit)
      {
        assert r.scopeIds[i..][1..] == r.scopeIds[i + 1..];
        var s := r.scopeIds[i];
        if s !in scopes || scopes[s].runId != r.runId || scopes[s].reservedUsd < r.callLimitUsd {
          scopes := begun;
          return Err(SettlementConflict);
        }
        scopes := scopes[s := Release(scopes[s], r.callLimitUsd, debit)];
      }
      reservations := reservations[id := reservations[id].(status := Final(outcome), spendUsd := debit)];
      SettleKeeps(before, id, r, outcome, debit);
      done := Ok(reservations[id]);
    }

    /** What other callers do to the collections between two steps of an operation. */
    method Meanwhile(later: Ledger)
      requires Valid() && Consistent(later) && Extends(View(), later)
      modifies this
      ensures Valid() && View() == later
    {
      runs, scopes, reservations := later.runs, later.scopes, later.reservations;
    }

    /** Finishes a scope: a check, and a later update that finds what other callers left in between.  A call
        open below the finished scope was not there at the check. */
    method FinishScope(runId: Id, scopeId: Id, phase: Phase, later: Ledger) returns (done: Result<Id, Fault>)
      requires Valid() && phase != Active && Consistent(later) && Extends(View(), later)
      modifies this
      ensures Valid()
      ensures if UnfinishedBelow(old(View()), runId, scopeId) then done == Err(Unsettled) && View() == old(View())
              else match CloseScope(later, runId, scopeId, phase)
                   case Ok(after) => done == Ok(scopeId) && View() == after
                   case Err(fault) => done == Err(fault) && View() == later
      ensures done.Ok? ==> forall rid | OpenBelow(View(), scopeId, rid) && reservations[rid].runId == runId ::
                rid !in old(reservations)
    {
      if exists id | id in reservations ::
           reservations[id].runId == runId && scopeId in reservations[id].scopeIds && Open(reservations[id].status) {
        return Err(Unsettled);
      }
      Meanwhile(later);
      if scopeId !in scopes || scopes[scopeId].runId != runId || scopes[scopeId].phase != Active {
        return Err(ScopeNotActive);
      }
      scopes := scopes[scopeId := scopes[scopeId].(phase := phase)];
      CloseScopeKeeps(later, runId, scopeId, phase);
      done := Ok(scopeId);
    }

    /** The bulk update of finishing a run, when it reaches every scope. */
    method CloseScopesOfRun(runId: Id, phase: Phase)
      requires Valid() && phase != Active
      modifies this`scopes
      ensures Valid() && View() == CloseScopes(old(View()), runId, old(scopes).Keys, phase)
    {
      hide Consistent, Extends;
      ghost var before := View();
      scopes := map id | id in scopes ::
        if scopes[id].runId == runId && scopes[id].phase == Active then scopes[id].(phase := phase) else scopes[id];
      assert scopes == CloseScopes(before, runId, before.scopes.Keys, phase).scopes;
      CloseScopesKeeps(before, runId, before.scopes.Keys, phase);
    }

    method CloseRunItself(runId: Id, phase: Phase) returns (done: Result<Id, Fault>)
      requires Valid() && phase != Active
      modifies this`runs
      ensures Valid()
      ensures match CloseRun(old(View()), runId, phase)
              case Ok(after) => done == Ok(runId) && View() == after
              case Err(fault) => done == Err(fault) && View() == old(View())
    {
      hide Consistent;
      if runId !in runs || runs[runId].phase != Active {
        return Err(RunNotActive);
      }
      ghost var before := View();
      runs := runs[runId := runs[runId].(phase := phase)];
      CloseRunKeeps(before, runId, phase);
      done := Ok(runId);
    }

    /** Closes every active scope of the run, then the run itself, after a check, while other callers act
        between these steps; the scopes stay closed even when the run turns out to have been closed already. */
    method FinishRun(runId: Id, phase: Phase, later: Ledger, last: Ledger) returns (done: Result<Id, Fault>)
      requires Valid() && phase != Active && Consistent(later) && Extends(View(), later) && Consistent(last)
      requires Extends(CloseScopes(later, runId, later.scopes.Keys, phase), last)
      modifies this
      ensures Valid()
      ensures if Unfinished(old(View()), runId) then done == Err(Unsettled) && View() == old(View())
              else match CloseRun(last, runId, phase)
                   case Ok(after) => done == Ok(runId) && View() == after
                   case Err(fault) => done == Err(fault) && View() == last
      ensures !Unfinished(old(View()), runId) ==> ScopesClosed(later, View(), runId)
    {
      hide Extends, Consistent, ScopesClosed, CloseScopes;
      if exists id | id in reservations :: reservations[id].runId == runId && Open(reservations[id].status) {
        return Err(Unsettled);
      }
      Meanwhile(later);
      CloseScopesOfRun(runId, phase);
      Meanwhile(last);
      done := CloseRunItself(runId, phase);
      ClosedScopesStayClosed(later, last, View(), runId, phase);
    }
  }
}
