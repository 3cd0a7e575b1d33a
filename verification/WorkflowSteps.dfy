/** Every atomic step keeps the ledger consistent and preserves what Extends says it preserves. */
module WorkflowSteps {
  import opened Basics
  import opened Tallies
  import opened WorkflowLedger

  lemma ReservationSurvives(l: Ledger, m: Ledger, r: Reservation)
    requires Extends(l, m) && SoundReservation(l, r)
    ensures SoundReservation(m, r)
  {
    PathSurvives(l, m, r.scopeIds);
    assert SameScopeIdentity(l.scopes[r.scopeIds[0]], m.scopes[r.scopeIds[0]]);
  }

  lemma ExtendsTransitive(l: Ledger, m: Ledger, n: Ledger)
    requires Extends(l, m) && Extends(m, n)
    ensures Extends(l, n)
  {
    forall id | id in l.scopes
      ensures id in n.scopes && SameScopeIdentity(l.scopes[id], n.scopes[id])
      ensures l.scopes[id].phase != Active ==> n.scopes[id].phase == l.scopes[id].phase
    {
      assert SameScopeIdentity(l.scopes[id], m.scopes[id]) && SameScopeIdentity(m.scopes[id], n.scopes[id]);
    }
    forall id | id in l.reservations
      ensures id in n.reservations && SameCall(l.reservations[id], n.reservations[id])
      ensures l.reservations[id].status == Started ==> n.reservations[id].status != Reserved
    {
      assert SameCall(l.reservations[id], m.reservations[id]) && SameCall(m.reservations[id], n.reservations[id]);
    }
  }

  // ---------------------------------------------------------------- runs and scopes

  lemma CreateRunKeeps(l: Ledger, runId: Id, rootId: Id, maxUsd: real)
    requires Consistent(l) && maxUsd > 0.0 && CreateRun(l, runId, rootId, maxUsd).Ok?
    ensures var m := CreateRun(l, runId, rootId, maxUsd).value; Consistent(m) && Extends(l, m)
  {
    var m := CreateRun(l, runId, rootId, maxUsd).value;
    GainScope(l, m, rootId, [rootId]);
  }

  lemma InsertScopeKeeps(l: Ledger, runId: Id, chain: seq<Row>, scopeId: Id, budget: ChildBudget)
    requires Consistent(l) && chain != [] && InsertScope(l, runId, chain, scopeId, budget).Ok?
    requires IsPath(l.scopes, Ids(chain)) && l.scopes[chain[0].id].runId == runId
    requires ChildMaximum(budget, chain[|chain| - 1].seen.maxUsd) > 0.0
    ensures var m := InsertScope(l, runId, chain, scopeId, budget).value; Consistent(m) && Extends(l, m)
  {
    var m := InsertScope(l, runId, chain, scopeId, budget).value;
    var ids, path := Ids(chain), Ids(chain) + [scopeId];
    forall i | 0 < i < |path| ensures Linked(m.scopes, path, i) {
      assert i < |ids| ==> Linked(l.scopes, ids, i);
    }
    GainScope(l, m, scopeId, path);
  }

  ghost predicate GainsScope(l: Ledger, m: Ledger, id: Id) {
    && id !in l.scopes && m.scopes.Keys == l.scopes.Keys + {id} && m.reservations == l.reservations
    && (forall s | s in l.scopes :: m.scopes[s] == l.scopes[s])
    && m.scopes[id].spentUsd == 0.0 && m.scopes[id].reservedUsd == 0.0 && m.scopes[id].maxUsd > 0.0
    && (m.scopes[id].parent == None ==>
          m.scopes[id].runId !in l.runs && m.runs == l.runs[m.scopes[id].runId := Run(id, Active)])
    && (m.scopes[id].parent != None ==> m.runs == l.runs)
  }

  lemma TreeGains(l: Ledger, m: Ledger, id: Id, path: seq<Id>)
    requires Tree(l.runs, l.scopes) && Extends(l, m) && GainsScope(l, m, id) && PathTo(m.scopes, path, id)
    ensures Tree(m.runs, m.scopes)
  {
    hide Extends, Rooted, IsRoot, HasRoot, GainsScope;
    GainedScope(l, m, id, path);
    forall s | s in m.scopes ensures Rooted(m.scopes, s) {
      if s != id {
        assert s in l.scopes && Rooted(l.scopes, s);
        RootedSurvives(l, m, s);
      }
    }
    forall s | s in m.scopes && m.scopes[s].parent == None ensures IsRoot(m.runs, m.scopes, s) {
      RootsSurvive(l, m, s, s);
      if s != id { assert IsRoot(l.runs, l.scopes, s); }
    }
    forall r | r in m.runs ensures HasRoot(m.runs, m.scopes, r) {
      RootsSurvive(l, m, r, r);
      if r in l.runs { assert HasRoot(l.runs, l.scopes, r); }
    }
  }

  /** The new scope is reachable, and a new root is the root of the one new run. */
  lemma GainedScope(l: Ledger, m: Ledger, id: Id, path: seq<Id>)
    requires GainsScope(l, m, id) && PathTo(m.scopes, path, id)
    ensures m.scopes.Keys == l.scopes.Keys + {id} && Rooted(m.scopes, id)
    ensures m.scopes[id].parent == None ==> IsRoot(m.runs, m.scopes, id)
    ensures forall r | r in m.runs && r !in l.runs :: HasRoot(m.runs, m.scopes, r)
  {
    hide IsPath;
  }

  /** Adding one unused scope, reached by a path of its own, disturbs nothing. */
  lemma GainScope(l: Ledger, m: Ledger, id: Id, path: seq<Id>)
    requires Consistent(l) && Extends(l, m) && GainsScope(l, m, id) && PathTo(m.scopes, path, id)
    ensures Consistent(m)
  {
    TreeGains(l, m, id, path);
    forall rid | rid in m.reservations ensures SoundReservation(m, m.reservations[rid]) {
      ReservationSurvives(l, m, l.reservations[rid]);
    }
    NewScopeHasNoCalls(l, id);
    forall s | s in m.scopes ensures m.scopes[s].maxUsd > 0.0 && Balanced(m, s) && Within(m, s) {
      if s != id { assert Balanced(l, s) && Within(l, s); }
    }
  }

  /** Changing only phases, forward, keeps every total. */
  lemma PhasesOnly(l: Ledger, m: Ledger)
    requires Consistent(l) && Extends(l, m)
    requires m.scopes.Keys == l.scopes.Keys && m.runs.Keys == l.runs.Keys && m.reservations == l.reservations
    requires forall s | s in l.scopes :: m.scopes[s] == l.scopes[s].(phase := m.scopes[s].phase)
    ensures Consistent(m)
  {
    TreeSurvives(l, m);
    forall rid | rid in m.reservations ensures SoundReservation(m, m.reservations[rid]) {
      ReservationSurvives(l, m, l.reservations[rid]);
    }
    forall s | s in m.scopes ensures m.scopes[s].maxUsd > 0.0 && Balanced(m, s) && Within(m, s) {
      assert Balanced(l, s) && Within(l, s);
    }
  }

  lemma CloseScopeKeeps(l: Ledger, runId: Id, scopeId: Id, phase: Phase)
    requires Consistent(l) && CloseScope(l, runId, scopeId, phase).Ok?
    ensures var m := CloseScope(l, runId, scopeId, phase).value; Consistent(m) && Extends(l, m)
  {
    PhasesOnly(l, CloseScope(l, runId, scopeId, phase).value);
  }

  lemma CloseScopesKeeps(l: Ledger, runId: Id, reached: set<Id>, phase: Phase)
    requires Consistent(l)
    ensures var m := CloseScopes(l, runId, reached, phase); Consistent(m) && Extends(l, m)
  {
    PhasesOnly(l, CloseScopes(l, runId, reached, phase));
  }

  lemma CloseRunKeeps(l: Ledger, runId: Id, phase: Phase)
    requires Consistent(l) && CloseRun(l, runId, phase).Ok?
    ensures var m := CloseRun(l, runId, phase).value; Consistent(m) && Extends(l, m)
  {
    PhasesOnly(l, CloseRun(l, runId, phase).value);
  }

  // ---------------------------------------------------------------- calls

  lemma OverrunsCannotHelp(m: map<Id, Reservation>, id: Id)
    ensures Tally(m, OverrunOn(id)) >= 0.0
  {
    TallyCovers(m, OverrunOn(id));
  }

  lemma ScopeAfterPut(l: Ledger, m: Ledger, rid: Id, r: Reservation, s: Id)
    requires s in l.scopes && s in m.scopes && m.reservations == l.reservations[rid := r]
    requires Balanced(l, s) && Within(l, s) && m.scopes[s].maxUsd == l.scopes[s].maxUsd
    requires m.scopes[s].reservedUsd - l.scopes[s].reservedUsd == HeldOn(s)(r) - ShareAt(l.reservations, rid, HeldOn(s))
    requires m.scopes[s].spentUsd - l.scopes[s].spentUsd == SpentOn(s)(r) - ShareAt(l.reservations, rid, SpentOn(s))
    requires || m.scopes[s].spentUsd + m.scopes[s].reservedUsd <= m.scopes[s].maxUsd
             || (m.scopes[s].spentUsd + m.scopes[s].reservedUsd - l.scopes[s].spentUsd - l.scopes[s].reservedUsd
                   <= OverrunOn(s)(r) - ShareAt(l.reservations, rid, OverrunOn(s)))
    ensures Balanced(m, s) && Within(m, s)
  {
    TotalsAfterPut(l.reservations, rid, r, s);
    OverrunsCannotHelp(m.reservations, s);
  }

  /** Storing reservation r under rid while each scope moves by exactly the change in r's own shares. */
  lemma PutReservationKeeps(l: Ledger, m: Ledger, rid: Id, r: Reservation)
    requires Consistent(l) && Extends(l, m)
    requires m.runs == l.runs && m.scopes.Keys == l.scopes.Keys && m.reservations == l.reservations[rid := r]
    requires SoundReservation(l, r)
    requires forall s | s in l.scopes ::
               && m.scopes[s].reservedUsd - l.scopes[s].reservedUsd
                 == HeldOn(s)(r) - ShareAt(l.reservations, rid, HeldOn(s))
               && m.scopes[s].spentUsd - l.scopes[s].spentUsd
                 == SpentOn(s)(r) - ShareAt(l.reservations, rid, SpentOn(s))
    requires forall s | s in l.scopes ::
               || m.scopes[s].spentUsd + m.scopes[s].reservedUsd <= m.scopes[s].maxUsd
               || (m.scopes[s].spentUsd + m.scopes[s].reservedUsd - l.scopes[s].spentUsd - l.scopes[s].reservedUsd
                     <= OverrunOn(s)(r) - ShareAt(l.reservations, rid, OverrunOn(s)))
    ensures Consistent(m)
  {
    TreeSurvives(l, m);
    forall id | id in m.reservations ensures SoundReservation(m, m.reservations[id]) {
      ReservationSurvives(l, m, m.reservations[id]);
    }
    forall s | s in m.scopes ensures m.scopes[s].maxUsd > 0.0 && Balanced(m, s) && Within(m, s) {
      assert Balanced(l, s) && Within(l, s) && SameScopeIdentity(l.scopes[s], m.scopes[s]);
      ScopeAfterPut(l, m, rid, r, s);
    }
  }

  lemma ReserveKeeps(l: Ledger, runId: Id, ids: seq<Id>, limit: real, rid: Id)
    requires Consistent(l) && limit > 0.0 && Reserve(l, runId, ids, limit, rid).Ok?
    requires IsPath(l.scopes, ids) && l.scopes[ids[0]].runId == runId
    ensures var m := Reserve(l, runId, ids, limit, rid).value; Consistent(m) && Extends(l, m)
  {
    hide Tally, HoldAll;
    var m := Reserve(l, runId, ids, limit, rid).value;
    PathIsDistinct(l.scopes, ids);
    HoldAllMeaning(l.scopes, ids, limit);
    forall s | s in l.scopes && s in ids
      ensures m.scopes[s].spentUsd + m.scopes[s].reservedUsd <= m.scopes[s].maxUsd
    {
      var i :| 0 <= i < |ids| && ids[i] == s;
      assert CanHold(l.scopes, ids[i], limit);
    }
    PutReservationKeeps(l, m, rid, m.reservations[rid]);
  }

  lemma StartKeeps(l: Ledger, rid: Id, copy: Reservation)
    requires Consistent(l) && Start(l, rid, copy).Ok?
    ensures var m := Start(l, rid, copy).value; Consistent(m) && Extends(l, m)
  {
    var m := Start(l, rid, copy).value;
    if m != l {
      assert SoundReservation(l, l.reservations[rid]);
      PutReservationKeeps(l, m, rid, m.reservations[rid]);
    }
  }

  lemma HeldIsCovered(l: Ledger, rid: Id, s: Id)
    requires Consistent(l) && rid in l.reservations && s in l.scopes
    requires Open(l.reservations[rid].status) && s in l.reservations[rid].scopeIds
    ensures l.scopes[s].reservedUsd >= l.reservations[rid].callLimitUsd
  {
    assert Balanced(l, s);
    forall id | id in l.reservations ensures HeldOn(s)(l.reservations[id]) >= 0.0 {
      assert SoundReservation(l, l.reservations[id]);
    }
    TallyCovers(l.reservations, HeldOn(s));
    assert HeldOn(s)(l.reservations[rid]) == l.reservations[rid].callLimitUsd;
  }

  /** The settlement guard holds on every scope of an open reservation: settling it cannot conflict. */
  lemma SettlementNeverConflicts(l: Ledger, rid: Id, copy: Reservation, outcome: Outcome, debit: real)
    requires Consistent(l) && rid in l.reservations && SameCall(copy, l.reservations[rid])
    requires l.reservations[rid].status == RequiredStatus(outcome)
    ensures SettleTransaction(l, rid, copy, outcome, debit).Ok?
  {
    var r := l.reservations[rid];
    assert SoundReservation(l, r);
    PathIsDistinct(l.scopes, r.scopeIds);
    ReleaseAllMeaning(l.scopes, copy.runId, copy.scopeIds, copy.callLimitUsd, debit);
    forall i | 0 <= i < |copy.scopeIds| ensures CanRelease(l.scopes, copy.runId, copy.scopeIds[i], copy.callLimitUsd) {
      HeldIsCovered(l, rid, copy.scopeIds[i]);
    }
  }

  lemma SettleExtends(l: Ledger, rid: Id, copy: Reservation, outcome: Outcome, debit: real)
    requires rid in l.reservations && SameCall(copy, l.reservations[rid]) && Distinct(copy.scopeIds)
    requires SettleTransaction(l, rid, copy, outcome, debit).Ok?
    ensures Extends(l, SettleTransaction(l, rid, copy, outcome, debit).value)
  {
    ReleaseAllMeaning(l.scopes, copy.runId, copy.scopeIds, copy.callLimitUsd, debit);
  }

  lemma SettleMoves(l: Ledger, rid: Id, copy: Reservation, outcome: Outcome, debit: real, s: Id)
    requires rid in l.reservations && SameCall(copy, l.reservations[rid]) && Distinct(copy.scopeIds)
    requires s in l.scopes && debit <= copy.callLimitUsd + SLACK
    requires SettleTransaction(l, rid, copy, outcome, debit).Ok?
    ensures var m := SettleTransaction(l, rid, copy, outcome, debit).value;
            var r := m.reservations[rid];
            && m.runs == l.runs && m.scopes.Keys == l.scopes.Keys && m.reservations == l.reservations[rid := r]
            && m.scopes[s].reservedUsd - l.scopes[s].reservedUsd
              == HeldOn(s)(r) - ShareAt(l.reservations, rid, HeldOn(s))
            && m.scopes[s].spentUsd - l.scopes[s].spentUsd == SpentOn(s)(r) - ShareAt(l.reservations, rid, SpentOn(s))
            && (m.scopes[s].spentUsd + m.scopes[s].reservedUsd - l.scopes[s].spentUsd - l.scopes[s].reservedUsd
                  <= OverrunOn(s)(r) - ShareAt(l.reservations, rid, OverrunOn(s)))
  {
    ReleaseAllMeaning(l.scopes, copy.runId, copy.scopeIds, copy.callLimitUsd, debit);
  }

  lemma SettleKeeps(l: Ledger, rid: Id, copy: Reservation, outcome: Outcome, debit: real)
    requires Consistent(l) && rid in l.reservations && SameCall(copy, l.reservations[rid])
    requires 0.0 <= debit <= copy.callLimitUsd + SLACK && (outcome == Cancel ==> debit == 0.0)
    requires SettleTransaction(l, rid, copy, outcome, debit).Ok?
    ensures var m := SettleTransaction(l, rid, copy, outcome, debit).value; Consistent(m) && Extends(l, m)
  {
    var m := SettleTransaction(l, rid, copy, outcome, debit).value;
    assert SoundReservation(l, l.reservations[rid]);
    PathIsDistinct(l.scopes, copy.scopeIds);
    SettleExtends(l, rid, copy, outcome, debit);
    var r := m.reservations[rid];
    assert SoundReservation(l, r);
    ReleaseAllMeaning(l.scopes, copy.runId, copy.scopeIds, copy.callLimitUsd, debit);
    assert m.scopes.Keys == l.scopes.Keys;
    forall s | s in l.scopes
      ensures m.scopes[s].reservedUsd - l.scopes[s].reservedUsd
              == HeldOn(s)(r) - ShareAt(l.reservations, rid, HeldOn(s))
      ensures m.scopes[s].spentUsd - l.scopes[s].spentUsd == SpentOn(s)(r) - ShareAt(l.reservations, rid, SpentOn(s))
      ensures m.scopes[s].spentUsd + m.scopes[s].reservedUsd - l.scopes[s].spentUsd - l.scopes[s].reservedUsd
                <= OverrunOn(s)(r) - ShareAt(l.reservations, rid, OverrunOn(s))
    {
      SettleMoves(l, rid, copy, outcome, debit, s);
    }
    PutReservationKeeps(l, m, rid, r);
  }

  lemma FinalizeKeeps(l: Ledger, rid: Id, copy: Reservation, outcome: Outcome, spend: real)
    requires Consistent(l) && rid in l.reservations && SameCall(copy, l.reservations[rid])
    requires Finalize(l, rid, copy, outcome, spend).Ok?
    ensures var m := Finalize(l, rid, copy, outcome, spend).value; Consistent(m) && Extends(l, m)
  {
    if Open(copy.status) {
      SettleKeeps(l, rid, copy, outcome, if outcome == Cancel then 0.0 else spend);
    }
  }
}
