/** Callers racing over the ledger.  Every document read outside a transaction is a step of its own,
    so a caller may act on rows, reservations or checks that other callers have since made stale. */
module WorkflowSystem {
  import opened Basics
  import opened WorkflowLedger
  import opened WorkflowSteps

  /** What one caller remembers between its steps. */
  datatype Caller =
    | Idle
    | Reading(walk: Walk)
    | Holding(reservationId: Id, copy: Reservation)
    | ScopeChecked(runId: Id, scopeId: Id)
    | RunChecked(runId: Id)

  datatype System = System(ledger: Ledger, callers: map<int, Caller>)

  datatype Action =
    | OpenRun(runId: Id, rootId: Id, maxUsd: real)
    | BeginChain(caller: int, ofRun: Id, scopeId: Id)
    | ReadRow(caller: int)
    | AddScope(caller: int, scopeId: Id, budget: ChildBudget)
    | ReserveCall(caller: int, callLimitUsd: real, reservationId: Id)
    | LoadReservation(caller: int, claim: Claim)
    | StartCall(caller: int)
    | FinalizeCall(caller: int, outcome: Outcome, spendUsd: real)
    | CheckScope(caller: int, ofRun: Id, scopeId: Id)
    | FinishScope(caller: int, phase: Phase)
    | CheckRun(caller: int, ofRun: Id)
    | FinishScopesOfRun(caller: int, reached: set<Id>, phase: Phase)
    | FinishRun(caller: int, phase: Phase)

  /** What request validation and the authorization of a call guarantee about the arguments. */
  predicate Admissible(a: Action) {
    match a
    case OpenRun(_, _, maxUsd) => maxUsd > 0.0
    case AddScope(_, _, Dollars(usd)) => usd > 0.0
    case AddScope(_, _, Fraction(f)) => 0.0 < f <= 1.0
    case ReserveCall(_, limit, _) => limit > 0.0
    case FinishScope(_, phase) => phase != Active
    case FinishScopesOfRun(_, _, phase) => phase != Active
    case FinishRun(_, phase) => phase != Active
    case _ => true
  }

  function CallerOf(s: System, c: int): Caller {
    if c in s.callers then s.callers[c] else Idle
  }

  function Remember(s: System, c: int, caller: Caller): System {
    s.(callers := s.callers[c := caller])
  }

  function Store(s: System, r: Result<Ledger, Fault>): System {
    match r case Ok(ledger) => s.(ledger := ledger) case Err(_) => s
  }

  /** One step; an action that its caller is not in a position to take does nothing. */
  function Apply(s: System, a: Action): System {
    var l := s.ledger;
    if !Admissible(a) then s else
    match a
    case OpenRun(runId, rootId, maxUsd) => Store(s, CreateRun(l, runId, rootId, maxUsd))
    case BeginChain(c, runId, scopeId) => Remember(s, c, Reading(StartWalk(l, runId, scopeId)))
    case ReadRow(c) =>
      (match CallerOf(s, c) case Reading(w) => Remember(s, c, Reading(WalkStep(l, w))) case _ => s)
    case AddScope(c, scopeId, budget) =>
      (match CallerOf(s, c)
       case Reading(Arrived(runId, _, chain)) =>
         if chain == [] then s else Store(s, InsertScope(l, runId, chain, scopeId, budget))
       case _ => s)
    case ReserveCall(c, limit, reservationId) =>
      (match CallerOf(s, c)
       case Reading(Arrived(runId, _, chain)) => Store(s, Reserve(l, runId, Ids(chain), limit, reservationId))
       case _ => s)
    case LoadReservation(c, claim) =>
      (match ReadReservation(l, claim)
       case Ok(copy) => Remember(s, c, Holding(claim.reservationId, copy))
       case Err(_) => s)
    case StartCall(c) =>
      (match CallerOf(s, c) case Holding(id, copy) => Store(s, Start(l, id, copy)) case _ => s)
    case FinalizeCall(c, outcome, spend) =>
      (match CallerOf(s, c) case Holding(id, copy) => Store(s, Finalize(l, id, copy, outcome, spend)) case _ => s)
    case CheckScope(c, runId, scopeId) =>
      if UnfinishedBelow(l, runId, scopeId) then s else Remember(s, c, ScopeChecked(runId, scopeId))
    case FinishScope(c, phase) =>
      (match CallerOf(s, c)
       case ScopeChecked(runId, scopeId) => Store(s, CloseScope(l, runId, scopeId, phase))
       case _ => s)
    case CheckRun(c, runId) =>
      if Unfinished(l, runId) then s else Remember(s, c, RunChecked(runId))
    case FinishScopesOfRun(c, reached, phase) =>
      (match CallerOf(s, c)
       case RunChecked(runId) => s.(ledger := CloseScopes(l, runId, reached, phase))
       case _ => s)
    case FinishRun(c, phase) =>
      (match CallerOf(s, c) case RunChecked(runId) => Store(s, CloseRun(l, runId, phase)) case _ => s)
  }

  const START: System := System(EMPTY, map[])

  function Execute(s: System, actions: seq<Action>): System
    decreases |actions|
  {
    if actions == [] then s else Execute(Apply(s, actions[0]), actions[1..])
  }

  // ---------------------------------------------------------------- what callers may rely on

  ghost predicate RowIsCurrent(l: Ledger, row: Row) {
    row.id in l.scopes && SameScopeIdentity(row.seen, l.scopes[row.id])
  }

  /** Scopes of one run, each hanging below the one before. */
  ghost predicate Strand(scopes: map<Id, Scope>, runId: Id, ids: seq<Id>) {
    && (forall i | 0 <= i < |ids| :: ids[i] in scopes && scopes[ids[i]].runId == runId)
    && (forall i {:trigger Linked(scopes, ids, i)} | 0 < i < |ids| :: Linked(scopes, ids, i))
  }

  ghost predicate SoundWalk(l: Ledger, w: Walk) {
    match w
    case Walking(runId, leafId, rootId, at, below) =>
      && runId in l.runs && l.runs[runId].rootScopeId == rootId
      && Strand(l.scopes, runId, Ids(below))
      && (forall i | 0 <= i < |below| :: RowIsCurrent(l, below[i]))
      && (if below == [] then at == leafId
          else below[|below| - 1].id == leafId && l.scopes[below[0].id].parent == Some(at))
    case Arrived(runId, leafId, chain) =>
      && PathTo(l.scopes, Ids(chain), leafId)
      && l.scopes[chain[0].id].runId == runId
      && (forall i | 0 <= i < |chain| :: RowIsCurrent(l, chain[i]))
    case Halted(fault) => fault != ScopeCycle && fault != ScopeNotInRun
  }

  ghost predicate SoundCaller(l: Ledger, caller: Caller) {
    match caller
    case Reading(w) => SoundWalk(l, w)
    case Holding(id, copy) =>
      && id in l.reservations && SameCall(copy, l.reservations[id])
      && (!Open(copy.status) ==> l.reservations[id] == copy)
      && (copy.status == Started ==> l.reservations[id].status != Reserved)
    case _ => true
  }

  ghost predicate Sound(s: System) {
    && Consistent(s.ledger)
    && (forall c {:trigger SoundCaller(s.ledger, s.callers[c])} | c in s.callers :: SoundCaller(s.ledger, s.callers[c]))
  }

  lemma SoundCallerSurvives(l: Ledger, m: Ledger, caller: Caller)
    requires Extends(l, m) && SoundCaller(l, caller)
    ensures SoundCaller(m, caller)
  {
    match caller
    case Reading(Walking(runId, leafId, rootId, at, below)) =>
      var ids := Ids(below);
      assert forall i | 0 <= i < |below| ::
          ids[i] in m.scopes && SameScopeIdentity(l.scopes[ids[i]], m.scopes[ids[i]]);
      forall i | 0 <= i < |below| ensures RowIsCurrent(m, below[i]) {
        assert RowIsCurrent(l, below[i]);
      }
      forall i | 0 < i < |ids| ensures Linked(m.scopes, ids, i) {
        assert Linked(l.scopes, ids, i);
      }
    case Reading(Arrived(runId, leafId, chain)) =>
      PathSurvives(l, m, Ids(chain));
      forall i | 0 <= i < |chain| ensures RowIsCurrent(m, chain[i]) {
        assert RowIsCurrent(l, chain[i]);
      }
    case _ =>
  }

  // ---------------------------------------------------------------- reading a chain

  /** A strand below a rooted scope completes that scope's path. */
  lemma StrandCompletesPath(l: Ledger, runId: Id, ids: seq<Id>) returns (path: seq<Id>)
    requires Tree(l.runs, l.scopes) && Strand(l.scopes, runId, ids) && ids != []
    ensures IsPath(l.scopes, path) && |path| >= |ids| && path[|path| - |ids|..] == ids
  {
    assert Rooted(l.scopes, ids[0]);
    var head :| PathTo(l.scopes, head, ids[0]);
    path := head + ids[1..];
    forall i | 0 < i < |path| ensures Linked(l.scopes, path, i) {
      if i < |head| {
        assert Linked(l.scopes, head, i);
      } else {
        assert Linked(l.scopes, ids, i - |head| + 1);
      }
    }
  }

  /** A walk up from a scope never comes back to a scope it has read. */
  lemma WalkMeetsNoCycle(l: Ledger, w: Walk)
    requires Tree(l.runs, l.scopes) && SoundWalk(l, w) && w.Walking?
    ensures w.at !in Ids(w.below)
  {
    var below := Ids(w.below);
    if w.at in below {
      var path := StrandCompletesPath(l, w.runId, below);
      var k := |path| - |below|;
      LastParent(l.scopes, path[..k + 1]) by { PrefixIsPath(l.scopes, path, k + 1); }
      assert path[k] == below[0] && path[k - 1] == w.at;
      var i :| 0 <= i < |below| && below[i] == w.at;
      assert path[k + i] == path[k - 1];
      PathIsDistinct(l.scopes, path);
      assert false;
    }
  }

  lemma WalkStepKeeps(l: Ledger, w: Walk)
    requires Consistent(l) && SoundWalk(l, w)
    ensures SoundWalk(l, WalkStep(l, w))
  {
    if w.Walking? {
      WalkMeetsNoCycle(l, w);
      if w.at in l.scopes && l.scopes[w.at].runId == w.runId && l.scopes[w.at].phase == Active {
        var chain, below := [Row(w.at, l.scopes[w.at])] + w.below, Ids(w.below);
        var ids := Ids(chain);
        assert ids == [w.at] + below;
        forall i | 0 < i < |ids| ensures Linked(l.scopes, ids, i) {
          assert i > 1 ==> Linked(l.scopes, below, i - 1);
        }
        if l.scopes[w.at].parent == None {
          assert IsRoot(l.runs, l.scopes, w.at);
        }
      }
    }
  }

  lemma {:induction false} WalkAllKeeps(l: Ledger, w: Walk)
    requires Consistent(l) && SoundWalk(l, w)
    ensures SoundWalk(l, WalkAll(l, w)) && !WalkAll(l, w).Walking?
    decreases UnreadScopes(l, w)
  {
    if w.Walking? {
      WalkAdvances(l, w);
      WalkStepKeeps(l, w);
      WalkAllKeeps(l, WalkStep(l, w));
    }
  }

  // ---------------------------------------------------------------- one step, any run

  lemma StoreKeeps(s: System, r: Result<Ledger, Fault>)
    requires Sound(s)
    requires r.Ok? ==> Consistent(r.value) && Extends(s.ledger, r.value)
    ensures Sound(Store(s, r)) && Extends(s.ledger, Store(s, r).ledger)
  {
    if r.Ok? {
      forall c | c in s.callers ensures SoundCaller(r.value, s.callers[c]) {
        SoundCallerSurvives(s.ledger, r.value, s.callers[c]);
      }
    }
  }

  lemma RememberKeeps(s: System, c: int, caller: Caller)
    requires Sound(s) && SoundCaller(s.ledger, caller)
    ensures Sound(Remember(s, c, caller)) && Remember(s, c, caller).ledger == s.ledger
  {
    var t := Remember(s, c, caller);
    forall d | d in t.callers ensures SoundCaller(t.ledger, t.callers[d]) {
      if d != c { assert SoundCaller(s.ledger, s.callers[d]); }
    }
  }

  lemma CallerIsSound(s: System, c: int)
    requires Sound(s)
    ensures SoundCaller(s.ledger, CallerOf(s, c))
  {
    if c in s.callers { assert SoundCaller(s.ledger, s.callers[c]); }
  }

  ghost predicate Preserves(s: System, t: System) {
    Sound(t) && Extends(s.ledger, t.ledger)
  }

  lemma AddScopeKeeps(s: System, c: int, scopeId: Id, budget: ChildBudget)
    requires Sound(s) && Admissible(AddScope(c, scopeId, budget))
    ensures Preserves(s, Apply(s, AddScope(c, scopeId, budget)))
  {
    CallerIsSound(s, c);
    match CallerOf(s, c)
    case Reading(Arrived(runId, leafId, chain)) =>
      var parent := chain[|chain| - 1];
      assert RowIsCurrent(s.ledger, parent);
      if InsertScope(s.ledger, runId, chain, scopeId, budget).Ok? {
        PositiveChild(budget, parent.seen.maxUsd) by {
          assert Balanced(s.ledger, parent.id);
        }
        InsertScopeKeeps(s.ledger, runId, chain, scopeId, budget);
      }
      StoreKeeps(s, InsertScope(s.ledger, runId, chain, scopeId, budget));
    case _ =>
  }

  lemma PositiveChild(budget: ChildBudget, parentMaxUsd: real)
    requires parentMaxUsd > 0.0
    requires match budget case Dollars(usd) => usd > 0.0 case Fraction(f) => 0.0 < f <= 1.0
    ensures ChildMaximum(budget, parentMaxUsd) > 0.0
  {}

  lemma CallStepKeeps(s: System, a: Action)
    requires Sound(s) && Admissible(a)
    requires a.ReserveCall? || a.LoadReservation? || a.StartCall? || a.FinalizeCall?
    ensures Preserves(s, Apply(s, a))
  {
    var l := s.ledger;
    match a
    case ReserveCall(c, limit, rid) =>
      CallerIsSound(s, c);
      match CallerOf(s, c) {
        case Reading(Arrived(runId, _, chain)) =>
          var r := Reserve(l, runId, Ids(chain), limit, rid);
          if r.Ok? { ReserveKeeps(l, runId, Ids(chain), limit, rid); }
          StoreKeeps(s, r);
        case _ =>
      }
    case LoadReservation(c, claim) =>
      if ReadReservation(l, claim).Ok? {
        RememberKeeps(s, c, Holding(claim.reservationId, ReadReservation(l, claim).value));
      }
    case StartCall(c) =>
      CallerIsSound(s, c);
      match CallerOf(s, c) {
        case Holding(id, copy) =>
          if Start(l, id, copy).Ok? { StartKeeps(l, id, copy); }
          StoreKeeps(s, Start(l, id, copy));
        case _ =>
      }
    case FinalizeCall(c, outcome, spend) =>
      CallerIsSound(s, c);
      match CallerOf(s, c) {
        case Holding(id, copy) =>
          if Finalize(l, id, copy, outcome, spend).Ok? { FinalizeKeeps(l, id, copy, outcome, spend); }
          StoreKeeps(s, Finalize(l, id, copy, outcome, spend));
        case _ =>
      }
  }

  lemma ClosingStepKeeps(s: System, a: Action)
    requires Sound(s) && Admissible(a)
    requires a.CheckScope? || a.FinishScope? || a.CheckRun? || a.FinishScopesOfRun? || a.FinishRun?
    ensures Preserves(s, Apply(s, a))
  {
    var l := s.ledger;
    match a
    case CheckScope(c, runId, scopeId) => RememberKeeps(s, c, ScopeChecked(runId, scopeId));
    case CheckRun(c, runId) => RememberKeeps(s, c, RunChecked(runId));
    case FinishScope(c, phase) =>
      match CallerOf(s, c) {
        case ScopeChecked(runId, scopeId) =>
          if CloseScope(l, runId, scopeId, phase).Ok? { CloseScopeKeeps(l, runId, scopeId, phase); }
          StoreKeeps(s, CloseScope(l, runId, scopeId, phase));
        case _ =>
      }
    case FinishScopesOfRun(c, reached, phase) =>
      match CallerOf(s, c) {
        case RunChecked(runId) =>
          CloseScopesKeeps(l, runId, reached, phase);
          StoreKeeps(s, Ok(CloseScopes(l, runId, reached, phase)));
        case _ =>
      }
    case FinishRun(c, phase) =>
      match CallerOf(s, c) {
        case RunChecked(runId) =>
          if CloseRun(l, runId, phase).Ok? { CloseRunKeeps(l, runId, phase); }
          StoreKeeps(s, CloseRun(l, runId, phase));
        case _ =>
      }
  }

  lemma StepKeeps(s: System, a: Action)
    requires Sound(s)
    ensures Preserves(s, Apply(s, a))
  {
    var l := s.ledger;
    if !Admissible(a) {
    } else if a.AddScope? {
      AddScopeKeeps(s, a.caller, a.scopeId, a.budget);
    } else if a.ReserveCall? || a.LoadReservation? || a.StartCall? || a.FinalizeCall? {
      CallStepKeeps(s, a);
    } else if a.OpenRun? {
      if CreateRun(l, a.runId, a.rootId, a.maxUsd).Ok? { CreateRunKeeps(l, a.runId, a.rootId, a.maxUsd); }
      StoreKeeps(s, CreateRun(l, a.runId, a.rootId, a.maxUsd));
    } else if a.BeginChain? {
      RememberKeeps(s, a.caller, Reading(StartWalk(l, a.ofRun, a.scopeId)));
    } else if a.ReadRow? {
      CallerIsSound(s, a.caller);
      match CallerOf(s, a.caller) {
        case Reading(w) =>
          WalkStepKeeps(l, w);
          RememberKeeps(s, a.caller, Reading(WalkStep(l, w)));
        case _ =>
      }
    } else {
      ClosingStepKeeps(s, a);
    }
  }

  lemma {:induction false} RunKeeps(s: System, actions: seq<Action>)
    requires Sound(s)
    ensures Preserves(s, Execute(s, actions))
    decreases |actions|
  {
    if actions != [] {
      StepKeeps(s, actions[0]);
      RunKeeps(Apply(s, actions[0]), actions[1..]);
      ExtendsTransitive(s.ledger, Apply(s, actions[0]).ledger, Execute(s, actions).ledger);
    }
  }

  lemma {:induction false} RunConcat(s: System, first: seq<Action>, second: seq<Action>)
    ensures Execute(s, first + second) == Execute(Execute(s, first), second)
    decreases |first|
  {
    if first == [] {
      assert first + second == second;
    } else {
      assert (first + second)[1..] == first[1..] + second;
      RunConcat(Apply(s, first[0]), first[1..], second);
    }
  }

  /** Under any interleaving of callers, the ledger is consistent and no caller ever meets a cycle. */
  lemma EveryReachableSystemIsSound(actions: seq<Action>)
    ensures Sound(Execute(START, actions))
  {
    assert Sound(START);
    RunKeeps(START, actions);
  }
}
