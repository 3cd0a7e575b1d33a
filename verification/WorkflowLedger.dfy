/** The hierarchical workflow budget as data: runs, a tree of scopes, reservations, and the
    effect of every stored-document operation.  One function is one atomic step: a single
    document read, a single document update, or one whole transaction. */
module WorkflowLedger {
  import opened Basics
  import opened Tallies

  /** Run, scope and reservation identifiers, which are only ever compared. */
  datatype Id = Id(number: int)

  datatype Phase = Active | Completed | Failed

  datatype Run = Run(rootScopeId: Id, phase: Phase)

  datatype Scope = Scope(runId: Id, parent: Option<Id>, maxUsd: real, spentUsd: real, reservedUsd: real, phase: Phase)

  datatype CallStatus = Reserved | Started | Settled | CallFailed | Cancelled

  datatype Reservation = Reservation(
    runId: Id, scopeIds: seq<Id>, callLimitUsd: real, status: CallStatus, spendUsd: real)

  datatype Ledger = Ledger(runs: map<Id, Run>, scopes: map<Id, Scope>, reservations: map<Id, Reservation>)

  datatype Fault =
    | RunMissing | RunNotActive
    | ScopeMissing | ScopeNotActive | ScopeCycle | ScopeNotInRun
    | DuplicateId | ChildExceedsParent | BudgetExhausted
    | ClaimMismatch | AlreadyFinalized | InvalidState | CapViolation
    | SettlementConflict | ReservationConflict | Unsettled

  const EMPTY: Ledger := Ledger(map[], map[], map[])

  predicate Open(status: CallStatus) {
    status == Reserved || status == Started
  }

  // ---------------------------------------------------------------- creating runs and scopes

  function CreateRun(l: Ledger, runId: Id, rootId: Id, maxUsd: real): Result<Ledger, Fault> {
    if runId in l.runs || rootId in l.scopes then
      Err(DuplicateId)
    else
      Ok(l.(runs := l.runs[runId := Run(rootId, Active)],
            scopes := l.scopes[rootId := Scope(runId, None, maxUsd, 0.0, 0.0, Active)]))
  }

  /** The budget a caller asks for a child scope: dollars, or a fraction of the parent's maximum. */
  datatype ChildBudget = Dollars(usd: real) | Fraction(of: real)

  function ChildMaximum(budget: ChildBudget, parentMaxUsd: real): real {
    match budget
    case Dollars(usd) => usd
    case Fraction(f) => parentMaxUsd * f
  }

  /** Inserts a child below the last row of a chain read earlier. */
  function InsertScope(l: Ledger, runId: Id, chain: seq<Row>, scopeId: Id, budget: ChildBudget): Result<Ledger, Fault>
    requires chain != []
  {
    var parent := chain[|chain| - 1];
    var maximum := ChildMaximum(budget, parent.seen.maxUsd);
    if maximum > parent.seen.maxUsd + SLACK then
      Err(ChildExceedsParent)
    else if scopeId in l.scopes then
      Err(DuplicateId)
    else
      Ok(l.(scopes := l.scopes[scopeId := Scope(runId, Some(parent.id), maximum, 0.0, 0.0, Active)]))
  }

  // ---------------------------------------------------------------- reading a scope chain

  /** A scope document as it was when it was read; its totals and phase may be stale. */
  datatype Row = Row(id: Id, seen: Scope)

  /** A chain read in progress: the next id to read and the rows below it, root first. */
  datatype Walk =
    | Walking(runId: Id, leafId: Id, rootId: Id, at: Id, below: seq<Row>)
    | Arrived(runId: Id, leafId: Id, chain: seq<Row>)
    | Halted(fault: Fault)

  function Ids(rows: seq<Row>): (ids: seq<Id>)
    ensures |ids| == |rows| && forall i | 0 <= i < |rows| :: ids[i] == rows[i].id
  {
    seq(|rows|, i requires 0 <= i < |rows| => rows[i].id)
  }

  function StartWalk(l: Ledger, runId: Id, scopeId: Id): Walk {
    if runId !in l.runs then Halted(RunMissing)
    else if l.runs[runId].phase != Active then Halted(RunNotActive)
    else Walking(runId, scopeId, l.runs[runId].rootScopeId, scopeId, [])
  }

  /** Reads one more scope document. */
  function WalkStep(l: Ledger, w: Walk): Walk {
    if !w.Walking? then w
    else if w.at in Ids(w.below) then Halted(ScopeCycle)
    else if w.at !in l.scopes || l.scopes[w.at].runId != w.runId then Halted(ScopeMissing)
    else if l.scopes[w.at].phase != Active then Halted(ScopeNotActive)
    else
      var chain := [Row(w.at, l.scopes[w.at])] + w.below;
      match l.scopes[w.at].parent
      case Some(parent) => w.(at := parent, below := chain)
      case None => if w.at != w.rootId then Halted(ScopeNotInRun) else Arrived(w.runId, w.leafId, chain)
  }

  function UnreadScopes(l: Ledger, w: Walk): nat {
    if w.Walking? then 1 + |l.scopes.Keys - set id | id in Ids(w.below)| else 0
  }

  /** Reading one row leaves fewer scopes unread, which is why even a cyclic collection is walked in bounded time. */
  lemma WalkAdvances(l: Ledger, w: Walk)
    requires w.Walking?
    ensures UnreadScopes(l, WalkStep(l, w)) < UnreadScopes(l, w)
  {
    var next := WalkStep(l, w);
    if next.Walking? {
      var before := l.scopes.Keys - set id | id in Ids(w.below);
      var after := l.scopes.Keys - set id | id in Ids(next.below);
      assert Ids(next.below) == [w.at] + Ids(w.below);
      assert after == before - {w.at};
    }
  }

  /** Reads the rest of a chain while nothing else happens. */
  function WalkAll(l: Ledger, w: Walk): Walk
    decreases UnreadScopes(l, w)
  {
    if !w.Walking? then w
    else
      WalkAdvances(l, w);
      WalkAll(l, WalkStep(l, w))
  }

  function ReadChain(l: Ledger, runId: Id, scopeId: Id): Walk {
    WalkAll(l, StartWalk(l, runId, scopeId))
  }

  // ---------------------------------------------------------------- the reservation transaction

  function Hold(s: Scope, limit: real): Scope {
    s.(reservedUsd := s.reservedUsd + limit)
  }

  predicate CanHold(scopes: map<Id, Scope>, id: Id, limit: real) {
    id in scopes && scopes[id].phase == Active &&
    scopes[id].maxUsd - (scopes[id].spentUsd + scopes[id].reservedUsd) >= limit
  }

  /** Updates scope after scope; the first one without headroom aborts the transaction. */
  function HoldAll(scopes: map<Id, Scope>, ids: seq<Id>, limit: real): Result<map<Id, Scope>, Fault> {
    if ids == [] then Ok(scopes)
    else if !CanHold(scopes, ids[0], limit) then Err(BudgetExhausted)
    else HoldAll(scopes[ids[0] := Hold(scopes[ids[0]], limit)], ids[1..], limit)
  }

  function Reserve(l: Ledger, runId: Id, ids: seq<Id>, limit: real, reservationId: Id): Result<Ledger, Fault> {
    match HoldAll(l.scopes, ids, limit)
    case Err(fault) => Err(fault)
    case Ok(scopes) =>
      if reservationId in l.reservations then Err(DuplicateId)
      else Ok(l.(scopes := scopes,
                 reservations := l.reservations[reservationId := Reservation(runId, ids, limit, Reserved, 0.0)]))
  }

  // ---------------------------------------------------------------- starting and finalizing

  /** The part of a signed claim that identifies a reservation. */
  datatype Claim = Claim(runId: Id, scopeId: Id, reservationId: Id, callLimitUsd: real)

  function ReadReservation(l: Ledger, claim: Claim): Result<Reservation, Fault> {
    if claim.reservationId !in l.reservations then Err(ClaimMismatch)
    else
      var r := l.reservations[claim.reservationId];
      if r.runId == claim.runId && r.callLimitUsd == claim.callLimitUsd &&
         r.scopeIds != [] && r.scopeIds[|r.scopeIds| - 1] == claim.scopeId
      then Ok(r) else Err(ClaimMismatch)
  }

  function Start(l: Ledger, id: Id, copy: Reservation): Result<Ledger, Fault> {
    if copy.status == Started then Ok(l)
    else if id in l.reservations && l.reservations[id].status == Reserved then
      Ok(l.(reservations := l.reservations[id := l.reservations[id].(status := Started)]))
    else Err(InvalidState)
  }

  datatype Outcome = Settle | Fail | Cancel

  function Final(outcome: Outcome): CallStatus {
    match outcome case Settle => Settled case Fail => CallFailed case Cancel => Cancelled
  }

  function RequiredStatus(outcome: Outcome): CallStatus {
    if outcome == Cancel then Reserved else Started
  }

  function Release(s: Scope, limit: real, debit: real): Scope {
    s.(reservedUsd := s.reservedUsd - limit, spentUsd := s.spentUsd + debit)
  }

  function ReleaseAll(scopes: map<Id, Scope>, runId: Id, ids: seq<Id>, limit: real, debit: real)
    : Result<map<Id, Scope>, Fault>
  {
    if ids == [] then Ok(scopes)
    else if ids[0] in scopes && scopes[ids[0]].runId == runId && scopes[ids[0]].reservedUsd >= limit then
      ReleaseAll(scopes[ids[0] := Release(scopes[ids[0]], limit, debit)], runId, ids[1..], limit, debit)
    else Err(SettlementConflict)
  }

  function SettleTransaction(l: Ledger, id: Id, copy: Reservation, outcome: Outcome, debit: real): Result<Ledger,
    Fault> {
    match ReleaseAll(l.scopes, copy.runId, copy.scopeIds, copy.callLimitUsd, debit)
    case Err(fault) => Err(fault)
    case Ok(scopes) =>
      if id in l.reservations && l.reservations[id].status == RequiredStatus(outcome) then
        Ok(l.(scopes := scopes,
              reservations := l.reservations[id := l.reservations[id].(status := Final(outcome), spendUsd := debit)]))
      else Err(ReservationConflict)
  }

  /** Finalizes a reservation whose document was read earlier, possibly before a rival finalized it. */
  function Finalize(l: Ledger, id: Id, copy: Reservation, outcome: Outcome, spend: real): Result<Ledger, Fault> {
    if !Open(copy.status) then
      if copy.status == Final(outcome) && Close(copy.spendUsd, spend) then Ok(l) else Err(AlreadyFinalized)
    else if copy.status != RequiredStatus(outcome) then Err(InvalidState)
    else
      var debit := if outcome == Cancel then 0.0 else spend;
      if debit < 0.0 || debit > copy.callLimitUsd + SLACK then Err(CapViolation)
      else SettleTransaction(l, id, copy, outcome, debit)
  }

  // ---------------------------------------------------------------- closing scopes and runs

  predicate Unfinished(l: Ledger, runId: Id) {
    exists id | id in l.reservations :: l.reservations[id].runId == runId && Open(l.reservations[id].status)
  }

  predicate UnfinishedBelow(l: Ledger, runId: Id, scopeId: Id) {
    exists id | id in l.reservations ::
      l.reservations[id].runId == runId && scopeId in l.reservations[id].scopeIds && Open(l.reservations[id].status)
  }

  function CloseScope(l: Ledger, runId: Id, scopeId: Id, phase: Phase): Result<Ledger, Fault> {
    if scopeId in l.scopes && l.scopes[scopeId].runId == runId && l.scopes[scopeId].phase == Active then
      Ok(l.(scopes := l.scopes[scopeId := l.scopes[scopeId].(phase := phase)]))
    else Err(ScopeNotActive)
  }

  /** Closes the active scopes of a run that one pass of the bulk update happens to reach. */
  function CloseScopes(l: Ledger, runId: Id, reached: set<Id>, phase: Phase): Ledger {
    l.(scopes := map id | id in l.scopes ::
      if id in reached && l.scopes[id].runId == runId && l.scopes[id].phase == Active
      then l.scopes[id].(phase := phase) else l.scopes[id])
  }

  function CloseRun(l: Ledger, runId: Id, phase: Phase): Result<Ledger, Fault> {
    if runId in l.runs && l.runs[runId].phase == Active then
      Ok(l.(runs := l.runs[runId := l.runs[runId].(phase := phase)]))
    else Err(RunNotActive)
  }

  // ---------------------------------------------------------------- paths

  ghost predicate Linked(scopes: map<Id, Scope>, ids: seq<Id>, i: nat) {
    0 < i < |ids| && ids[i] in scopes && scopes[ids[i]].parent == Some(ids[i - 1])
  }

  /** Root-to-leaf: the first scope has no parent and each later one hangs below the one before. */
  ghost predicate IsPath(scopes: map<Id, Scope>, ids: seq<Id>) {
    && ids != []
    && ids[0] in scopes && scopes[ids[0]].parent == None
    && (forall i | 0 <= i < |ids| :: ids[i] in scopes && scopes[ids[i]].runId == scopes[ids[0]].runId)
    && (forall i {:trigger Linked(scopes, ids, i)} | 0 < i < |ids| :: Linked(scopes, ids, i))
  }

  ghost predicate PathTo(scopes: map<Id, Scope>, ids: seq<Id>, leaf: Id) {
    IsPath(scopes, ids) && ids[|ids| - 1] == leaf
  }

  lemma LastParent(scopes: map<Id, Scope>, p: seq<Id>)
    requires IsPath(scopes, p)
    ensures scopes[p[|p| - 1]].parent == if |p| == 1 then None else Some(p[|p| - 2])
  {
    assert |p| > 1 ==> Linked(scopes, p, |p| - 1);
  }

  lemma PrefixIsPath(scopes: map<Id, Scope>, p: seq<Id>, n: nat)
    requires IsPath(scopes, p) && 0 < n <= |p|
    ensures IsPath(scopes, p[..n])
  {
    forall i | 0 < i < n ensures Linked(scopes, p[..n], i) {
      assert Linked(scopes, p, i);
    }
  }

  lemma {:induction false} PathIsUnique(scopes: map<Id, Scope>, p: seq<Id>, q: seq<Id>, leaf: Id)
    requires PathTo(scopes, p, leaf) && PathTo(scopes, q, leaf)
    ensures p == q
  {
    LastParent(scopes, p);
    LastParent(scopes, q);
    if |p| > 1 {
      PrefixIsPath(scopes, p, |p| - 1);
      PrefixIsPath(scopes, q, |q| - 1);
      PathIsUnique(scopes, p[..|p| - 1], q[..|q| - 1], p[|p| - 2]);
      assert p == p[..|p| - 1] + [leaf] && q == q[..|q| - 1] + [leaf];
    } else {
      assert p == [leaf] && q == [leaf];
    }
  }

  lemma PathIsDistinct(scopes: map<Id, Scope>, p: seq<Id>)
    requires IsPath(scopes, p)
    ensures Distinct(p)
  {
    forall i, j | 0 <= i < j < |p| ensures p[i] != p[j] {
      if p[i] == p[j] {
        PrefixIsPath(scopes, p, i + 1);
        PrefixIsPath(scopes, p, j + 1);
        PathIsUnique(scopes, p[..i + 1], p[..j + 1], p[i]);
        assert false;
      }
    }
  }

  ghost predicate Rooted(scopes: map<Id, Scope>, id: Id) {
    exists p :: PathTo(scopes, p, id)
  }

  ghost predicate IsRoot(runs: map<Id, Run>, scopes: map<Id, Scope>, id: Id) {
    id in scopes && scopes[id].runId in runs && runs[scopes[id].runId].rootScopeId == id
  }

  ghost predicate HasRoot(runs: map<Id, Run>, scopes: map<Id, Scope>, r: Id) {
    r in runs && runs[r].rootScopeId in scopes &&
    scopes[runs[r].rootScopeId].parent == None && scopes[runs[r].rootScopeId].runId == r
  }

  ghost predicate Tree(runs: map<Id, Run>, scopes: map<Id, Scope>) {
    && (forall id {:trigger Rooted(scopes, id)} | id in scopes :: Rooted(scopes, id))
    && (forall id {:trigger IsRoot(runs, scopes, id)} | id in scopes && scopes[id].parent == None ::
          IsRoot(runs, scopes, id))
    && (forall r {:trigger HasRoot(runs, scopes, r)} | r in runs :: HasRoot(runs, scopes, r))
  }

  // ---------------------------------------------------------------- totals

  ghost function HeldOn(scopeId: Id): Reservation -> real {
    (r: Reservation) => if scopeId in r.scopeIds && Open(r.status) then r.callLimitUsd else 0.0
  }

  ghost function SpentOn(scopeId: Id): Reservation -> real {
    (r: Reservation) => if scopeId in r.scopeIds && !Open(r.status) then r.spendUsd else 0.0
  }

  /** By how much finalized calls overran their reservations. */
  ghost function OverrunOn(scopeId: Id): Reservation -> real {
    (r: Reservation) =>
      if scopeId in r.scopeIds && !Open(r.status) then Max(0.0, r.spendUsd - r.callLimitUsd) else 0.0
  }

  ghost predicate SoundReservation(l: Ledger, r: Reservation) {
    && IsPath(l.scopes, r.scopeIds)
    && l.scopes[r.scopeIds[0]].runId == r.runId
    && r.callLimitUsd > 0.0
    && 0.0 <= r.spendUsd <= r.callLimitUsd + SLACK
    && (Open(r.status) || r.status == Cancelled ==> r.spendUsd == 0.0)
  }

  ghost predicate Balanced(l: Ledger, id: Id)
    requires id in l.scopes
  {
    && l.scopes[id].reservedUsd == Tally(l.reservations, HeldOn(id))
    && l.scopes[id].spentUsd == Tally(l.reservations, SpentOn(id))
  }

  /** Spent plus reserved may pass the maximum only by what finalized calls overran. */
  ghost predicate Within(l: Ledger, id: Id)
    requires id in l.scopes
  {
    l.scopes[id].spentUsd + l.scopes[id].reservedUsd
      <= l.scopes[id].maxUsd + Tally(l.reservations, OverrunOn(id))
  }

  ghost predicate Consistent(l: Ledger) {
    && Tree(l.runs, l.scopes)
    && (forall id {:trigger SoundReservation(l, l.reservations[id])} | id in l.reservations ::
          SoundReservation(l, l.reservations[id]))
    && (forall id {:trigger Balanced(l, id)} {:trigger Within(l, id)} | id in l.scopes ::
          l.scopes[id].maxUsd > 0.0 && Balanced(l, id) && Within(l, id))
  }

  // ---------------------------------------------------------------- what never changes

  ghost predicate SameScopeIdentity(s: Scope, t: Scope) {
    s.runId == t.runId && s.parent == t.parent && s.maxUsd == t.maxUsd
  }

  ghost predicate SameCall(r: Reservation, q: Reservation) {
    r.runId == q.runId && r.scopeIds == q.scopeIds && r.callLimitUsd == q.callLimitUsd
  }

  /** Everything that a later ledger preserves of an earlier one. */
  ghost predicate Extends(l: Ledger, m: Ledger) {
    && (forall r | r in l.runs :: r in m.runs && m.runs[r].rootScopeId == l.runs[r].rootScopeId)
    && (forall r | r in l.runs && l.runs[r].phase != Active :: m.runs[r] == l.runs[r])
    && (forall id | id in l.scopes :: id in m.scopes && SameScopeIdentity(l.scopes[id], m.scopes[id]))
    && (forall id | id in l.scopes && l.scopes[id].phase != Active :: m.scopes[id].phase == l.scopes[id].phase)
    && (forall id | id in l.reservations :: id in m.reservations && SameCall(l.reservations[id], m.reservations[id]))
    && (forall id | id in l.reservations && !Open(l.reservations[id].status) ::
          m.reservations[id] == l.reservations[id])
    && (forall id | id in l.reservations && l.reservations[id].status == Started ::
          m.reservations[id].status != Reserved)
  }

  lemma PathSurvives(l: Ledger, m: Ledger, ids: seq<Id>)
    requires Extends(l, m) && IsPath(l.scopes, ids)
    ensures IsPath(m.scopes, ids)
  {
    assert forall i | 0 <= i < |ids| :: ids[i] in m.scopes && SameScopeIdentity(l.scopes[ids[i]], m.scopes[ids[i]]);
    forall i | 0 < i < |ids| ensures Linked(m.scopes, ids, i) {
      assert Linked(l.scopes, ids, i);
    }
  }

  // ---------------------------------------------------------------- touching every scope of a path

  /** HoldAll succeeds exactly when every scope has headroom, and then raises exactly those scopes. */
  lemma {:induction false} HoldAllMeaning(scopes: map<Id, Scope>, ids: seq<Id>, limit: real)
    requires Distinct(ids)
    ensures HoldAll(scopes, ids, limit).Ok? <==> forall i | 0 <= i < |ids| :: CanHold(scopes, ids[i], limit)
    ensures HoldAll(scopes, ids, limit).Ok? ==>
              var after := HoldAll(scopes, ids, limit).value;
              after.Keys == scopes.Keys &&
              forall id | id in scopes :: after[id] == if id in ids then Hold(scopes[id], limit) else scopes[id]
    decreases |ids|
  {
    if ids != [] && CanHold(scopes, ids[0], limit) {
      var next := scopes[ids[0] := Hold(scopes[ids[0]], limit)];
      HoldAllMeaning(next, ids[1..], limit);
      assert forall i | 1 <= i < |ids| :: ids[1..][i - 1] == ids[i];
      assert forall i | 1 <= i < |ids| :: CanHold(next, ids[i], limit) == CanHold(scopes, ids[i], limit);
      assert HoldAll(scopes, ids, limit) == HoldAll(next, ids[1..], limit);
      if HoldAll(next, ids[1..], limit).Ok? {
        forall i | 0 <= i < |ids| ensures CanHold(scopes, ids[i], limit) {
          if i > 0 { assert CanHold(next, ids[1..][i - 1], limit); }
        }
      }
      assert forall id :: id in ids <==> id == ids[0] || id in ids[1..];
    }
  }

  predicate CanRelease(scopes: map<Id, Scope>, runId: Id, id: Id, limit: real) {
    id in scopes && scopes[id].runId == runId && scopes[id].reservedUsd >= limit
  }

  lemma {:induction false} ReleaseAllMeaning(scopes: map<Id, Scope>, runId: Id, ids: seq<Id>, limit: real, debit: real)
    requires Distinct(ids)
    ensures ReleaseAll(scopes, runId, ids, limit, debit).Ok? <==>
              forall i | 0 <= i < |ids| :: CanRelease(scopes, runId, ids[i], limit)
    ensures ReleaseAll(scopes, runId, ids, limit, debit).Ok? ==>
              var after := ReleaseAll(scopes, runId, ids, limit, debit).value;
              after.Keys == scopes.Keys &&
              forall id | id in scopes :: after[id] == if id in ids then Release(scopes[id], limit, debit)
                else scopes[id]
    decreases |ids|
  {
    if ids != [] && CanRelease(scopes, runId, ids[0], limit) {
      var next := scopes[ids[0] := Release(scopes[ids[0]], limit, debit)];
      ReleaseAllMeaning(next, runId, ids[1..], limit, debit);
      assert forall i | 1 <= i < |ids| :: ids[1..][i - 1] == ids[i];
      assert forall i | 1 <= i < |ids| ::
          CanRelease(next, runId, ids[i], limit) == CanRelease(scopes, runId, ids[i], limit);
      assert ReleaseAll(scopes, runId, ids, limit, debit) == ReleaseAll(next, runId, ids[1..], limit, debit);
      if ReleaseAll(next, runId, ids[1..], limit, debit).Ok? {
        forall i | 0 <= i < |ids| ensures CanRelease(scopes, runId, ids[i], limit) {
          if i > 0 { assert CanRelease(next, runId, ids[1..][i - 1], limit); }
        }
      }
      assert forall id :: id in ids <==> id == ids[0] || id in ids[1..];
    }
  }

  // ---------------------------------------------------------------- each step keeps the ledger consistent

  /** Storing one reservation moves each scope's three totals by that reservation's own share. */
  lemma TotalsAfterPut(m: map<Id, Reservation>, rid: Id, r: Reservation, id: Id)
    ensures Tally(m[rid := r], HeldOn(id)) == Tally(m, HeldOn(id)) - ShareAt(m, rid, HeldOn(id)) + HeldOn(id)(r)
    ensures Tally(m[rid := r], SpentOn(id)) == Tally(m, SpentOn(id)) - ShareAt(m, rid, SpentOn(id)) + SpentOn(id)(r)
    ensures Tally(m[rid := r], OverrunOn(id))
              == Tally(m, OverrunOn(id)) - ShareAt(m, rid, OverrunOn(id)) + OverrunOn(id)(r)
  {
    TallyPut(m, rid, r, HeldOn(id));
    TallyPut(m, rid, r, SpentOn(id));
    TallyPut(m, rid, r, OverrunOn(id));
  }

  lemma RootedSurvives(l: Ledger, m: Ledger, id: Id)
    requires Extends(l, m) && Rooted(l.scopes, id)
    ensures Rooted(m.scopes, id)
  {
    hide Extends, IsPath;
    var p :| PathTo(l.scopes, p, id);
    PathSurvives(l, m, p);
    assert PathTo(m.scopes, p, id);
  }

  lemma RootsSurvive(l: Ledger, m: Ledger, id: Id, r: Id)
    requires Extends(l, m)
    ensures id in l.scopes && IsRoot(l.runs, l.scopes, id) ==> IsRoot(m.runs, m.scopes, id)
    ensures HasRoot(l.runs, l.scopes, r) ==> HasRoot(m.runs, m.scopes, r)
    ensures id in l.scopes ==> id in m.scopes && m.scopes[id].parent == l.scopes[id].parent
  {
  }

  /** A ledger that only gains scopes or changes phases keeps its paths, hence its tree. */
  lemma TreeSurvives(l: Ledger, m: Ledger)
    requires Tree(l.runs, l.scopes) && Extends(l, m)
    requires m.scopes.Keys == l.scopes.Keys && m.runs.Keys == l.runs.Keys
    ensures Tree(m.runs, m.scopes)
  {
    hide Extends, Rooted, IsRoot, HasRoot;
    forall id | id in m.scopes ensures Rooted(m.scopes, id) {
      assert id in l.scopes && Rooted(l.scopes, id);
      RootedSurvives(l, m, id);
    }
    forall id | id in m.scopes && m.scopes[id].parent == None ensures IsRoot(m.runs, m.scopes, id) {
      assert id in l.scopes;
      RootsSurvive(l, m, id, id);
      assert IsRoot(l.runs, l.scopes, id);
    }
    forall r | r in m.runs ensures HasRoot(m.runs, m.scopes, r) {
      assert r in l.runs && HasRoot(l.runs, l.scopes, r);
      RootsSurvive(l, m, r, r);
    }
  }

  lemma NewScopeHasNoCalls(l: Ledger, id: Id)
    requires Consistent(l) && id !in l.scopes
    ensures Tally(l.reservations, HeldOn(id)) == 0.0
    ensures Tally(l.reservations, SpentOn(id)) == 0.0
    ensures Tally(l.reservations, OverrunOn(id)) == 0.0
  {
    forall rid | rid in l.reservations ensures id !in l.reservations[rid].scopeIds {
      assert SoundReservation(l, l.reservations[rid]);
    }
    TallyZero(l.reservations, HeldOn(id));
    TallyZero(l.reservations, SpentOn(id));
    TallyZero(l.reservations, OverrunOn(id));
  }
}
