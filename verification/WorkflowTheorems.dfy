/** What every run of racing callers guarantees about budgets, debits and the scope tree. */
module WorkflowTheorems {
  import opened Basics
  import opened Tallies
  import opened WorkflowLedger
  import opened WorkflowSteps
  import opened WorkflowSystem

  // ---------------------------------------------------------------- totals and the budget bound

  /** One slack for each finalized call. */
  ghost function SlackOn(scopeId: Id): Reservation -> real {
    (r: Reservation) => if scopeId in r.scopeIds && !Open(r.status) then SLACK else 0.0
  }

  /** Each scope's stored totals are the sums over the calls that list it.  Their sum may pass the
      maximum only by what finalized calls overran their own limits, at most one slack a call. */
  lemma EveryScopeStaysWithinBudget(actions: seq<Action>, id: Id)
    requires id in Execute(START, actions).ledger.scopes
    ensures var l := Execute(START, actions).ledger;
            && l.scopes[id].reservedUsd == Tally(l.reservations, HeldOn(id))
            && l.scopes[id].spentUsd == Tally(l.reservations, SpentOn(id))
            && l.scopes[id].spentUsd + l.scopes[id].reservedUsd
                 <= l.scopes[id].maxUsd + Tally(l.reservations, OverrunOn(id))
            && Tally(l.reservations, OverrunOn(id)) <= Tally(l.reservations, SlackOn(id))
  {
    var l := Execute(START, actions).ledger;
    EveryReachableSystemIsSound(actions);
    assert Balanced(l, id);
    forall rid | rid in l.reservations ensures OverrunOn(id)(l.reservations[rid]) <= SlackOn(id)(l.reservations[rid]) {
      assert SoundReservation(l, l.reservations[rid]);
    }
    TallyCompare(l.reservations, OverrunOn(id), l.reservations, SlackOn(id));
  }

  /** When no call was debited more than its reservation, no scope is ever over its maximum. */
  lemma WithoutOverrunsNoScopeIsOverspent(actions: seq<Action>, id: Id)
    requires id in Execute(START, actions).ledger.scopes
    requires var m := Execute(START, actions).ledger.reservations;
             forall rid | rid in m && id in m[rid].scopeIds :: m[rid].spendUsd <= m[rid].callLimitUsd
    ensures var s := Execute(START, actions).ledger.scopes[id]; s.spentUsd + s.reservedUsd <= s.maxUsd
  {
    EveryScopeStaysWithinBudget(actions, id);
    TallyZero(Execute(START, actions).ledger.reservations, OverrunOn(id));
  }

  // ---------------------------------------------------------------- a parent is its calls plus its children

  ghost function Charged(id: Id, weight: Reservation -> real): Reservation -> real {
    (r: Reservation) => if id in r.scopeIds then weight(r) else 0.0
  }

  ghost function ChargedDirectly(id: Id, weight: Reservation -> real): Reservation -> real {
    (r: Reservation) => if r.scopeIds != [] && r.scopeIds[|r.scopeIds| - 1] == id then weight(r) else 0.0
  }

  /** The children of a scope, each keyed by itself. */
  ghost function Children(scopes: map<Id, Scope>, id: Id): map<Id, Id> {
    map c | c in scopes && scopes[c].parent == Some(id) :: c
  }

  ghost function ChildShare(weight: Reservation -> real, r: Reservation): Id -> real {
    c => Charged(c, weight)(r)
  }

  ghost function ChildTotal(weight: Reservation -> real, m: map<Id, Reservation>): Id -> real {
    c => Tally(m, Charged(c, weight))
  }

  lemma ParentPrecedes(scopes: map<Id, Scope>, path: seq<Id>, c: Id, parent: Id) returns (k: nat)
    requires IsPath(scopes, path) && c in path && scopes[c].parent == Some(parent)
    ensures 0 < k < |path| && path[k] == c && path[k - 1] == parent
  {
    k :| 0 <= k < |path| && path[k] == c;
    assert k > 0 ==> Linked(scopes, path, k);
  }

  /** A call below a scope either belongs to the scope itself or passes through exactly one child. */
  lemma OneCallSplits(scopes: map<Id, Scope>, id: Id, weight: Reservation -> real, r: Reservation)
    requires IsPath(scopes, r.scopeIds)
    ensures Charged(id, weight)(r)
              == ChargedDirectly(id, weight)(r) + Tally(Children(scopes, id), ChildShare(weight, r))
  {
    var path, kids := r.scopeIds, Children(scopes, id);
    PathIsDistinct(scopes, path);
    forall c | c in kids ensures ChildShare(weight, r)(kids[c]) == if c in path then weight(r) else 0.0 {
      assert ChildShare(weight, r)(c) == Charged(c, weight)(r);
    }
    if id in path && path[|path| - 1] != id {
      var n :| 0 <= n < |path| && path[n] == id;
      var only := path[n + 1];
      assert Linked(scopes, path, n + 1);
      TallyTake(kids, only, ChildShare(weight, r));
      forall c | c in kids - {only} ensures c !in path {
        if c in path {
          var _ := ParentPrecedes(scopes, path, c, id);
        }
      }
      TallyZero(kids - {only}, ChildShare(weight, r));
    } else {
      forall c | c in kids ensures c !in path {
        if c in path {
          var _ := ParentPrecedes(scopes, path, c, id);
        }
      }
      TallyZero(kids, ChildShare(weight, r));
    }
  }

  lemma {:induction false} ChargesSplit(
    scopes: map<Id, Scope>, m: map<Id, Reservation>, id: Id, weight: Reservation -> real)
    requires forall rid | rid in m :: IsPath(scopes, m[rid].scopeIds)
    ensures Tally(m, Charged(id, weight))
              == Tally(m, ChargedDirectly(id, weight)) + Tally(Children(scopes, id), ChildTotal(weight, m))
    decreases |m|
  {
    var kids := Children(scopes, id);
    if m == map[] {
      TallyZero(kids, ChildTotal(weight, m));
    } else {
      var rid :| rid in m;
      var rest := m - {rid};
      TallyTake(m, rid, Charged(id, weight));
      TallyTake(m, rid, ChargedDirectly(id, weight));
      ChargesSplit(scopes, rest, id, weight);
      OneCallSplits(scopes, id, weight, m[rid]);
      forall c | c in kids
        ensures ChildTotal(weight, m)(kids[c]) == ChildShare(weight, m[rid])(kids[c])
                + ChildTotal(weight, rest)(kids[c])
      {
        TallyTake(m, rid, Charged(c, weight));
      }
      TallySplit(kids, ChildTotal(weight, m), ChildShare(weight, m[rid]), ChildTotal(weight, rest));
    }
  }

  ghost function HeldWeight(): Reservation -> real {
    (r: Reservation) => if Open(r.status) then r.callLimitUsd else 0.0
  }

  ghost function SpentWeight(): Reservation -> real {
    (r: Reservation) => if Open(r.status) then 0.0 else r.spendUsd
  }

  ghost function ReservedOf(scopes: map<Id, Scope>): Id -> real {
    c => if c in scopes then scopes[c].reservedUsd else 0.0
  }

  ghost function SpentOf(scopes: map<Id, Scope>): Id -> real {
    c => if c in scopes then scopes[c].spentUsd else 0.0
  }

  /** Each scope's totals are those of the calls made directly on it plus its children's totals. */
  lemma ParentIsDirectPlusChildren(actions: seq<Action>, id: Id)
    requires id in Execute(START, actions).ledger.scopes
    ensures var l := Execute(START, actions).ledger;
            && l.scopes[id].reservedUsd
                 == Tally(l.reservations, ChargedDirectly(id, HeldWeight()))
                    + Tally(Children(l.scopes, id), ReservedOf(l.scopes))
            && l.scopes[id].spentUsd
                 == Tally(l.reservations, ChargedDirectly(id, SpentWeight()))
                    + Tally(Children(l.scopes, id), SpentOf(l.scopes))
  {
    var l := Execute(START, actions).ledger;
    EveryReachableSystemIsSound(actions);
    var m, kids := l.reservations, Children(l.scopes, id);
    forall rid | rid in m ensures IsPath(l.scopes, m[rid].scopeIds) {
      assert SoundReservation(l, m[rid]);
    }
    ChargesSplit(l.scopes, m, id, HeldWeight());
    ChargesSplit(l.scopes, m, id, SpentWeight());
    forall c | c in l.scopes
      ensures l.scopes[c].reservedUsd == Tally(m, Charged(c, HeldWeight()))
      ensures l.scopes[c].spentUsd == Tally(m, Charged(c, SpentWeight()))
    {
      assert Balanced(l, c);
      TallySame(m, HeldOn(c), m, Charged(c, HeldWeight()));
      TallySame(m, SpentOn(c), m, Charged(c, SpentWeight()));
    }
    TallySame(kids, ReservedOf(l.scopes), kids, ChildTotal(HeldWeight(), m));
    TallySame(kids, SpentOf(l.scopes), kids, ChildTotal(SpentWeight(), m));
  }

  // ---------------------------------------------------------------- each call is debited once

  ghost predicate IsFinal(l: Ledger, rid: Id) {
    rid in l.reservations && !Open(l.reservations[rid].status)
  }

  /** How many steps of a run finalize a given reservation. */
  ghost function Finalizations(s: System, actions: seq<Action>, rid: Id): nat
    decreases |actions|
  {
    if actions == [] then 0
    else
      var t := Apply(s, actions[0]);
      (if IsFinal(t.ledger, rid) && !IsFinal(s.ledger, rid) then 1 else 0) + Finalizations(t, actions[1..], rid)
  }

  lemma {:induction false} FinalizedAtMostOnce(s: System, actions: seq<Action>, rid: Id)
    requires Sound(s)
    ensures Finalizations(s, actions, rid)
              == if IsFinal(Execute(s, actions).ledger, rid) && !IsFinal(s.ledger, rid) then 1 else 0
    ensures IsFinal(s.ledger, rid) ==>
              IsFinal(Execute(s, actions).ledger, rid)
              && Execute(s, actions).ledger.reservations[rid] == s.ledger.reservations[rid]
    decreases |actions|
  {
    if actions != [] {
      StepKeeps(s, actions[0]);
      FinalizedAtMostOnce(Apply(s, actions[0]), actions[1..], rid);
    }
  }

  /** In every run a reservation leaves the open states exactly once if it is final in the end, and
      never otherwise; from then on nothing any caller does changes its record. */
  lemma EveryCallIsFinalizedOnce(actions: seq<Action>, more: seq<Action>, rid: Id)
    ensures Finalizations(START, actions, rid) == if IsFinal(Execute(START, actions).ledger, rid) then 1 else 0
    ensures IsFinal(Execute(START, actions).ledger, rid) ==>
              rid in Execute(START, actions + more).ledger.reservations
              && Execute(START, actions + more).ledger.reservations[rid]
                == Execute(START, actions).ledger.reservations[rid]
  {
    EveryReachableSystemIsSound([]);
    FinalizedAtMostOnce(START, actions, rid);
    EveryReachableSystemIsSound(actions);
    FinalizedAtMostOnce(Execute(START, actions), more, rid);
    RunConcat(START, actions, more);
  }

  ghost predicate DebitsOnly(l: Ledger, m: Ledger, rid: Id) {
    && rid in l.reservations && Open(l.reservations[rid].status) && IsFinal(m, rid)
    && (forall other | other in l.reservations && other != rid ::
          other in m.reservations && m.reservations[other] == l.reservations[other])
    && (forall id | id in l.scopes :: id in m.scopes &&
          m.scopes[id] == if id in l.reservations[rid].scopeIds
                          then Release(l.scopes[id], l.reservations[rid].callLimitUsd, m.reservations[rid].spendUsd)
                          else l.scopes[id])
  }

  lemma FinalizeDebitsChain(l: Ledger, rid: Id, copy: Reservation, outcome: Outcome, spend: real)
    requires Consistent(l) && rid in l.reservations && SameCall(copy, l.reservations[rid]) && Open(copy.status)
    requires Finalize(l, rid, copy, outcome, spend).Ok?
    ensures DebitsOnly(l, Finalize(l, rid, copy, outcome, spend).value, rid)
  {
    assert SoundReservation(l, l.reservations[rid]);
    PathIsDistinct(l.scopes, copy.scopeIds);
    ReleaseAllMeaning(l.scopes, copy.runId, copy.scopeIds, copy.callLimitUsd, if outcome == Cancel then 0.0 else spend);
  }

  /** A step either changes no scope's spending and finalizes nothing, or it finalizes one
      reservation and debits every scope of that reservation's chain, and no other, exactly once. */
  lemma EachStepDebitsOneChain(s: System, a: Action) returns (rid: Option<Id>)
    requires Sound(s)
    ensures var l, m := s.ledger, Apply(s, a).ledger;
            match rid
            case Some(r) => DebitsOnly(l, m, r)
            case None =>
              && (forall id | id in l.scopes :: id in m.scopes && m.scopes[id].spentUsd == l.scopes[id].spentUsd)
              && (forall r | IsFinal(m, r) :: IsFinal(l, r))
  {
    rid := None;
    var l := s.ledger;
    if Admissible(a) && a.FinalizeCall? {
      CallerIsSound(s, a.caller);
      match CallerOf(s, a.caller) {
        case Holding(id, copy) =>
          if Open(copy.status) && Finalize(l, id, copy, a.outcome, a.spendUsd).Ok? {
            FinalizeDebitsChain(l, id, copy, a.outcome, a.spendUsd);
            rid := Some(id);
          }
        case _ =>
      }
    } else if Admissible(a) && a.ReserveCall? {
      CallerIsSound(s, a.caller);
      match CallerOf(s, a.caller) {
        case Reading(Arrived(runId, leaf, chain)) =>
          PathIsDistinct(l.scopes, Ids(chain));
          HoldAllMeaning(l.scopes, Ids(chain), a.callLimitUsd);
        case _ =>
      }
    }
  }

  ghost predicate ReplaysAs(l: Ledger, rid: Id, recorded: Reservation, outcome: Outcome, again: Outcome, spend: real) {
    var replay := Finalize(l, rid, recorded, again, spend);
    && (replay.Ok? <==> again == outcome && Close(recorded.spendUsd, spend))
    && (replay.Ok? ==> replay.value == l)
    && (replay.Err? ==> replay.error == AlreadyFinalized)
  }

  /** Once a finalization succeeded, whatever any caller does next, its claim still finds the record as it was
      left, and presenting it again succeeds exactly for the same outcome and spend and changes nothing.  The
      very same request is accepted again, unless it cancels while naming a spend, which is recorded as zero. */
  lemma FinalizationReplays(
    s: System, claim: Claim, outcome: Outcome, spend: real, actions: seq<Action>, again: Outcome, spend': real)
    requires Sound(s) && ReadReservation(s.ledger, claim).Ok?
    requires Finalize(s.ledger, claim.reservationId, ReadReservation(s.ledger, claim).value, outcome, spend).Ok?
    ensures var rid := claim.reservationId;
            var done := Finalize(s.ledger, rid, ReadReservation(s.ledger, claim).value, outcome, spend);
            var later := Execute(Store(s, done), actions).ledger;
            && rid in done.value.reservations && ReadReservation(later, claim) == Ok(done.value.reservations[rid])
            && ReplaysAs(later, rid, done.value.reservations[rid], outcome, again, spend')
            && (Finalize(later, rid, done.value.reservations[rid], outcome, spend).Ok? <==>
                  outcome != Cancel || Close(0.0, spend))
  {
    hide ReplaysAs, Sound, Extends, Execute;
    var rid, copy := claim.reservationId, ReadReservation(s.ledger, claim).value;
    var done := Finalize(s.ledger, rid, copy, outcome, spend);
    FinalizeRecords(s, rid, copy, outcome, spend);
    var t := Store(s, done);
    FinalizedAtMostOnce(t, actions, rid);
    assert SameCall(copy, t.ledger.reservations[rid]);
    var later := Execute(t, actions).ledger;
    assert later.reservations[rid] == done.value.reservations[rid];
    ReplayOfRecord(later, rid, outcome, again, spend');
    ReplayOfRecord(later, rid, outcome, outcome, spend);
  }

  lemma FinalizeRecords(s: System, rid: Id, copy: Reservation, outcome: Outcome, spend: real)
    requires Sound(s) && rid in s.ledger.reservations && copy == s.ledger.reservations[rid]
    requires Finalize(s.ledger, rid, copy, outcome, spend).Ok?
    ensures var done := Finalize(s.ledger, rid, copy, outcome, spend);
            && Sound(Store(s, done)) && IsFinal(done.value, rid) && SameCall(copy, done.value.reservations[rid])
            && done.value.reservations[rid].status == Final(outcome)
            && (Close(done.value.reservations[rid].spendUsd, spend) <==> outcome != Cancel || Close(0.0, spend))
  {
    FinalizeKeeps(s.ledger, rid, copy, outcome, spend);
    StoreKeeps(s, Finalize(s.ledger, rid, copy, outcome, spend));
    assert SoundReservation(s.ledger, copy);
  }

  lemma ReplayOfRecord(l: Ledger, rid: Id, outcome: Outcome, again: Outcome, spend: real)
    requires IsFinal(l, rid) && l.reservations[rid].status == Final(outcome)
    ensures ReplaysAs(l, rid, l.reservations[rid], outcome, again, spend)
  {
  }

  /** The one claim that finds a reservation. */
  ghost function ClaimOn(rid: Id, r: Reservation): Claim
    requires r.scopeIds != []
  {
    Claim(r.runId, r.scopeIds[|r.scopeIds| - 1], rid, r.callLimitUsd)
  }

  /** Exactly one claim finds a reservation, and it finds it forever, in whatever state the call then is. */
  lemma OneClaimForever(s: System, actions: seq<Action>, rid: Id, claim: Claim)
    requires Sound(s) && rid in s.ledger.reservations
    ensures var later := Execute(s, actions).ledger;
            && s.ledger.reservations[rid].scopeIds != [] && rid in later.reservations
            && (claim.reservationId == rid && ReadReservation(later, claim).Ok? <==>
                  claim == ClaimOn(rid, s.ledger.reservations[rid]))
            && (claim == ClaimOn(rid, s.ledger.reservations[rid]) ==>
                  ReadReservation(later, claim) == Ok(later.reservations[rid]))
  {
    hide Execute;
    RunKeeps(s, actions);
    assert SoundReservation(s.ledger, s.ledger.reservations[rid]);
    assert SameCall(s.ledger.reservations[rid], Execute(s, actions).ledger.reservations[rid]);
  }

  /** Once a caller has finalized a reservation from an open copy, whatever anyone does next, every other caller
      that still holds an open copy of it is refused, whichever copy that is and whatever it asks for. */
  lemma RivalFinalizerIsRefused(
    s: System, rid: Id, copy: Reservation, first: Outcome, firstSpend: real, actions: seq<Action>,
    rival: Reservation, second: Outcome, secondSpend: real)
    requires Sound(s) && SoundCaller(s.ledger, Holding(rid, copy)) && Open(copy.status) && Open(rival.status)
    requires Finalize(s.ledger, rid, copy, first, firstSpend).Ok?
    ensures var later := Execute(Store(s, Finalize(s.ledger, rid, copy, first, firstSpend)), actions).ledger;
            && rid in later.reservations && later.reservations[rid].status == Final(first)
            && Finalize(later, rid, rival, second, secondSpend).Err?
  {
    hide Execute, Consistent, Extends, ReleaseAll;
    var done := Finalize(s.ledger, rid, copy, first, firstSpend);
    FinalizeKeeps(s.ledger, rid, copy, first, firstSpend);
    StoreKeeps(s, done);
    FinalizedAtMostOnce(Store(s, done), actions, rid);
  }

  /** A settlement is accepted exactly when the call is in the state the outcome needs and the debit fits. */
  lemma SettlementAcceptance(s: System, rid: Id, outcome: Outcome, spend: real)
    requires Sound(s) && rid in s.ledger.reservations && Open(s.ledger.reservations[rid].status)
    ensures var r := s.ledger.reservations[rid];
            Finalize(s.ledger, rid, r, outcome, spend).Ok? <==>
              r.status == RequiredStatus(outcome) && (outcome == Cancel || 0.0 <= spend <= r.callLimitUsd + SLACK)
  {
    var r := s.ledger.reservations[rid];
    assert SoundReservation(s.ledger, r);
    if r.status == RequiredStatus(outcome) {
      SettlementNeverConflicts(s.ledger, rid, r, outcome, if outcome == Cancel then 0.0 else spend);
    }
  }

  /** Across a finalization the record and the chain's totals move as written here, and nothing else does. */
  ghost predicate Closes(l: Ledger, m: Ledger, rid: Id, status: CallStatus, debit: real) {
    && rid in l.reservations && m.runs == l.runs
    && m.reservations == l.reservations[rid := l.reservations[rid].(status := status, spendUsd := debit)]
    && m.scopes.Keys == l.scopes.Keys
    && (forall id | id in l.scopes ::
          var limit := l.reservations[rid].callLimitUsd;
          m.scopes[id] == if id in l.reservations[rid].scopeIds
                          then l.scopes[id].(reservedUsd := l.scopes[id].reservedUsd - limit,
                                             spentUsd := l.scopes[id].spentUsd + debit)
                          else l.scopes[id])
  }

  /** What each outcome does to an outstanding call.  Settling and failing need a started call and a debit up to
      its limit and one slack; cancelling needs a call not yet started, and debits nothing. */
  lemma OutcomesOfACall(s: System, rid: Id, spend: real)
    requires Sound(s) && rid in s.ledger.reservations
    requires s.ledger.reservations[rid].status == Reserved || s.ledger.reservations[rid].status == Started
    ensures var l, r := s.ledger, s.ledger.reservations[rid];
            var fits := 0.0 <= spend <= r.callLimitUsd + SLACK;
            var settled, failed, cancelled :=
              Finalize(l, rid, r, Settle, spend), Finalize(l, rid, r, Fail, spend), Finalize(l, rid, r, Cancel, spend);
            && (settled.Ok? <==> r.status == Started && fits)
            && (failed.Ok? <==> r.status == Started && fits)
            && (cancelled.Ok? <==> r.status == Reserved)
            && (settled.Ok? ==> Closes(l, settled.value, rid, Settled, spend))
            && (failed.Ok? ==> Closes(l, failed.value, rid, CallFailed, spend))
            && (cancelled.Ok? ==> Closes(l, cancelled.value, rid, Cancelled, 0.0))
            && (r.status == Started ==> Finalize(l, rid, r, Fail, r.callLimitUsd).Ok?)
            && (settled.Err? && r.status == Started ==> settled.error == CapViolation)
            && (settled.Err? && r.status == Reserved ==> settled.error == InvalidState)
  {
    hide Sound, Finalize, Closes;
    var l, r := s.ledger, s.ledger.reservations[rid];
    LimitIsNotNegative(s, rid);
    forall outcome, amount
      ensures var done := Finalize(l, rid, r, outcome, amount);
              var debit, needed := if outcome == Cancel then 0.0 else amount, if outcome == Cancel then Reserved
                else Started;
              var left := if outcome == Settle then Settled else if outcome == Fail then CallFailed else Cancelled;
              && (done.Ok? <==> r.status == needed && 0.0 <= debit <= r.callLimitUsd + SLACK)
              && (done.Ok? ==> Closes(l, done.value, rid, left, debit))
              && (done.Err? ==> done.error == if r.status == needed then CapViolation else InvalidState)
    {
      FinalizingCloses(s, rid, outcome, amount);
    }
  }

  lemma LimitIsNotNegative(s: System, rid: Id)
    requires Sound(s) && rid in s.ledger.reservations
    ensures s.ledger.reservations[rid].callLimitUsd > 0.0
  {
    assert SoundReservation(s.ledger, s.ledger.reservations[rid]);
  }

  lemma FinalizingCloses(s: System, rid: Id, outcome: Outcome, amount: real)
    requires Sound(s) && rid in s.ledger.reservations
    requires s.ledger.reservations[rid].status == Reserved || s.ledger.reservations[rid].status == Started
    ensures var l, r := s.ledger, s.ledger.reservations[rid];
            var done := Finalize(l, rid, r, outcome, amount);
            var debit, needed := if outcome == Cancel then 0.0 else amount, if outcome == Cancel then Reserved
              else Started;
            var left := if outcome == Settle then Settled else if outcome == Fail then CallFailed else Cancelled;
            && (done.Ok? <==> r.status == needed && 0.0 <= debit <= r.callLimitUsd + SLACK)
            && (done.Ok? ==> Closes(l, done.value, rid, left, debit))
            && (done.Err? ==> done.error == if r.status == needed then CapViolation else InvalidState)
  {
    var l, r := s.ledger, s.ledger.reservations[rid];
    var debit := if outcome == Cancel then 0.0 else amount;
    assert SoundReservation(l, r);
    PathIsDistinct(l.scopes, r.scopeIds);
    ReleaseAllMeaning(l.scopes, r.runId, r.scopeIds, r.callLimitUsd, debit);
    if r.status == (if outcome == Cancel then Reserved else Started) {
      SettlementNeverConflicts(l, rid, r, outcome, debit);
    }
  }

  // ---------------------------------------------------------------- reading a chain

  ghost predicate AllActive(scopes: map<Id, Scope>, ids: seq<Id>) {
    ActiveUpTo(scopes, ids, |ids|)
  }

  ghost predicate ActiveUpTo(scopes: map<Id, Scope>, ids: seq<Id>, n: nat) {
    n <= |ids| && forall i | 0 <= i < n :: ids[i] in scopes && scopes[ids[i]].phase == Active
  }

  ghost predicate RowsAreFresh(l: Ledger, rows: seq<Row>) {
    forall row | row in rows :: row.id in l.scopes && row.seen == l.scopes[row.id]
  }

  /** The walk has read a path below position k and is about to read position k. */
  ghost predicate Climbing(l: Ledger, w: Walk, path: seq<Id>, k: nat) {
    && w.Walking? && k < |path|
    && w.at == path[k] && Ids(w.below) == path[k + 1..] && RowsAreFresh(l, w.below)
    && w.rootId == path[0] && path[0] in l.scopes && w.runId == l.scopes[path[0]].runId
  }

  lemma ClimbOne(l: Ledger, w: Walk, path: seq<Id>, k: nat)
    requires IsPath(l.scopes, path) && Distinct(path) && Climbing(l, w, path, k)
    ensures var next := WalkStep(l, w);
            if l.scopes[path[k]].phase != Active then next == Halted(ScopeNotActive)
            else if k > 0 then Climbing(l, next, path, k - 1)
            else next.Arrived? && Ids(next.chain) == path && RowsAreFresh(l, next.chain)
  {
    assert w.at !in path[k + 1..];
    var chain := [Row(w.at, l.scopes[w.at])] + w.below;
    assert Ids(chain) == path[k..];
    assert k > 0 ==> Linked(l.scopes, path, k);
  }

  lemma {:induction false} WalkUp(l: Ledger, w: Walk, path: seq<Id>, k: nat)
    requires IsPath(l.scopes, path) && Distinct(path) && Climbing(l, w, path, k)
    ensures var end := WalkAll(l, w);
            && (end.Arrived? <==> ActiveUpTo(l.scopes, path, k + 1))
            && (end.Arrived? ==> Ids(end.chain) == path && RowsAreFresh(l, end.chain))
    decreases k
  {
    var next := WalkStep(l, w);
    ClimbOne(l, w, path, k);
    WalkAllUnfolds(l, w);
    if next.Walking? {
      WalkUp(l, next, path, k - 1);
    } else {
      WalkAllUnfolds(l, next);
    }
  }

  lemma WalkAllUnfolds(l: Ledger, w: Walk)
    ensures WalkAll(l, w) == if w.Walking? then WalkAll(l, WalkStep(l, w)) else w
  {
    if w.Walking? { WalkAdvances(l, w); }
  }

  /** Reading a chain ends, at the exact root-to-leaf path, precisely when the run and every scope
      on that path are active; its cycle and foreign-root errors cannot occur. */
  lemma ReadChainFindsThePath(l: Ledger, runId: Id, scopeId: Id, path: seq<Id>)
    requires Consistent(l)
    requires scopeId in l.scopes ==> PathTo(l.scopes, path, scopeId)
    ensures var end := ReadChain(l, runId, scopeId);
            && (end.Arrived? <==>
                  runId in l.runs && l.runs[runId].phase == Active && scopeId in l.scopes
                  && l.scopes[scopeId].runId == runId && AllActive(l.scopes, path))
            && (end.Arrived? ==> Ids(end.chain) == path && RowsAreFresh(l, end.chain))
            && end != Halted(ScopeCycle) && end != Halted(ScopeNotInRun) && !end.Walking?
  {
    var w := StartWalk(l, runId, scopeId);
    WalkAllKeeps(l, w);
    if w.Walking? && scopeId in l.scopes && l.scopes[scopeId].runId == runId {
      assert path[|path|..] == [] && path[..|path|] == path;
      PathIsDistinct(l.scopes, path);
      assert IsRoot(l.runs, l.scopes, path[0]);
      WalkUp(l, w, path, |path| - 1);
    } else if w.Walking? {
      WalkAdvances(l, w);
      assert WalkAll(l, w) == WalkAll(l, WalkStep(l, w)) == Halted(ScopeMissing);
    }
  }

  /** A reservation on a chain just read is granted exactly when every scope of the chain has headroom. */
  lemma FreshReservationIsGranted(l: Ledger, runId: Id, scopeId: Id, limit: real, rid: Id)
    requires Consistent(l) && ReadChain(l, runId, scopeId).Arrived? && rid !in l.reservations
    ensures var ids := Ids(ReadChain(l, runId, scopeId).chain);
            Reserve(l, runId, ids, limit, rid).Ok? <==>
              forall i | 0 <= i < |ids| ::
                ids[i] in l.scopes
                && limit <= l.scopes[ids[i]].maxUsd - l.scopes[ids[i]].spentUsd - l.scopes[ids[i]].reservedUsd
  {
    var end := ReadChain(l, runId, scopeId);
    if w :| w == StartWalk(l, runId, scopeId) && w.Walking? { WalkAllKeeps(l, w); }
    assert SoundWalk(l, end);
    assert Rooted(l.scopes, scopeId);
    var path :| PathTo(l.scopes, path, scopeId);
    ReadChainFindsThePath(l, runId, scopeId, path);
    PathIsDistinct(l.scopes, path);
    HoldAllMeaning(l.scopes, path, limit);
    assert forall i | 0 <= i < |path| :: path[i] in l.scopes && l.scopes[path[i]].phase == Active;
  }

  // ---------------------------------------------------------------- closed scopes

  ghost predicate OpenBelow(l: Ledger, id: Id, rid: Id) {
    rid in l.reservations && id in l.reservations[rid].scopeIds && Open(l.reservations[rid].status)
  }

  /** Only a reservation transaction adds a call, and it needs every listed scope to be active. */
  lemma NewCallsNeedActiveScopes(s: System, a: Action, rid: Id, id: Id)
    requires Sound(s) && rid !in s.ledger.reservations
    requires rid in Apply(s, a).ledger.reservations && id in Apply(s, a).ledger.reservations[rid].scopeIds
    ensures id in s.ledger.scopes && s.ledger.scopes[id].phase == Active
  {
    hide Consistent;
    var l := s.ledger;
    assert a.ReserveCall?;
    CallerIsSound(s, a.caller);
    match CallerOf(s, a.caller) {
      case Reading(Arrived(runId, leaf, chain)) => ReservedScopesAreActive(l, runId, Ids(chain), a.callLimitUsd,
                                                                           a.reservationId, id);
      case _ =>
    }
  }

  lemma ReservedScopesAreActive(l: Ledger, runId: Id, ids: seq<Id>, limit: real, rid: Id, id: Id)
    requires IsPath(l.scopes, ids) && Reserve(l, runId, ids, limit, rid).Ok? && id in ids
    ensures id in l.scopes && l.scopes[id].phase == Active
  {
    hide HoldAll;
    PathIsDistinct(l.scopes, ids);
    HoldAllMeaning(l.scopes, ids, limit);
    var i :| 0 <= i < |ids| && ids[i] == id;
    assert CanHold(l.scopes, ids[i], limit);
  }

  lemma ClosedScopeRefuses(s: System, a: Action, id: Id, rid: Id)
    requires Sound(s) && id in s.ledger.scopes && s.ledger.scopes[id].phase != Active
    requires OpenBelow(Apply(s, a).ledger, id, rid)
    ensures OpenBelow(s.ledger, id, rid)
  {
    hide Apply, Sound;
    StepKeeps(s, a);
    var l, m := s.ledger, Apply(s, a).ledger;
    if rid in l.reservations {
      assert SameCall(l.reservations[rid], m.reservations[rid]);
    } else {
      NewCallsNeedActiveScopes(s, a, rid, id);
    }
  }

  /** Once a scope is closed, no call below it is ever opened again: the open calls that list it
      can only dwindle. */
  lemma {:induction false} ClosedScopeAdmitsNoCall(s: System, actions: seq<Action>, id: Id, rid: Id)
    requires Sound(s) && id in s.ledger.scopes && s.ledger.scopes[id].phase != Active
    requires OpenBelow(Execute(s, actions).ledger, id, rid)
    ensures OpenBelow(s.ledger, id, rid)
    decreases |actions|
  {
    if actions != [] {
      StepKeeps(s, actions[0]);
      ClosedScopeAdmitsNoCall(Apply(s, actions[0]), actions[1..], id, rid);
      ClosedScopeRefuses(s, actions[0], id, rid);
    }
  }

  // ---------------------------------------------------------------- what a scope's children may spend together

  ghost function MaximumOf(scopes: map<Id, Scope>): Id -> real {
    c => if c in scopes then scopes[c].maxUsd else 0.0
  }

  /** The sum of the maxima of a scope's children. */
  ghost function Granted(l: Ledger, id: Id): real {
    Tally(Children(l.scopes, id), MaximumOf(l.scopes))
  }

  ghost predicate ChildrenFit(l: Ledger, id: Id) {
    id in l.scopes ==> Granted(l, id) <= l.scopes[id].maxUsd
  }

  /** The maximum of the child that a step inserts below a scope. */
  ghost function ChildAdded(s: System, a: Action, id: Id): Option<real> {
    if !Admissible(a) || !a.AddScope? then None else
    match CallerOf(s, a.caller)
    case Reading(Arrived(runId, _, chain)) =>
      if chain != [] && chain[|chain| - 1].id == id && InsertScope(s.ledger, runId, chain, a.scopeId, a.budget).Ok?
      then Some(ChildMaximum(a.budget, chain[|chain| - 1].seen.maxUsd)) else None
    case _ => None
  }

  /** The step gives a new child no more than the scope's existing children leave of its maximum. */
  ghost predicate ChildFits(s: System, a: Action, id: Id) {
    ChildAdded(s, a, id).Some? && id in s.ledger.scopes ==>
      ChildAdded(s, a, id).value <= s.ledger.scopes[id].maxUsd - Granted(s.ledger, id)
  }

  ghost predicate EveryChildFits(s: System, actions: seq<Action>, id: Id)
    decreases |actions|
  {
    actions == [] || (ChildFits(s, actions[0], id) && EveryChildFits(Apply(s, actions[0]), actions[1..], id))
  }

  lemma NewScopeIsRootOrAdded(s: System, a: Action, c: Id, id: Id)
    requires Sound(s) && c in Apply(s, a).ledger.scopes && c !in s.ledger.scopes
    requires Apply(s, a).ledger.scopes[c].parent == Some(id)
    ensures a.AddScope? && a.scopeId == c && ChildAdded(s, a, id) == Some(Apply(s, a).ledger.scopes[c].maxUsd)
    ensures id in s.ledger.scopes
  {
    var l := s.ledger;
    CallerIsSound(s, a.caller);
    match CallerOf(s, a.caller)
    case Reading(Arrived(runId, leaf, chain)) =>
      PathIsDistinct(l.scopes, Ids(chain));
      if a.ReserveCall? { HoldAllMeaning(l.scopes, Ids(chain), a.callLimitUsd); }
    case Holding(rid, copy) =>
      assert SoundReservation(l, l.reservations[rid]);
      PathIsDistinct(l.scopes, copy.scopeIds);
      if a.FinalizeCall? {
        var debit := if a.outcome == Cancel then 0.0 else a.spendUsd;
        ReleaseAllMeaning(l.scopes, copy.runId, copy.scopeIds, copy.callLimitUsd, debit);
      }
    case _ =>
  }

  lemma ParentExists(l: Ledger, c: Id, id: Id)
    requires Tree(l.runs, l.scopes) && c in l.scopes && l.scopes[c].parent == Some(id)
    ensures id in l.scopes
  {
    assert Rooted(l.scopes, c);
    var path :| PathTo(l.scopes, path, c);
    LastParent(l.scopes, path);
  }

  lemma SameChildren(s: System, a: Action, id: Id)
    requires Sound(s) && ChildAdded(s, a, id).None?
    ensures Children(Apply(s, a).ledger.scopes, id) == Children(s.ledger.scopes, id)
  {
    hide Apply, ChildAdded, Sound;
    StepKeeps(s, a);
    var l, m := s.ledger, Apply(s, a).ledger;
    forall c
      ensures c in m.scopes && m.scopes[c].parent == Some(id) <==> c in l.scopes && l.scopes[c].parent == Some(id)
    {
      if c in l.scopes { assert SameScopeIdentity(l.scopes[c], m.scopes[c]); }
      if c in m.scopes && c !in l.scopes && m.scopes[c].parent == Some(id) { NewScopeIsRootOrAdded(s, a, c, id); }
    }
  }

  lemma SameMaxima(l: Ledger, m: Ledger, id: Id)
    requires Extends(l, m)
    ensures Tally(Children(l.scopes, id), MaximumOf(m.scopes)) == Granted(l, id)
  {
    var kids := Children(l.scopes, id);
    forall c | c in kids ensures MaximumOf(m.scopes)(kids[c]) == MaximumOf(l.scopes)(kids[c]) {
      assert SameScopeIdentity(l.scopes[c], m.scopes[c]);
    }
    TallySame(kids, MaximumOf(m.scopes), kids, MaximumOf(l.scopes));
  }

  /** A step adds to what the children of a scope may spend exactly the maximum of the child it inserts. */
  lemma StepGrants(s: System, a: Action, id: Id)
    requires Sound(s)
    ensures Granted(Apply(s, a).ledger, id)
              == Granted(s.ledger, id) + (if ChildAdded(s, a, id).Some? then ChildAdded(s, a, id).value else 0.0)
    ensures ChildAdded(s, a, id).Some? ==> ChildAdded(s, a, id).value > 0.0
  {
    hide Sound, Extends, Granted;
    StepKeeps(s, a);
    var l, m := s.ledger, Apply(s, a).ledger;
    SameMaxima(l, m, id);
    assert Granted(m, id) == Tally(Children(m.scopes, id), MaximumOf(m.scopes)) by { DefinesGranted(m, id); }
    if ChildAdded(s, a, id).Some? {
      var c := a.scopeId;
      ChildIsPositive(s, a, id);
      assert Children(m.scopes, id) == Children(l.scopes, id)[c := c];
      TallyPut(Children(l.scopes, id), c, c, MaximumOf(m.scopes));
    } else {
      SameChildren(s, a, id);
    }
  }

  lemma DefinesGranted(l: Ledger, id: Id)
    ensures Granted(l, id) == Tally(Children(l.scopes, id), MaximumOf(l.scopes))
  {
  }

  lemma ChildIsPositive(s: System, a: Action, id: Id)
    requires Sound(s) && ChildAdded(s, a, id).Some?
    ensures ChildAdded(s, a, id).value > 0.0
  {
    StepKeeps(s, a);
    assert Balanced(Apply(s, a).ledger, a.scopeId);
  }

  lemma NewScopeHasNoChildren(s: System, a: Action, id: Id)
    requires Sound(s) && id !in s.ledger.scopes
    ensures Granted(s.ledger, id) == 0.0 && ChildAdded(s, a, id).None?
  {
    forall c | c in s.ledger.scopes ensures s.ledger.scopes[c].parent != Some(id) {
      if s.ledger.scopes[c].parent == Some(id) { ParentExists(s.ledger, c, id); }
    }
    TallyZero(Children(s.ledger.scopes, id), MaximumOf(s.ledger.scopes));
    if a.AddScope? { CallerIsSound(s, a.caller); }
  }

  lemma ChildrenFitAfterStep(s: System, a: Action, id: Id)
    requires Sound(s)
    ensures ChildrenFit(Apply(s, a).ledger, id) <==> ChildrenFit(s.ledger, id) && ChildFits(s, a, id)
  {
    hide Apply, Granted, ChildAdded;
    StepKeeps(s, a);
    var l, m := s.ledger, Apply(s, a).ledger;
    StepGrants(s, a, id);
    if id in l.scopes {
      assert SameScopeIdentity(l.scopes[id], m.scopes[id]);
    } else {
      NewScopeHasNoChildren(s, a, id);
      assert id in m.scopes ==> Balanced(m, id);
    }
  }

  /** A run leaves the children of a scope within its maximum exactly when they were within it before and
      every child the run added was given no more than the children before it left over.  No other action
      matters, and no later one repairs it. */
  lemma {:induction false} ChildrenFitAfterRunIff(s: System, actions: seq<Action>, id: Id)
    requires Sound(s)
    ensures ChildrenFit(Execute(s, actions).ledger, id) <==>
              ChildrenFit(s.ledger, id) && EveryChildFits(s, actions, id)
    decreases |actions|
  {
    hide Apply, Sound, ChildFits, ChildrenFit;
    if actions != [] {
      StepKeeps(s, actions[0]);
      ChildrenFitAfterStep(s, actions[0], id);
      ChildrenFitAfterRunIff(Apply(s, actions[0]), actions[1..], id);
    }
  }

  // ---------------------------------------------------------------- what the checks do not prevent

  const RUN := Id(0)
  const ROOT := Id(1)
  const LEFT := Id(2)
  const RIGHT := Id(3)
  const CALL := Id(4)

  const ROOT_SCOPE := Scope(RUN, None, 1.0, 0.0, 0.0, Active)

  const OPENING := [OpenRun(RUN, ROOT, 1.0), BeginChain(0, RUN, ROOT), ReadRow(0)]

  /** One run with one dollar, and a caller that has read its chain. */
  const OPENED := System(
    Ledger(map[RUN := Run(ROOT, Active)], map[ROOT := ROOT_SCOPE], map[]),
    map[0 := Reading(Arrived(RUN, ROOT, [Row(ROOT, ROOT_SCOPE)]))])

  lemma ExecuteThree(s: System, a: Action, b: Action, c: Action)
    ensures Execute(s, [a, b, c]) == Apply(Apply(Apply(s, a), b), c)
  {
    hide Apply;
    assert [a, b, c][1..] == [b, c] && [b, c][1..] == [c] && [c][1..] == [];
    assert Execute(s, [a, b, c]) == Execute(Apply(s, a), [b, c]);
    assert Execute(Apply(s, a), [b, c]) == Execute(Apply(Apply(s, a), b), [c]);
  }

  lemma ExecuteTwo(s: System, a: Action, b: Action)
    ensures Execute(s, [a, b]) == Apply(Apply(s, a), b)
  {
    hide Apply;
    assert [a, b][1..] == [b] && [b][1..] == [];
    assert Execute(s, [a, b]) == Execute(Apply(s, a), [b]);
  }

  lemma OpeningReachesOpened()
    ensures Execute(START, OPENING) == OPENED
  {
    ExecuteThree(START, OPENING[0], OPENING[1], OPENING[2]);
    var s1 := Apply(START, OPENING[0]);
    assert s1 == System(OPENED.ledger, map[]);
    var s2 := Apply(s1, OPENING[1]);
    assert s2 == System(OPENED.ledger, map[0 := Reading(Walking(RUN, ROOT, ROOT, ROOT, []))]);
    assert [Row(ROOT, ROOT_SCOPE)] + [] == [Row(ROOT, ROOT_SCOPE)];
    assert Apply(s2, OPENING[2]) == OPENED;
  }

  /** Two children may each be given the parent's whole maximum. */
  lemma ChildrenMayOversubscribe()
    ensures exists actions :: var l := Execute(START, actions).ledger;
              && ROOT in l.scopes && LEFT in l.scopes && RIGHT in l.scopes
              && l.scopes[LEFT].parent == Some(ROOT) && l.scopes[RIGHT].parent == Some(ROOT)
              && l.scopes[LEFT].maxUsd + l.scopes[RIGHT].maxUsd > l.scopes[ROOT].maxUsd
  {
    hide Execute;
    var left, right := AddScope(0, LEFT, Fraction(1.0)), AddScope(0, RIGHT, Fraction(1.0));
    OpeningReachesOpened();
    RunConcat(START, OPENING, [left, right]);
    ExecuteTwo(OPENED, left, right);
    var s1 := Apply(OPENED, left);
    assert s1.ledger.scopes == map[ROOT := ROOT_SCOPE, LEFT := Scope(RUN, Some(ROOT), 1.0, 0.0, 0.0, Active)];
    var s2 := Apply(s1, right);
    assert Execute(START, OPENING + [left, right]) == s2;
  }

  /** The check that precedes finishing a scope is a step of its own: a call reserved in between
      leaves a finished scope with an open call below it. */
  lemma FinishedScopeMayHoldAnOpenCall()
    ensures exists actions :: var l := Execute(START, actions).ledger;
              && ROOT in l.scopes && l.scopes[ROOT].phase == Completed
              && OpenBelow(l, ROOT, CALL)
  {
    hide Execute;
    var check, reserve, finish := CheckScope(1, RUN, ROOT), ReserveCall(0, 1.0, CALL), FinishScope(1, Completed);
    OpeningReachesOpened();
    RunConcat(START, OPENING, [check, reserve, finish]);
    ExecuteThree(OPENED, check, reserve, finish);
    var s1 := Apply(OPENED, check);
    assert s1 == OPENED.(callers := OPENED.callers[1 := ScopeChecked(RUN, ROOT)]);
    var s2 := Apply(s1, reserve);
    ReservingTheRoot(1.0);
    assert s2 == s1.(ledger := ReservedRoot(1.0));
    var s3 := Apply(s2, finish);
    assert s3.ledger == s2.ledger.(scopes := map[ROOT := s2.ledger.scopes[ROOT].(phase := Completed)]);
    assert Execute(START, OPENING + [check, reserve, finish]) == s3;
  }

  /** The opened ledger once a call for the root has reserved its limit. */
  function ReservedRoot(limit: real): Ledger {
    Ledger(map[RUN := Run(ROOT, Active)], map[ROOT := ROOT_SCOPE.(reservedUsd := limit)],
           map[CALL := Reservation(RUN, [ROOT], limit, Reserved, 0.0)])
  }

  lemma ReservingTheRoot(limit: real)
    requires limit <= 1.0
    ensures Ids([Row(ROOT, ROOT_SCOPE)]) == [ROOT]
    ensures Reserve(OPENED.ledger, RUN, [ROOT], limit, CALL) == Ok(ReservedRoot(limit))
  {
    var scopes := OPENED.ledger.scopes;
    assert CanHold(scopes, ROOT, limit);
    assert [ROOT][1..] == [];
    assert scopes[ROOT := Hold(scopes[ROOT], limit)] == ReservedRoot(limit).scopes;
    assert HoldAll(scopes, [ROOT], limit) == Ok(ReservedRoot(limit).scopes);
  }

  /** A started call with any limit up to the run's dollar is reachable. */
  lemma StartedCallIsReachable(limit: real)
    requires 0.0 < limit <= 1.0
    ensures exists actions :: var m := Execute(START, actions).ledger.reservations;
              CALL in m && m[CALL] == Reservation(RUN, [ROOT], limit, Started, 0.0)
  {
    hide Execute;
    var reserve, load, start := ReserveCall(0, limit, CALL), LoadReservation(0, Claim(RUN, ROOT, CALL, limit)),
      StartCall(0);
    OpeningReachesOpened();
    RunConcat(START, OPENING, [reserve, load, start]);
    ExecuteThree(OPENED, reserve, load, start);
    ReservingTheRoot(limit);
    var s1 := Apply(OPENED, reserve);
    assert s1 == OPENED.(ledger := ReservedRoot(limit));
    var s2 := Apply(s1, load);
    assert s2.ledger == s1.ledger && CallerOf(s2, 0) == Holding(CALL, Reservation(RUN, [ROOT], limit, Reserved, 0.0));
    assert Execute(START, OPENING + [reserve, load, start]) == Apply(s2, start);
  }

  // ---------------------------------------------------------------- which calls stay open

  /** The step is a reservation transaction that succeeds, under rid, on a chain holding id. */
  ghost predicate Reserves(s: System, a: Action, id: Id, rid: Id) {
    Admissible(a) && a.ReserveCall? && a.reservationId == rid &&
    match CallerOf(s, a.caller)
    case Reading(Arrived(runId, _, chain)) =>
      id in Ids(chain) && Reserve(s.ledger, runId, Ids(chain), a.callLimitUsd, rid).Ok?
    case _ => false
  }

  ghost predicate ReservedDuring(s: System, actions: seq<Action>, id: Id, rid: Id)
    decreases |actions|
  {
    actions != [] && (Reserves(s, actions[0], id, rid) || ReservedDuring(Apply(s, actions[0]), actions[1..], id, rid))
  }

  lemma StepOpensOrFinalizes(s: System, a: Action, id: Id, rid: Id)
    requires Sound(s)
    ensures OpenBelow(Apply(s, a).ledger, id, rid) <==>
              (OpenBelow(s.ledger, id, rid) && !IsFinal(Apply(s, a).ledger, rid)) || Reserves(s, a, id, rid)
  {
    var l, m := s.ledger, Apply(s, a).ledger;
    StepKeeps(s, a);
    if rid in l.reservations {
      assert SameCall(l.reservations[rid], m.reservations[rid]);
    } else if Admissible(a) && a.FinalizeCall? {
      CallerIsSound(s, a.caller);
    }
  }

  /** After any run the calls open below a scope are those that were open before, or that a reservation of
      the run put there, and that no step of the run finalized. */
  lemma {:induction false} OpenAfterRunIff(s: System, actions: seq<Action>, id: Id, rid: Id)
    requires Sound(s)
    ensures OpenBelow(Execute(s, actions).ledger, id, rid) <==>
              (OpenBelow(s.ledger, id, rid) || ReservedDuring(s, actions, id, rid))
              && Finalizations(s, actions, rid) == 0
    decreases |actions|
  {
    hide Apply, Sound, Reserves;
    FinalizedAtMostOnce(s, actions, rid);
    if actions != [] {
      var t := Apply(s, actions[0]);
      StepKeeps(s, actions[0]);
      StepOpensOrFinalizes(s, actions[0], id, rid);
      OpenAfterRunIff(t, actions[1..], id, rid);
    }
  }

  /** A scope is finished when a check found no unsettled call below it and a later update closed it.  A call
      is open below the finished scope exactly when a reservation between the two succeeded on a chain that
      holds the scope, and nothing finalized the call before the update. */
  lemma FinishedScopeHoldsOpenCallIff(
    s: System, c: int, runId: Id, id: Id, between: seq<Action>, phase: Phase, rid: Id)
    requires Sound(s) && !UnfinishedBelow(s.ledger, runId, id) && phase != Active
    requires var t := Execute(Apply(s, CheckScope(c, runId, id)), between);
             CallerOf(t, c) == ScopeChecked(runId, id) && CloseScope(t.ledger, runId, id, phase).Ok?
    ensures var checked := Apply(s, CheckScope(c, runId, id));
            var finished := Execute(checked, between + [FinishScope(c, phase)]).ledger;
            && id in finished.scopes && finished.scopes[id].phase == phase
            && (OpenBelow(finished, id, rid) <==>
                  ReservedDuring(checked, between, id, rid) && Finalizations(checked, between, rid) == 0)
  {
    hide Finalizations, ReservedDuring, OpenBelow, UnfinishedBelow, Sound;
    var checked := Apply(s, CheckScope(c, runId, id));
    StepKeeps(s, CheckScope(c, runId, id));
    var t := Execute(checked, between);
    RunConcat(checked, between, [FinishScope(c, phase)]);
    assert [FinishScope(c, phase)][1..] == [];
    var u := Apply(t, FinishScope(c, phase));
    assert Execute(t, [FinishScope(c, phase)]) == u;
    OpenAfterRunIff(checked, between, id, rid);
    RunKeeps(checked, between);
    CheckedMeansNoneOpen(checked, t.ledger, runId, id, rid);
    OpenByReservations(t.ledger, u.ledger, id, rid);
  }

  lemma OpenByReservations(l: Ledger, m: Ledger, id: Id, rid: Id)
    requires l.reservations == m.reservations
    ensures OpenBelow(l, id, rid) == OpenBelow(m, id, rid)
  {
  }

  lemma CheckedMeansNoneOpen(s: System, m: Ledger, runId: Id, id: Id, rid: Id)
    requires Sound(s) && Extends(s.ledger, m) && !UnfinishedBelow(s.ledger, runId, id)
    requires id in m.scopes && m.scopes[id].runId == runId
    ensures !OpenBelow(s.ledger, id, rid)
  {
    hide Extends;
    var l := s.ledger;
    if rid in l.reservations && id in l.reservations[rid].scopeIds {
      CallBelongsToRun(s, m, id, rid);
    }
  }

  lemma CallBelongsToRun(s: System, m: Ledger, id: Id, rid: Id)
    requires Sound(s) && Extends(s.ledger, m)
    requires rid in s.ledger.reservations && id in s.ledger.reservations[rid].scopeIds
    ensures id in m.scopes && m.scopes[id].runId == s.ledger.reservations[rid].runId
  {
    assert SoundReservation(s.ledger, s.ledger.reservations[rid]);
    assert SameScopeIdentity(s.ledger.scopes[id], m.scopes[id]);
  }
}
