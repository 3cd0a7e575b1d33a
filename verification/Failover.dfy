/** Switching a reserved call to the next model of its ranking when a provider refuses it. */
module Failover {
  import opened Basics
  import opened Models
  import opened Routing
  import C = Compaction
  import L = ControllerLedger
  import G = GlobalController

  // ---------------------------------------------------------------- what is left of a list

  /** The first list is what is left of the second after dropping some of its items. */
  predicate Subsequence<T(==)>(a: seq<T>, b: seq<T>)
    decreases |b|
  {
    if a == [] then true
    else if b == [] then false
    else if a[0] == b[0] then Subsequence(a[1..], b[1..])
    else Subsequence(a, b[1..])
  }

  lemma {:induction false} Reflexive<T>(a: seq<T>)
    ensures Subsequence(a, a)
    decreases |a|
  {
    if a != [] { Reflexive(a[1..]); }
  }

  lemma {:induction false} ShorterAndSmaller<T>(a: seq<T>, b: seq<T>)
    requires Subsequence(a, b)
    ensures |a| <= |b| && forall x | x in a :: x in b
    decreases |b|
  {
    if a != [] {
      if a[0] == b[0] {
        ShorterAndSmaller(a[1..], b[1..]);
        assert a == [a[0]] + a[1..];
      } else {
        ShorterAndSmaller(a, b[1..]);
      }
    }
  }

  /** Dropping the head of the shorter list keeps it a subsequence. */
  lemma {:induction false} DropHead<T>(a: seq<T>, b: seq<T>)
    requires a != [] && Subsequence(a, b)
    ensures Subsequence(a[1..], b)
    decreases |b|
  {
    if a[0] == b[0] {
      if a[1..] != [] && a[1] != b[0] {
      } else if a[1..] != [] {
        DropHead(a[1..], b[1..]);
      }
    } else {
      DropHead(a, b[1..]);
      if a[1..] != [] && a[1] == b[0] { DropHead(a[1..], b[1..]); }
    }
  }

  lemma {:induction false} Extend<T>(a: seq<T>, b: seq<T>, x: T)
    requires Subsequence(a, b)
    ensures Subsequence(a, [x] + b)
  {
    assert ([x] + b)[1..] == b;
    if a != [] && a[0] == x { DropHead(a, b); }
  }

  lemma {:induction false} Transitive<T>(a: seq<T>, b: seq<T>, c: seq<T>)
    requires Subsequence(a, b) && Subsequence(b, c)
    ensures Subsequence(a, c)
    decreases |c|
  {
    if a != [] {
      ShorterAndSmaller(a, b);
      if b[0] == c[0] {
        if a[0] == b[0] {
          Transitive(a[1..], b[1..], c[1..]);
        } else {
          Transitive(a, b[1..], c[1..]);
        }
      } else {
        Transitive(a, b, c[1..]);
        assert [c[0]] + c[1..] == c;
        Extend(a, c[1..], c[0]);
      }
    }
  }

  lemma {:induction false} SamePrefix<T>(p: seq<T>, a: seq<T>, b: seq<T>)
    requires Subsequence(a, b)
    ensures Subsequence(p + a, p + b)
    decreases |p|
  {
    if p == [] {
      assert p + a == a && p + b == b;
    } else {
      assert (p + a)[1..] == p[1..] + a && (p + b)[1..] == p[1..] + b;
      SamePrefix(p[1..], a, b);
    }
  }

  lemma {:induction false} Prefix<T>(p: seq<T>, a: seq<T>)
    ensures Subsequence(p, p + a)
    decreases |p|
  {
    if p != [] {
      assert (p + a)[1..] == p[1..] + a;
      Prefix(p[1..], a);
    }
  }

  lemma {:induction false} KeepsDistinct<T>(a: seq<T>, b: seq<T>)
    requires Subsequence(a, b) && forall i, j | 0 <= i < j < |b| :: b[i] != b[j]
    ensures forall i, j | 0 <= i < j < |a| :: a[i] != a[j]
    decreases |b|
  {
    if a != [] {
      if a[0] == b[0] {
        KeepsDistinct(a[1..], b[1..]);
        ShorterAndSmaller(a[1..], b[1..]);
        forall j | 0 < j < |a| ensures a[j] != a[0] {
          assert a[j] == a[1..][j - 1] && a[j] in a[1..] && a[j] in b[1..];
          var k :| 0 <= k < |b[1..]| && b[1..][k] == a[j];
          assert b[k + 1] == a[j];
        }
      } else {
        KeepsDistinct(a, b[1..]);
      }
    }
  }

  // ---------------------------------------------------------------- prepared calls

  datatype PreparedCall<D> = PreparedCall(
    budget: CallBudget,
    contextTokens: nat,
    cache: CacheAnalysis<D>,
    compaction: C.CompactionResult,
    model: ModelDecision,
    alternatives: seq<ModelDecision>,
    provider: ProviderPlan,
    preparationMs: nat)
  {
    predicate Valid() {
      && model.candidate.Valid() && provider.modelId == model.candidate.modelId
      && forall i | 0 <= i < |alternatives| :: alternatives[i].candidate.Valid()
    }

    function Ranking(): seq<ModelDecision> {
      [model] + alternatives
    }
  }

  function ModelIds(ds: seq<ModelDecision>): (ids: seq<string>)
    ensures |ids| == |ds| && forall i | 0 <= i < |ds| :: ids[i] == ds[i].candidate.modelId
  {
    seq(|ds|, i requires 0 <= i < |ds| => ds[i].candidate.modelId)
  }

  /** What a switch to another model may not touch. */
  predicate SameCall<D(==)>(p: PreparedCall<D>, q: PreparedCall<D>) {
    && p.budget == q.budget && p.contextTokens == q.contextTokens && p.cache == q.cache && p.compaction == q.compaction
    && p.preparationMs == q.preparationMs
  }

  function FirstAllowed(ds: seq<ModelDecision>, excluded: set<string>): Option<ModelDecision>
    decreases |ds|
  {
    if ds == [] then None
    else if ds[0].candidate.modelId !in excluded then Some(ds[0])
    else FirstAllowed(ds[1..], excluded)
  }

  /** The other models that are still allowed, in ranking order. */
  function StillAllowed(ds: seq<ModelDecision>, chosen: string, excluded: set<string>): seq<ModelDecision>
    decreases |ds|
  {
    if ds == [] then []
    else if ds[0].candidate.modelId != chosen && ds[0].candidate.modelId !in excluded then
      [ds[0]] + StillAllowed(ds[1..], chosen, excluded)
    else StillAllowed(ds[1..], chosen, excluded)
  }

  lemma {:induction false} AllowedAre(ds: seq<ModelDecision>, chosen: string, excluded: set<string>)
    ensures forall d :: d in StillAllowed(ds, chosen, excluded) <==>
              d in ds && d.candidate.modelId != chosen && d.candidate.modelId !in excluded
    decreases |ds|
  {
    if ds != [] {
      AllowedAre(ds[1..], chosen, excluded);
      assert ds == [ds[0]] + ds[1..];
    }
  }

  lemma {:induction false} AllowedIsSubsequence(ds: seq<ModelDecision>, chosen: string, excluded: set<string>)
    ensures Subsequence(StillAllowed(ds, chosen, excluded), ds)
    decreases |ds|
  {
    if ds != [] {
      AllowedIsSubsequence(ds[1..], chosen, excluded);
      var rest := StillAllowed(ds[1..], chosen, excluded);
      assert [ds[0]] + ds[1..] == ds;
      if ds[0].candidate.modelId != chosen && ds[0].candidate.modelId !in excluded {
        assert ([ds[0]] + rest)[1..] == rest;
      } else {
        Extend(rest, ds[1..], ds[0]);
      }
    }
  }

  /** The chosen model followed by what stays allowed is a subsequence of the ranking. */
  lemma {:induction false} SwitchIsSubsequence(ds: seq<ModelDecision>, excluded: set<string>)
    requires FirstAllowed(ds, excluded).Some?
    ensures var d := FirstAllowed(ds, excluded).value;
            && d in ds && d.candidate.modelId !in excluded
            && Subsequence([d] + StillAllowed(ds, d.candidate.modelId, excluded), ds)
    decreases |ds|
  {
    var d := FirstAllowed(ds, excluded).value;
    if ds[0].candidate.modelId !in excluded {
      AllowedIsSubsequence(ds[1..], d.candidate.modelId, excluded);
      var rest := StillAllowed(ds[1..], d.candidate.modelId, excluded);
      assert ([d] + rest)[1..] == rest;
    } else {
      SwitchIsSubsequence(ds[1..], excluded);
      assert [ds[0]] + ds[1..] == ds;
      Extend([d] + StillAllowed(ds[1..], d.candidate.modelId, excluded), ds[1..], ds[0]);
    }
  }

  lemma {:induction false} IdsOfSubsequence(a: seq<ModelDecision>, b: seq<ModelDecision>)
    requires Subsequence(a, b)
    ensures Subsequence(ModelIds(a), ModelIds(b))
    decreases |b|
  {
    if a != [] {
      assert ModelIds(b)[1..] == ModelIds(b[1..]) && ModelIds(a)[1..] == ModelIds(a[1..]);
      assert [ModelIds(b)[0]] + ModelIds(b)[1..] == ModelIds(b);
      if a[0] == b[0] {
        IdsOfSubsequence(a[1..], b[1..]);
      } else {
        IdsOfSubsequence(a, b[1..]);
        Extend(ModelIds(a), ModelIds(b[1..]), ModelIds(b)[0]);
      }
    }
  }

  lemma {:induction false} FirstAllowedIsFirst(ds: seq<ModelDecision>, excluded: set<string>)
    ensures FirstAllowed(ds, excluded).None? <==> forall i | 0 <= i < |ds| :: ds[i].candidate.modelId in excluded
    ensures FirstAllowed(ds, excluded).Some? ==>
              exists k | 0 <= k < |ds| :: ds[k] == FirstAllowed(ds, excluded).value && AllExcluded(ds[..k], excluded)
    decreases |ds|
  {
    if ds != [] && ds[0].candidate.modelId in excluded {
      FirstAllowedIsFirst(ds[1..], excluded);
      if FirstAllowed(ds, excluded).Some? {
        var k :| 0 <= k < |ds[1..]| && ds[1..][k] == FirstAllowed(ds, excluded).value
                 && AllExcluded(ds[1..][..k], excluded);
        assert ds[..k + 1] == [ds[0]] + ds[1..][..k];
        assert ds[k + 1] == FirstAllowed(ds, excluded).value && AllExcluded(ds[..k + 1], excluded);
      } else {
        forall i | 0 <= i < |ds| ensures ds[i].candidate.modelId in excluded {
          if i > 0 { assert ds[1..][i - 1] == ds[i]; }
        }
      }
    } else if ds != [] {
      assert ds[..0] == [];
    }
  }

  predicate AllExcluded(ds: seq<ModelDecision>, excluded: set<string>) {
    forall i | 0 <= i < |ds| :: ds[i].candidate.modelId in excluded
  }

  datatype Fault = NoModelLeft | NoTimeLeft

  /** Moves a call to its next allowed model: the first one in the ranking that is not excluded.  Only the
      model, its alternatives and the provider plan change. */
  method Reroute<D(!new, ==)>(p: PreparedCall<D>, excluded: set<string>, additionalMs: nat, policy: OperatingPolicy)
    returns (q: Result<PreparedCall<D>, Fault>)
    requires p.Valid() && policy.Valid() && p.model.candidate.modelId in excluded
    ensures q.Ok? ==>
              && SameCall(p, q.value) && q.value.Valid()
              && q.value.model.candidate.modelId !in excluded
              && (exists k | 0 <= k < |p.alternatives| ::
                    p.alternatives[k] == q.value.model && AllExcluded(p.alternatives[..k], excluded))
              && Subsequence(q.value.Ranking(), p.alternatives)
              && (forall d :: d in q.value.alternatives <==>
                    && d in p.alternatives && d.candidate.modelId !in excluded
                    && d.candidate.modelId != q.value.model.candidate.modelId)
              && q.value.alternatives == StillAllowed(p.alternatives, q.value.model.candidate.modelId, excluded)
    ensures q.Ok? ==> FirstAllowed(p.alternatives, excluded) == Some(q.value.model)
    ensures q == Err(NoModelLeft) <==> AllExcluded(p.alternatives, excluded)
    ensures q == Err(NoTimeLeft) <==>
              !AllExcluded(p.alternatives, excluded) && TimeIsUp(p.budget, policy, p.preparationMs + additionalMs)
  {
    FirstAllowedIsFirst(p.alternatives, excluded);
    var next := FirstAllowed(p.Ranking(), excluded);
    if next.None? { return Err(NoModelLeft); }
    var d := next.value;
    assert p.Ranking()[1..] == p.alternatives;
    SwitchIsSubsequence(p.alternatives, excluded);
    AllowedAre(p.alternatives, d.candidate.modelId, excluded);
    AllowedIsSubsequence(p.alternatives, d.candidate.modelId, excluded);
    ShorterAndSmaller(StillAllowed(p.alternatives, d.candidate.modelId, excluded), p.alternatives);
    var plan := Plan(d, p.cache, p.budget, p.contextTokens, policy, p.preparationMs + additionalMs);
    if plan.Err? { return Err(NoTimeLeft); }
    var remaining := StillAllowed(p.Ranking(), d.candidate.modelId, excluded);
    assert remaining == StillAllowed(p.alternatives, d.candidate.modelId, excluded);
    var moved := p.(model := d, alternatives := remaining, provider := plan.value);
    forall i | 0 <= i < |remaining| ensures remaining[i].candidate.Valid() {
      assert remaining[i] in p.alternatives;
    }
    return Ok(moved);
  }

  // ---------------------------------------------------------------- the failover loop

  /** The status of a refusal; an answer with a lower one is a delivery. */
  type FailureStatus = status: nat | status >= 400 witness 400

  datatype Answer = Delivers | Refuses(status: FailureStatus) | Breaks

  /** What the surroundings do at each attempt: the provider's answer, which models are cooling down when
      the alternatives are counted and when one is chosen, the clock, and whether writing a log record fails
      before or after the switch. */
  datatype World = World(
    answer: nat -> Answer,
    coolingWhenCounted: nat -> set<string>,
    coolingWhenChosen: nat -> set<string>,
    elapsedMs: nat -> nat,
    recordFails: nat -> bool,
    switchRecordFails: nat -> bool)

  const TERMINAL_STATUSES: set<nat> := {401, 402}

  function Selectable(ds: seq<ModelDecision>, cooling: set<string>): nat
    decreases |ds|
  {
    if ds == [] then 0 else (if ds[0].candidate.modelId in cooling then 0 else 1) + Selectable(ds[1..], cooling)
  }

  predicate ShouldReroute(status: nat, attempt: nat, maxAttempts: nat) {
    status >= 400 && status !in TERMINAL_STATUSES && attempt < maxAttempts
  }

  /** How the attempts ended.  Only `Refused` reports the failure itself; the others raise. */
  datatype Ending = Delivered | Refused(status: FailureStatus) | Broke | CannotReroute(fault: Fault)

  // What the next attempt depends on, read off the ranking, the attempts so far and the surroundings.

  /** The models that were cooling down at one of the switches before attempt n. */
  function CooledBefore(world: World, n: nat): set<string> {
    if n <= 1 then {} else CooledBefore(world, n - 1) + world.coolingWhenChosen(n - 1)
  }

  function Without(ds: seq<ModelDecision>, ids: set<string>): seq<ModelDecision>
    decreases |ds|
  {
    if ds == [] then []
    else if ds[0].candidate.modelId in ids then Without(ds[1..], ids)
    else [ds[0]] + Without(ds[1..], ids)
  }

  /** The alternatives that were neither tried nor cooling down at an earlier switch, in ranking order. */
  function Remaining<D>(p: PreparedCall<D>, world: World, tried: seq<string>): seq<ModelDecision> {
    Without(p.alternatives, (set id | id in tried) + CooledBefore(world, |tried|))
  }

  /** The last attempt was refused in a way that another model may repair, and some remaining model is not
      cooling down. */
  predicate MayReroute<D>(p: PreparedCall<D>, world: World, tried: seq<string>) {
    var n := |tried|;
    && world.answer(n).Refuses? && world.answer(n).status != 401 && world.answer(n).status != 402
    && exists d | d in Remaining(p, world, tried) :: d.candidate.modelId !in world.coolingWhenCounted(n)
  }

  /** Every remaining model is cooling down when the switch is made. */
  predicate NoneToChoose<D>(p: PreparedCall<D>, world: World, tried: seq<string>) {
    forall d | d in Remaining(p, world, tried) :: d.candidate.modelId in world.coolingWhenChosen(|tried|)
  }

  predicate TooLate<D>(p: PreparedCall<D>, policy: OperatingPolicy, world: World, n: nat) {
    TimeIsUp(p.budget, policy, p.preparationMs + world.elapsedMs(n))
  }

  /** After this attempt the loop goes on with the given model. */
  ghost predicate MovesTo<D>(p: PreparedCall<D>, policy: OperatingPolicy, world: World, tried: seq<string>,
                             next: string)
  {
    var n := |tried|;
    && MayReroute(p, world, tried) && !world.recordFails(n) && !TooLate(p, policy, world, n)
    && !world.switchRecordFails(n) && !NoneToChoose(p, world, tried)
    && FirstAllowed(Remaining(p, world, tried), world.coolingWhenChosen(n)).Some?
    && next == FirstAllowed(Remaining(p, world, tried), world.coolingWhenChosen(n)).value.candidate.modelId
  }

  /** Exactly when the attempts end in which way: n is the last attempt. */
  ghost predicate EndsAs<D>(
    p: PreparedCall<D>, policy: OperatingPolicy, world: World, tried: seq<string>, ending: Ending)
  {
    var n := |tried|;
    var switching := MayReroute(p, world, tried) && !world.recordFails(n);
    && (ending == Delivered <==> world.answer(n) == Delivers)
    && (ending.Refused? <==> world.answer(n).Refuses? && !world.recordFails(n) && !MayReroute(p, world, tried))
    && (ending.Refused? ==> world.answer(n) == Refuses(ending.status))
    && (ending == CannotReroute(NoModelLeft) <==> switching && NoneToChoose(p, world, tried))
    && (ending == CannotReroute(NoTimeLeft) <==>
          switching && !NoneToChoose(p, world, tried) && TooLate(p, policy, world, n))
    && (ending == Broke <==>
          || world.answer(n) == Breaks
          || (world.answer(n).Refuses? && world.recordFails(n))
          || (switching && !NoneToChoose(p, world, tried) && !TooLate(p, policy, world, n)
              && world.switchRecordFails(n)))
  }

  /** The attempts are those the loop makes: it starts with the chosen model, and goes on as MovesTo says. */
  ghost predicate Attempts<D>(p: PreparedCall<D>, policy: OperatingPolicy, world: World, tried: seq<string>) {
    && tried != [] && tried[0] == p.model.candidate.modelId
    && forall k | 1 <= k < |tried| :: MovesTo(p, policy, world, tried[..k], tried[k])
  }

  /** Tries the ranked models one after another. */
  method Cascade<D(!new, ==)>(prepared: PreparedCall<D>, policy: OperatingPolicy, world: World)
    returns (ending: Ending, current: PreparedCall<D>, tried: seq<string>)
    requires prepared.Valid() && policy.Valid() && Distinct(ModelIds(prepared.Ranking()))
    ensures SameCall(prepared, current) && current.Valid() && Subsequence(current.Ranking(), prepared.Ranking())
    ensures 1 <= |tried| <= 1 + |prepared.alternatives|
    ensures Distinct(tried) && Subsequence(tried, ModelIds(prepared.Ranking()))
    ensures Attempts(prepared, policy, world, tried) && EndsAs(prepared, policy, world, tried, ending)
    ensures ending.Delivered? ==> current.model.candidate.modelId == tried[|tried| - 1]
  {
    hide Subsequence, Selectable, FirstAllowed, StillAllowed, AllExcluded, Distinct, ModelIds, Remaining, MayReroute,
         NoneToChoose, MovesTo, TimeIsUp, Attempts, Without;
    assert Attempts(prepared, policy, world, [prepared.model.candidate.modelId])
      by { FirstAttempt(prepared, policy, world); }
    current := prepared;
    var attempt := 1;
    var attempted: set<string> := {};
    tried := [prepared.model.candidate.modelId];
    StartOfRanking(prepared);
    Reflexive(prepared.Ranking());
    AllRemain(prepared, world);
    while true
      invariant attempt == |tried| && SameCall(prepared, current) && current.Valid()
      invariant attempted + {current.model.candidate.modelId} == set id | id in tried
      invariant current.alternatives == Remaining(prepared, world, tried)
      invariant Subsequence(current.Ranking(), prepared.Ranking())
      invariant current.model.candidate.modelId == tried[|tried| - 1]
      invariant Subsequence(tried + ModelIds(current.alternatives), ModelIds(prepared.Ranking()))
      invariant Attempts(prepared, policy, world, tried)
      decreases |current.alternatives|
    {
      Finish(tried, ModelIds(current.alternatives), ModelIds(prepared.Ranking()));
      ReroutesIff(prepared, world, tried);
      match world.answer(attempt) {
        case Delivers => return Delivered, current, tried;
        case Breaks => return Broke, current, tried;
        case Refuses(status) =>
          var alternatives := Selectable(current.alternatives, world.coolingWhenCounted(attempt));
          if !ShouldReroute(status, attempt, attempt + alternatives) {
            ending := if world.recordFails(attempt) then Broke else Refused(status);
            return ending, current, tried;
          }
          attempted := attempted + {current.model.candidate.modelId};
          if world.recordFails(attempt) { return Broke, current, tried; }
          var moved := Reroute(current, attempted + world.coolingWhenChosen(attempt), world.elapsedMs(attempt), policy);
          ExcludesLikeCooling(prepared, world, tried, attempted);
          if moved.Err? {
            assert moved.error == NoModelLeft <==> NoneToChoose(prepared, world, tried);
            assert moved.error == NoTimeLeft ==> TooLate(prepared, policy, world, attempt);
            return CannotReroute(moved.error), current, tried;
          }
          MoveOn(tried, current, moved.value, prepared.Ranking());
          RemainingAfter(prepared, world, tried, attempted, moved.value.model.candidate.modelId);
          current := moved.value;
          if world.switchRecordFails(attempt) { return Broke, current, tried; }
          Moves(prepared, policy, world, tried, current.model);
          Continues(prepared, policy, world, tried, current.model.candidate.modelId);
          tried := tried + [current.model.candidate.modelId];
          attempt := attempt + 1;
      }
    }
  }

  lemma {:induction false} SelectableCounts(ds: seq<ModelDecision>, cooling: set<string>)
    ensures Selectable(ds, cooling) > 0 <==> exists d | d in ds :: d.candidate.modelId !in cooling
    decreases |ds|
  {
    if ds != [] {
      SelectableCounts(ds[1..], cooling);
      assert ds == [ds[0]] + ds[1..];
    }
  }

  lemma ReroutesIff<D>(p: PreparedCall<D>, world: World, tried: seq<string>)
    ensures var n := |tried|;
            MayReroute(p, world, tried) <==>
              && world.answer(n).Refuses?
              && ShouldReroute(world.answer(n).status, n,
                               n + Selectable(Remaining(p, world, tried), world.coolingWhenCounted(n)))
  {
    hide Remaining;
    SelectableCounts(Remaining(p, world, tried), world.coolingWhenCounted(|tried|));
  }

  lemma {:induction false} WithoutAbsent(ds: seq<ModelDecision>, ids: set<string>)
    requires forall d | d in ds :: d.candidate.modelId !in ids
    ensures Without(ds, ids) == ds
    decreases |ds|
  {
    if ds != [] {
      WithoutAbsent(ds[1..], ids);
      assert ds == [ds[0]] + ds[1..];
    }
  }

  lemma {:induction false} WithoutDrops(ds: seq<ModelDecision>, ids: set<string>)
    ensures forall d | d in Without(ds, ids) :: d.candidate.modelId !in ids
    decreases |ds|
  {
    if ds != [] { WithoutDrops(ds[1..], ids); }
  }

  lemma {:induction false} WithoutTwice(ds: seq<ModelDecision>, a: set<string>, b: set<string>)
    ensures Without(Without(ds, a), b) == Without(ds, a + b)
    decreases |ds|
  {
    if ds != [] {
      WithoutTwice(ds[1..], a, b);
      if ds[0].candidate.modelId !in a {
        assert ([ds[0]] + Without(ds[1..], a))[1..] == Without(ds[1..], a);
      }
    }
  }

  lemma {:induction false} StillAllowedIsWithout(ds: seq<ModelDecision>, chosen: string, excluded: set<string>)
    ensures StillAllowed(ds, chosen, excluded) == Without(ds, excluded + {chosen})
    decreases |ds|
  {
    if ds != [] { StillAllowedIsWithout(ds[1..], chosen, excluded); }
  }

  lemma {:induction false} SameFirstAllowed(ds: seq<ModelDecision>, a: set<string>, b: set<string>)
    requires forall d | d in ds :: (d.candidate.modelId in a <==> d.candidate.modelId in b)
    ensures FirstAllowed(ds, a) == FirstAllowed(ds, b)
    decreases |ds|
  {
    if ds != [] { SameFirstAllowed(ds[1..], a, b); }
  }

  /** Before the first attempt every alternative remains. */
  lemma AllRemain<D>(p: PreparedCall<D>, world: World)
    requires Distinct(ModelIds(p.Ranking()))
    ensures Remaining(p, world, [p.model.candidate.modelId]) == p.alternatives
    ensures (set id | id in [p.model.candidate.modelId]) == {p.model.candidate.modelId}
  {
    var ids := (set id | id in [p.model.candidate.modelId]) + CooledBefore(world, 1);
    forall d | d in p.alternatives ensures d.candidate.modelId !in ids {
      var i :| 0 <= i < |p.alternatives| && p.alternatives[i] == d;
      assert ModelIds(p.Ranking())[i + 1] == d.candidate.modelId;
      assert ModelIds(p.Ranking())[0] == p.model.candidate.modelId;
    }
    WithoutAbsent(p.alternatives, ids);
  }

  /** What was tried is no longer among what remains, so only the cooling models are left to exclude. */
  lemma ExcludesLikeCooling<D>(p: PreparedCall<D>, world: World, tried: seq<string>, attempted: set<string>)
    requires attempted == set id | id in tried
    ensures var rest, cooling := Remaining(p, world, tried), world.coolingWhenChosen(|tried|);
            && FirstAllowed(rest, attempted + cooling) == FirstAllowed(rest, cooling)
            && (AllExcluded(rest, attempted + cooling) <==> NoneToChoose(p, world, tried))
  {
    hide FirstAllowed, Without;
    WithoutDrops(p.alternatives, attempted + CooledBefore(world, |tried|));
    var rest, cooling := Remaining(p, world, tried), world.coolingWhenChosen(|tried|);
    SameFirstAllowed(rest, attempted + cooling, cooling);
    if AllExcluded(rest, attempted + cooling) {
      forall d | d in rest ensures d.candidate.modelId in cooling {
        var i :| 0 <= i < |rest| && rest[i] == d;
      }
    }
  }

  /** What a switch leaves allowed is what remains after one more attempt. */
  lemma RemainingAfter<D>(p: PreparedCall<D>, world: World, tried: seq<string>, attempted: set<string>, chosen: string)
    requires tried != [] && attempted == set id | id in tried
    ensures StillAllowed(Remaining(p, world, tried), chosen, attempted + world.coolingWhenChosen(|tried|))
              == Remaining(p, world, tried + [chosen])
    ensures attempted + {chosen} == set id | id in tried + [chosen]
  {
    hide Without, StillAllowed;
    var n := |tried|;
    var gone, more := attempted + CooledBefore(world, n), attempted + world.coolingWhenChosen(n) + {chosen};
    StillAllowedIsWithout(Without(p.alternatives, gone), chosen, attempted + world.coolingWhenChosen(n));
    WithoutTwice(p.alternatives, gone, more);
    assert attempted + {chosen} == set id | id in tried + [chosen];
    assert gone + more == (set id | id in tried + [chosen]) + CooledBefore(world, n + 1);
  }

  lemma Continues<D>(p: PreparedCall<D>, policy: OperatingPolicy, world: World, tried: seq<string>, next: string)
    requires Attempts(p, policy, world, tried) && MovesTo(p, policy, world, tried, next)
    ensures Attempts(p, policy, world, tried + [next])
  {
    hide MovesTo;
    var all := tried + [next];
    forall k | 1 <= k < |all| ensures MovesTo(p, policy, world, all[..k], all[k]) {
      if k < |tried| {
        assert all[..k] == tried[..k];
      } else {
        assert all[..k] == tried;
      }
    }
  }

  lemma FirstAttempt<D>(p: PreparedCall<D>, policy: OperatingPolicy, world: World)
    ensures Attempts(p, policy, world, [p.model.candidate.modelId])
  {
  }

  lemma Moves<D>(p: PreparedCall<D>, policy: OperatingPolicy, world: World, tried: seq<string>, d: ModelDecision)
    requires MayReroute(p, world, tried) && !world.recordFails(|tried|) && !TooLate(p, policy, world, |tried|)
    requires !world.switchRecordFails(|tried|) && !NoneToChoose(p, world, tried)
    requires FirstAllowed(Remaining(p, world, tried), world.coolingWhenChosen(|tried|)) == Some(d)
    ensures MovesTo(p, policy, world, tried, d.candidate.modelId)
  {
  }

  lemma StartOfRanking<D>(p: PreparedCall<D>)
    ensures Subsequence([p.model.candidate.modelId] + ModelIds(p.alternatives), ModelIds(p.Ranking()))
  {
    Reflexive(ModelIds(p.Ranking()));
    assert ModelIds(p.Ranking()) == [p.model.candidate.modelId] + ModelIds(p.alternatives);
  }

  /** What was tried is part of the ranking, without repetition. */
  lemma Finish(tried: seq<string>, rest: seq<string>, ranking: seq<string>)
    requires Subsequence(tried + rest, ranking) && Distinct(ranking)
    ensures Subsequence(tried, ranking) && Distinct(tried) && |tried| <= |ranking|
  {
    Prefix(tried, rest);
    Transitive(tried, tried + rest, ranking);
    KeepsDistinct(tried, ranking);
    ShorterAndSmaller(tried, ranking);
  }

  /** A switch moves down the ranking. */
  lemma MoveOn<D>(tried: seq<string>, from: PreparedCall<D>, to: PreparedCall<D>, ranking: seq<ModelDecision>)
    requires Subsequence(tried + ModelIds(from.alternatives), ModelIds(ranking))
    requires Subsequence(from.Ranking(), ranking) && Subsequence(to.Ranking(), from.alternatives)
    ensures Subsequence(tried + [to.model.candidate.modelId] + ModelIds(to.alternatives), ModelIds(ranking))
    ensures Subsequence(to.Ranking(), ranking) && |to.alternatives| < |from.alternatives|
  {
    hide Subsequence;
    Extend(to.Ranking(), from.alternatives, from.model);
    Transitive(to.Ranking(), from.Ranking(), ranking);
    var next := [to.model.candidate.modelId] + ModelIds(to.alternatives);
    assert ModelIds(to.Ranking()) == next;
    IdsOfSubsequence(to.Ranking(), from.alternatives);
    ShorterAndSmaller(next, ModelIds(from.alternatives));
    SamePrefix(tried, next, ModelIds(from.alternatives));
    Transitive(tried + next, tried + ModelIds(from.alternatives), ModelIds(ranking));
    assert tried + next == tried + [to.model.candidate.modelId] + ModelIds(to.alternatives);
  }

  // ---------------------------------------------------------------- who resolves the reservation

  ghost predicate Live(controller: G.Controller, runId: string, callId: int)
    reads controller, controller.runs.Values
  {
    controller.Valid() && runId in controller.runs
    && controller.runs[runId].status == L.Active && callId in controller.runs[runId].reserved
  }

  /** Calls the provider under one reservation.  A delivered answer hands the live reservation back; on
      every other path one failure report has resolved it, with unknown billing only after a server error. */
  method ProviderCallWithFailover<D(!new, ==)>(
    controller: G.Controller, runId: string, prepared: PreparedCall<D>, policy: OperatingPolicy, world: World)
    returns (ending: Ending, current: PreparedCall<D>, tried: seq<string>)
    requires Live(controller, runId, prepared.budget.callId) && prepared.Valid() && policy.Valid()
    requires Distinct(ModelIds(prepared.Ranking()))
    modifies controller.Touched(runId)
    ensures SameCall(prepared, current) && current.Valid() && Subsequence(current.Ranking(), prepared.Ranking())
    ensures 1 <= |tried| <= 1 + |prepared.alternatives|
    ensures Distinct(tried) && Subsequence(tried, ModelIds(prepared.Ranking()))
    ensures Attempts(prepared, policy, world, tried) && EndsAs(prepared, policy, world, tried, ending)
    ensures ending.Delivered? ==>
              && current.model.candidate.modelId == tried[|tried| - 1]
              && controller.runs[runId].Book() == old(controller.runs[runId].Book())
              && Live(controller, runId, prepared.budget.callId)
    ensures !ending.Delivered? ==>
              && controller.Valid() && prepared.budget.callId !in controller.runs[runId].reserved
              && controller.runs[runId].Book() == L.Apply(old(controller.runs[runId].Book()),
                   L.FailTheCall(prepared.budget.callId, ending.Refused? && ending.status >= 500))
  {
    hide Subsequence, Distinct, Attempts, EndsAs, MayReroute;
    ending, current, tried := Cascade(prepared, policy, world);
    if !ending.Delivered? {
      ResolveCall(controller, runId, prepared.budget.callId, ending.Refused? && ending.status >= 500);
    }
  }

  /** Forwards one proxied request.  Unlike the loop above, it resolves the reservation only when the last
      provider refused: a broken connection, a failed log record or a failed switch leaves it held. */
  method ProxyForward<D(!new, ==)>(
    controller: G.Controller, runId: string, prepared: PreparedCall<D>, policy: OperatingPolicy, world: World)
    returns (ending: Ending, current: PreparedCall<D>, tried: seq<string>)
    requires Live(controller, runId, prepared.budget.callId) && prepared.Valid() && policy.Valid()
    requires Distinct(ModelIds(prepared.Ranking()))
    modifies controller.Touched(runId)
    ensures SameCall(prepared, current) && current.Valid() && Subsequence(current.Ranking(), prepared.Ranking())
    ensures 1 <= |tried| <= 1 + |prepared.alternatives|
    ensures Distinct(tried) && Subsequence(tried, ModelIds(prepared.Ranking()))
    ensures Attempts(prepared, policy, world, tried) && EndsAs(prepared, policy, world, tried, ending)
    ensures controller.Valid() && runId in controller.runs
    ensures prepared.budget.callId !in controller.runs[runId].reserved <==>
              var n := |tried|;
              world.answer(n).Refuses? && !world.recordFails(n) && !MayReroute(prepared, world, tried)
    ensures !ending.Refused? ==>
              && controller.runs[runId].Book() == old(controller.runs[runId].Book())
              && Live(controller, runId, prepared.budget.callId)
    ensures ending.Refused? ==>
              && controller.Valid() && prepared.budget.callId !in controller.runs[runId].reserved
              && controller.runs[runId].Book() == L.Apply(old(controller.runs[runId].Book()),
                   L.FailTheCall(prepared.budget.callId, ending.status >= 500))
  {
    hide Subsequence, Distinct, Attempts, EndsAs, MayReroute;
    ending, current, tried := Cascade(prepared, policy, world);
    RefusedWhen(prepared, policy, world, tried, ending);
    if ending.Refused? {
      ResolveCall(controller, runId, prepared.budget.callId, ending.status >= 500);
    }
  }

  lemma RefusedWhen<D>(p: PreparedCall<D>, policy: OperatingPolicy, world: World, tried: seq<string>, ending: Ending)
    requires EndsAs(p, policy, world, tried, ending)
    ensures ending.Refused? <==>
              world.answer(|tried|).Refuses? && !world.recordFails(|tried|) && !MayReroute(p, world, tried)
  {
    hide MayReroute, NoneToChoose, TooLate;
  }

  /** When the first connection breaks, no other model is tried, and the ending is not one that the proxy resolves. */
  lemma BrokenConnectionStopsTheLoop<D>(
    p: PreparedCall<D>, policy: OperatingPolicy, world: World, tried: seq<string>, ending: Ending)
    requires world.answer(1) == Breaks
    requires Attempts(p, policy, world, tried) && EndsAs(p, policy, world, tried, ending)
    ensures tried == [p.model.candidate.modelId] && ending == Broke
  {
    assert |tried| > 1 ==> MovesTo(p, policy, world, tried[..1], tried[1]);
  }

  method ResolveCall(controller: G.Controller, runId: string, callId: int, billingUnknown: bool)
    requires Live(controller, runId, callId)
    modifies controller.Touched(runId)
    ensures controller.Valid() && callId !in controller.runs[runId].reserved
    ensures controller.runs[runId].Book()
              == L.Apply(old(controller.runs[runId].Book()), L.FailTheCall(callId, billingUnknown))
  {
    var fault := controller.FailCall(runId, callId, billingUnknown);
  }
}
