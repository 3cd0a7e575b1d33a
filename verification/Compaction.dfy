/** Planning a context reduction and carrying it out inside the boundaries the plan authorizes. */
module Compaction {
  import opened Basics
  import opened Tallies
  import opened Models
  import opened Ordering
  import opened Pricing
  import WaterFill
  import CompactText

  // ---------------------------------------------------------------- the target planner

  datatype CompactionPlan = CompactionPlan(
    inputBudgetUsd: real,
    estimatedInputCostUsd: real,
    targetTokens: int,
    reduction: nat,
    eligible: seq<nat>,
    importance: map<nat, real>)

  /** The fewest tokens a conversation can be brought to without touching protected messages. */
  function MinimumReachable<D>(cache: CacheAnalysis<D>, kept: nat): int {
    cache.totalTokens - Reducible(cache.messageTokens, kept, Except(cache.compactableIndices, cache.protectedIndices))
  }

  function UncachedCapacity<D>(cache: CacheAnalysis<D>, kept: nat): nat {
    Reducible(cache.messageTokens, kept,
              Except(Except(cache.compactableIndices, cache.protectedIndices), cache.cacheableIndices))
  }

  function Target<D>(cache: CacheAnalysis<D>, kept: nat, required: int): int {
    MaxInt(MinimumReachable(cache, kept), MinInt(cache.totalTokens, required))
  }

  function Eligible<D>(cache: CacheAnalysis<D>, kept: nat, reduction: nat): seq<nat> {
    var open := Except(cache.compactableIndices, cache.protectedIndices);
    if reduction > UncachedCapacity(cache, kept) then open else Except(open, cache.cacheableIndices)
  }

  function Overridden(overrides: seq<ImportanceOverride>, block: ContextBlock): real
    decreases |overrides|
  {
    if overrides == [] then block.importance
    else if overrides[|overrides| - 1].blockId == block.blockId then overrides[|overrides| - 1].importance
    else Overridden(overrides[..|overrides| - 1], block)
  }

  /** The block that describes a message; the last one listed wins. */
  function BlockAt(blocks: seq<ContextBlock>, index: nat): Option<ContextBlock>
    decreases |blocks|
  {
    if blocks == [] then None
    else if index in blocks[|blocks| - 1].messageIndices then Some(blocks[|blocks| - 1])
    else BlockAt(blocks[..|blocks| - 1], index)
  }

  function Importances<D>(cache: CacheAnalysis<D>, overrides: seq<ImportanceOverride>): map<nat, real> {
    map i: nat | i < |cache.messageTokens| && BlockAt(cache.contextBlocks, i).Some?
      :: Overridden(overrides, BlockAt(cache.contextBlocks, i).value)
  }

  function Plan<D>(cache: CacheAnalysis<D>, kept: nat, route: ProviderRoute, value: CacheValue, budget: CallBudget)
    : CompactionPlan
  {
    var target := Target(cache, kept, budget.requiredContextTokens);
    var reduction := MaxInt(0, cache.totalTokens - target);
    CompactionPlan(
      budget.inputCostUsd,
      PlannerInputCost(route, value, target, reduction <= UncachedCapacity(cache, kept)),
      target, reduction, Eligible(cache, kept, reduction), Importances(cache, budget.importanceOverrides))
  }

  lemma {:induction false} ReducibleOfExcept(tokens: seq<nat>, kept: nat, indices: seq<nat>, excluded: seq<nat>)
    ensures Reducible(tokens, kept, Except(indices, excluded)) <= Reducible(tokens, kept, indices)
    decreases |indices|
  {
    if indices != [] {
      ReducibleOfExcept(tokens, kept, indices[1..], excluded);
      if indices[0] !in excluded {
        assert ([indices[0]] + Except(indices[1..], excluded))[1..] == Except(indices[1..], excluded);
      }
    }
  }

  /** A context between the reachable floor and the total is met exactly, and one outside is moved to the nearer
      end.  The eligible messages can give up the whole reduction: they are the compactable ones that are not
      protected, the cached ones among them only when the others cannot give enough. */
  lemma PlanIsReachable<D>(cache: CacheAnalysis<D>, kept: nat, route: ProviderRoute, value: CacheValue,
                           budget: CallBudget)
    ensures var plan := Plan(cache, kept, route, value, budget);
            && (MinimumReachable(cache, kept) <= budget.requiredContextTokens <= cache.totalTokens ==>
                  plan.targetTokens == budget.requiredContextTokens)
            && plan.targetTokens + plan.reduction == cache.totalTokens
            && MinimumReachable(cache, kept) <= plan.targetTokens
            && plan.reduction <= Reducible(cache.messageTokens, kept, plan.eligible)
            && plan.inputBudgetUsd == budget.inputCostUsd
            && plan.estimatedInputCostUsd
                 == PlannerInputCost(route, value, plan.targetTokens, plan.reduction <= UncachedCapacity(cache, kept))
            && (budget.requiredContextTokens >= cache.totalTokens ==> plan.reduction == 0)
            && (budget.requiredContextTokens <= MinimumReachable(cache, kept) ==>
                  plan.targetTokens == MinimumReachable(cache, kept))
            && (forall i :: i in plan.eligible <==>
                  && i in cache.compactableIndices && i !in cache.protectedIndices
                  && (i in cache.cacheableIndices ==> plan.reduction > UncachedCapacity(cache, kept)))
  {
    var plan := Plan(cache, kept, route, value, budget);
    var open := Except(cache.compactableIndices, cache.protectedIndices);
    ReducibleOfExcept(cache.messageTokens, kept, open, cache.cacheableIndices);
  }

  lemma {:induction false} LastBlockDescribes(blocks: seq<ContextBlock>, index: nat)
    ensures var found := BlockAt(blocks, index);
            match found
            case None => forall k | 0 <= k < |blocks| :: index !in blocks[k].messageIndices
            case Some(block) =>
              exists k | 0 <= k < |blocks| ::
                && blocks[k] == block && index in block.messageIndices
                && (forall m | k < m < |blocks| :: index !in blocks[m].messageIndices)
    decreases |blocks|
  {
    if blocks != [] && index !in blocks[|blocks| - 1].messageIndices {
      LastBlockDescribes(blocks[..|blocks| - 1], index);
    }
  }

  lemma {:induction false} LastOverrideWins(overrides: seq<ImportanceOverride>, block: ContextBlock)
    ensures var importance := Overridden(overrides, block);
            || (importance == block.importance && forall k | 0 <= k < |overrides| ::
                  overrides[k].blockId != block.blockId)
            || (exists k | 0 <= k < |overrides| ::
                  && overrides[k].blockId == block.blockId && importance == overrides[k].importance
                  && (forall m | k < m < |overrides| :: overrides[m].blockId != block.blockId))
    decreases |overrides|
  {
    if overrides != [] && overrides[|overrides| - 1].blockId != block.blockId {
      LastOverrideWins(overrides[..|overrides| - 1], block);
    }
  }

  /** How important the plan takes a message to be: what the allocator said of its block, or else what the
      analysis said of it, or else one half. */
  lemma ImportanceMeaning<D>(cache: CacheAnalysis<D>, kept: nat, route: ProviderRoute, value: CacheValue,
                             budget: CallBudget, i: nat, k: nat)
    requires i < |cache.messageTokens| && k < |cache.contextBlocks|
    requires forall m | k < m < |cache.contextBlocks| :: i !in cache.contextBlocks[m].messageIndices
    ensures var importance := ImportanceOf(Plan(cache, kept, route, value, budget), i);
            var block := cache.contextBlocks[k];
            && ((forall m | 0 <= m <= k :: i !in cache.contextBlocks[m].messageIndices) ==> importance == 0.5)
            && (i in block.messageIndices ==>
                  && ((forall o | o in budget.importanceOverrides :: o.blockId != block.blockId) ==>
                        importance == block.importance)
                  && (forall n | 0 <= n < |budget.importanceOverrides| ::
                        && budget.importanceOverrides[n].blockId == block.blockId
                        && (forall m | n < m < |budget.importanceOverrides| ::
                              budget.importanceOverrides[m].blockId != block.blockId) ==>
                          importance == budget.importanceOverrides[n].importance))
  {
    hide Overridden, BlockAt, PlannerInputCost, Target, Eligible;
    LastBlockDescribes(cache.contextBlocks, i);
    LastOverrideWins(budget.importanceOverrides, cache.contextBlocks[k]);
  }

  /** With the routed floor, and no protected message offered for compaction, the planner keeps the
      cached prefix exactly when the router assumed it would. */
  lemma PlannerKeepsCacheAsRouted<D>(cache: CacheAnalysis<D>, required: nat)
    requires forall i | i in cache.compactableIndices :: i !in cache.protectedIndices
    requires MinimumReachable(cache, ROUTED_FLOOR) <= required <= cache.totalTokens
    ensures (cache.totalTokens - Target(cache, ROUTED_FLOOR, required) <= UncachedCapacity(cache, ROUTED_FLOOR))
              <==> RouterKeepsCache(cache, required)
  {
    ExceptNothing(cache.compactableIndices, cache.protectedIndices);
  }

  lemma {:induction false} ExceptNothing(indices: seq<nat>, excluded: seq<nat>)
    requires forall i | i in indices :: i !in excluded
    ensures Except(indices, excluded) == indices
    decreases |indices|
  {
    hide Distinct;
    if indices != [] {
      var rest := indices[1..];
      assert indices[0] in indices && forall i | i in rest :: i in indices;
      ExceptNothing(rest, excluded);
      assert Except(indices, excluded) == [indices[0]] + rest;
      assert indices == [indices[0]] + rest;
    }
  }

  // ---------------------------------------------------------------- the compactor

  /** How a compactor measures and shortens text, and how much of a message it always keeps. */
  datatype Compactor = Compactor(encoding: Encoding, signals: (string, BlockType) -> string, kept: nat)

  datatype Record = Record(messageIndex: nat, tokensBefore: nat, tokensAfter: nat, blockType: BlockType,
                           importance: real)

  datatype CompactionResult = CompactionResult(
    messages: seq<Message>, tokensBefore: nat, tokensAfter: nat, targetTokens: int, targetMet: bool,
    records: seq<Record>)

  datatype Fault = AnalysisMismatch | UnauthorizedChange | ProtectedChange

  function TokenSum(e: Encoding, messages: seq<Message>): nat
    decreases |messages|
  {
    if messages == [] then 0 else e.MessageTokens(messages[0]) + TokenSum(e, messages[1..])
  }

  function Saved(records: seq<Record>): int
    decreases |records|
  {
    if records == [] then 0
    else Saved(records[..|records| - 1]) + records[|records| - 1].tokensBefore - records[|records| - 1].tokensAfter
  }

  function Redundancy(block: Option<ContextBlock>): real {
    Max(0.1, if block.Some? then block.value.redundancy else 0.1)
  }

  function Staleness(block: Option<ContextBlock>): real {
    1.0 + (if block.Some? then block.value.age else 0) as real / 8.0
  }

  /** What would be invalidated beside each token of a cached block makes it less worth shortening. */
  function CacheFactor(block: Option<ContextBlock>): real {
    var denominator := if block.Some? && block.value.cached then 1.0 + 8.0 * block.value.cacheInvalidationCost else 1.0;
    if denominator != 0.0 then 1.0 / denominator else 1.0
  }

  function Pressure(block: Option<ContextBlock>, importance: real): real {
    (1.0 - importance) * (1.0 - importance) * Redundancy(block) * Staleness(block) * CacheFactor(block)
  }

  /** The pressure cleared of fractions. */
  lemma PressureMeaning(block: Option<ContextBlock>, importance: real)
    requires block.Some? ==> block.value.cacheInvalidationCost >= 0.0
    ensures var p, give := Pressure(block, importance), (1.0 - importance) * (1.0 - importance);
            match block
            case None => p * 10.0 == give
            case Some(b) =>
              p * 8.0 * (if b.cached then 1.0 + 8.0 * b.cacheInvalidationCost else 1.0)
                == give * Max(0.1, b.redundancy) * (8.0 + b.age as real)
  {
    if block.Some? {
      var b := block.value;
      var d := if b.cached then 1.0 + 8.0 * b.cacheInvalidationCost else 1.0;
      var f := 1.0 / d;
      assert f * d == 1.0 && CacheFactor(block) == f && 8.0 * Staleness(block) == 8.0 + b.age as real;
      Cancels((1.0 - importance) * (1.0 - importance) * Redundancy(block), Staleness(block), f, d);
    }
  }

  lemma Cancels(part: real, s: real, f: real, d: real)
    requires f * d == 1.0
    ensures part * s * f * 8.0 * d == part * (8.0 * s)
  {
    var whole := part * s;
    assert whole * f * d == whole * (f * d);
  }

  /** Nothing but its importance speaks more for shortening a message with block a than one with block b:
      it repeats no more, is no older, and rewriting it invalidates no less of the cache. */
  ghost predicate NoBetter(a: Option<ContextBlock>, b: Option<ContextBlock>) {
    && (a.Some? <==> b.Some?)
    && (a.Some? ==>
          && Max(0.1, a.value.redundancy) <= Max(0.1, b.value.redundancy) && a.value.age <= b.value.age
          && (b.value.cached ==> a.value.cached && b.value.cacheInvalidationCost >= 0.0)
          && (a.value.cached ==>
                a.value.cacheInvalidationCost >= if b.value.cached then b.value.cacheInvalidationCost else 0.0))
  }

  /** Something besides its importance speaks less for shortening a message with block a. */
  ghost predicate Worse(a: ContextBlock, b: ContextBlock) {
    || Max(0.1, a.redundancy) < Max(0.1, b.redundancy) || a.age < b.age
    || (a.cached && a.cacheInvalidationCost > if b.cached then b.cacheInvalidationCost else 0.0)
  }

  /** Pressure is never negative, vanishes exactly at importance one, falls as importance rises, grows with
      redundancy and age, and is lower the more of the cache a rewrite would invalidate. */
  lemma PressureOrders(a: Option<ContextBlock>, x: real, b: Option<ContextBlock>, y: real)
    requires NoBetter(a, b) && y <= x <= 1.0
    ensures 0.0 <= Pressure(a, x) <= Pressure(b, y)
    ensures (Pressure(a, x) == 0.0 <==> x == 1.0) && (Pressure(b, y) == 0.0 <==> y == 1.0)
    ensures y < 1.0 && (y < x || (a.Some? && Worse(a.value, b.value))) ==> Pressure(a, x) < Pressure(b, y)
  {
    hide Redundancy, Staleness, CacheFactor;
    var u, v := (1.0 - x) * (1.0 - x), (1.0 - y) * (1.0 - y);
    SquareGrows(1.0 - x, 1.0 - y, u, v);
    FactorsOrder(a, b);
    FactorsGrow(u, v, Redundancy(a), Redundancy(b), Staleness(a), Staleness(b), CacheFactor(a), CacheFactor(b));
    assert Pressure(a, x) == u * Redundancy(a) * Staleness(a) * CacheFactor(a);
    assert Pressure(b, y) == v * Redundancy(b) * Staleness(b) * CacheFactor(b);
    hide Pressure, NoBetter, Worse;
  }

  lemma FactorsOrder(a: Option<ContextBlock>, b: Option<ContextBlock>)
    requires NoBetter(a, b)
    ensures 0.0 < Redundancy(a) <= Redundancy(b) && 0.0 < Staleness(a) <= Staleness(b)
    ensures 0.0 < CacheFactor(a) <= CacheFactor(b)
    ensures a.Some? && Worse(a.value, b.value) ==>
              Redundancy(a) < Redundancy(b) || Staleness(a) < Staleness(b) || CacheFactor(a) < CacheFactor(b)
  {
    var d := if a.Some? && a.value.cached then 1.0 + 8.0 * a.value.cacheInvalidationCost else 1.0;
    var e := if b.Some? && b.value.cached then 1.0 + 8.0 * b.value.cacheInvalidationCost else 1.0;
    InverseFalls(d, e);
  }

  lemma InverseFalls(d: real, e: real)
    requires d >= e > 0.0
    ensures 0.0 < 1.0 / d <= 1.0 / e && (d > e ==> 1.0 / d < 1.0 / e)
  {
  }

  lemma SquareGrows(a: real, b: real, p: real, q: real)
    requires 0.0 <= a <= b && p == a * a && q == b * b
    ensures 0.0 <= p <= q && (p == 0.0 <==> a == 0.0) && (q == 0.0 <==> b == 0.0) && (a < b ==> p < q)
  {
    if a > 0.0 { ProductIsPositive(a, a, p); }
    if b > 0.0 { ProductIsPositive(b, b, q); }
    if 0.0 < a < b { ProductOrders(a, b, a, b, p, q); }
  }

  lemma ProductIsPositive(a: real, b: real, p: real)
    requires a > 0.0 && b > 0.0 && p == a * b
    ensures p > 0.0
  {
  }

  lemma FactorsGrow(u: real, v: real, r: real, q: real, s: real, t: real, f: real, g: real)
    requires 0.0 <= u <= v && 0.0 < r <= q && 0.0 < s <= t && 0.0 < f <= g
    ensures 0.0 <= u * r * s * f <= v * q * t * g
    ensures (u * r * s * f == 0.0 <==> u == 0.0) && (v * q * t * g == 0.0 <==> v == 0.0)
    ensures v > 0.0 && (u < v || r < q || s < t || f < g) ==> u * r * s * f < v * q * t * g
  {
    var m, n := u * r, v * q;
    ProductOrders(u, v, r, q, m, n);
    var k, l := m * s, n * t;
    ProductOrders(m, n, s, t, k, l);
    ProductOrders(k, l, f, g, k * f, l * g);
  }

  lemma ProductOrders(a: real, b: real, x: real, y: real, p: real, q: real)
    requires 0.0 <= a <= b && 0.0 < x <= y && p == a * x && q == b * y
    ensures 0.0 <= p <= q && (p == 0.0 <==> a == 0.0) && (q == 0.0 <==> b == 0.0)
    ensures b > 0.0 && (a < b || x < y) ==> p < q
  {
    ProductGrows(0.0, a, x);
    ProductGrows(a, b, x);
    ProductGrows(x, y, b);
    ProductIsZero(a, x);
    ProductIsZero(b, y);
    if b > 0.0 && (a < b || x < y) { FactorIsLess(a, b, x, y); }
  }

  lemma ProductIsZero(a: real, x: real)
    requires a >= 0.0 && x > 0.0
    ensures a * x == 0.0 <==> a == 0.0
  {
    if a > 0.0 { ProductIsLess(0.0, a, x); }
  }

  lemma FactorIsLess(a: real, b: real, x: real, y: real)
    requires 0.0 <= a <= b && 0.0 < x <= y && b > 0.0 && (a < b || x < y)
    ensures a * x < b * y
  {
    if a < b {
      ProductIsLess(a, b, x);
      ProductGrows(x, y, b);
    } else {
      ProductIsLess(x, y, b);
    }
  }

  /** The pressures under which the eligible messages compete. */
  function PressuresAt<D>(cache: CacheAnalysis<D>, plan: CompactionPlan): map<nat, real> {
    map i | i in plan.eligible :: Pressure(BlockAt(cache.contextBlocks, i), ImportanceOf(plan, i))
  }

  function ImportanceOf(plan: CompactionPlan, index: nat): real {
    if index in plan.importance then plan.importance[index] else 0.5
  }

  function TypeOf(block: Option<ContextBlock>): BlockType {
    if block.Some? then block.value.blockType else Generic
  }

  /** The message with its text shortened by about the requested tokens; no other field changes. */
  function Rewrite(c: Compactor, m: Message, block: Option<ContextBlock>, requested: int): (r: Message)
    requires m.content.Text?
    ensures r == m.(content := r.content) && r.content.Text?
  {
    var text := m.content.text;
    var t := TypeOf(block);
    var lines := if t == Test || t == Patch || t == Tool then c.signals(text, t) else "";
    m.(content := Text(CompactText.Compact(text, MaxInt(c.kept, c.encoding.TextTokens(text) - requested), t, lines)))
  }

  /** A message asked for some tokens keeps its text if that is short enough, and otherwise is cut to four
      characters for each token it may keep, or 48, beside its marker.  Signal lines are looked for in the output
      of tests, patches and tools only. */
  lemma RewriteMeaning(c: Compactor, m: Message, block: Option<ContextBlock>, requested: int)
    requires m.content.Text?
    ensures var text, after := m.content.text, Rewrite(c, m, block, requested).content.text;
            var t := if block.Some? then block.value.blockType else Generic;
            var target, marker := MaxInt(c.kept, c.encoding.TextTokens(text) - requested), CompactText.MarkerCost(t);
            var budget := MaxInt(48, 4 * target - marker);
            && (|text| <= budget ==> after == text)
            && (|text| > budget ==> |after| <= budget + marker + 1)
            && (t !in {Test, Patch, Tool} ==> after == CompactText.Compact(text, target, t, ""))
            && (t in {Test, Patch, Tool} ==> after == CompactText.Compact(text, target, t, c.signals(text, t)))
  {
    hide CompactText.Compact, CompactText.MarkerCost, CompactText.ContentBudget;
    var text, t := m.content.text, TypeOf(block);
    var target := MaxInt(c.kept, c.encoding.TextTokens(text) - requested);
    CompactText.CompactIsBounded(text, target, t, if t == Test || t == Patch
                                 || t == Tool then c.signals(text, t) else "");
  }

  datatype Work = Work(messages: seq<Message>, remaining: int, records: seq<Record>)

  /** One eligible message: rewritten if that saves tokens, left alone otherwise. */
  function CompactOne(c: Compactor, blocks: seq<ContextBlock>, plan: CompactionPlan, share: int, w: Work,
                      index: nat): Work
    requires index < |w.messages|
  {
    var m := w.messages[index];
    var requested := MinInt(w.remaining, share);
    if !m.content.Text? || requested <= 0 then w
    else
      var block := BlockAt(blocks, index);
      var shorter := Rewrite(c, m, block, requested);
      var before, after := c.encoding.MessageTokens(m), c.encoding.MessageTokens(shorter);
      if after >= before then w
      else
        Work(w.messages[index := shorter], MaxInt(0, w.remaining - (before - after)),
             w.records + [Record(index, before, after, TypeOf(block), ImportanceOf(plan, index))])
  }

  function CompactAll(
    c: Compactor, blocks: seq<ContextBlock>, plan: CompactionPlan, shares: map<nat, int>, order: seq<nat>,
    w: Work): Work
    requires forall k | 0 <= k < |order| :: order[k] < |w.messages| && order[k] in shares
    decreases |order|
  {
    if order == [] then w
    else CompactAll(c, blocks, plan, shares, order[1..], CompactOne(c, blocks, plan, shares[order[0]], w, order[0]))
  }

  lemma {:induction false} TokenSumUpdate(e: Encoding, messages: seq<Message>, i: nat, m: Message)
    requires i < |messages|
    ensures TokenSum(e, messages[i := m]) == TokenSum(e, messages) - e.MessageTokens(messages[i]) + e.MessageTokens(m)
    decreases |messages|
  {
    if i == 0 {
      assert messages[0 := m][1..] == messages[1..];
    } else {
      TokenSumUpdate(e, messages[1..], i - 1, m);
      assert messages[i := m][1..] == messages[1..][i - 1 := m];
    }
  }

  lemma SavedAppend(records: seq<Record>, r: Record)
    ensures Saved(records + [r]) == Saved(records) + r.tokensBefore - r.tokensAfter
  {
    assert (records + [r])[..|records|] == records;
  }

  /** A message keeps everything but its text, and never grows. */
  predicate Shortened(e: Encoding, m: Message, n: Message) {
    n == m.(content := n.content) && (n != m ==> n.content.Text? && e.MessageTokens(n) < e.MessageTokens(m))
  }

  /** How one piece of work follows from another: what it changed, saved and recorded. */
  ghost predicate Progress(e: Encoding, order: seq<nat>, w: Work, v: Work) {
    && |v.messages| == |w.messages|
    && (forall i | 0 <= i < |w.messages| :: i !in order ==> v.messages[i] == w.messages[i])
    && (forall i | 0 <= i < |w.messages| :: Shortened(e, w.messages[i], v.messages[i]))
    && TokenSum(e, v.messages) + Saved(v.records) == TokenSum(e, w.messages) + Saved(w.records)
    && Saved(v.records) >= Saved(w.records)
    && v.remaining == MaxInt(0, w.remaining - (Saved(v.records) - Saved(w.records)))
    && |w.records| <= |v.records| && (|v.records| == |w.records| ==> v.messages == w.messages)
  }

  lemma CompactOneKeeps(c: Compactor, blocks: seq<ContextBlock>, plan: CompactionPlan, share: int, w: Work, index: nat)
    requires w.remaining >= 0 && index < |w.messages|
    ensures Progress(c.encoding, [index], w, CompactOne(c, blocks, plan, share, w, index))
  {
    hide Rewrite;
    var x := CompactOne(c, blocks, plan, share, w, index);
    if x != w {
      TokenSumUpdate(c.encoding, w.messages, index, x.messages[index]);
      SavedAppend(w.records, x.records[|w.records|]);
    }
  }

  lemma ProgressJoins(e: Encoding, first: nat, rest: seq<nat>, w: Work, x: Work, v: Work)
    requires w.remaining >= 0 && Progress(e, [first], w, x) && Progress(e, rest, x, v)
    ensures Progress(e, [first] + rest, w, v)
  {
    forall i | 0 <= i < |w.messages|
      ensures i !in [first] + rest ==> v.messages[i] == w.messages[i]
      ensures Shortened(e, w.messages[i], v.messages[i])
    {
      assert Shortened(e, w.messages[i], x.messages[i]) && Shortened(e, x.messages[i], v.messages[i]);
      assert i !in [first] + rest ==> i !in [first] && i !in rest;
    }
  }

  lemma {:induction false} CompactAllKeeps(
    c: Compactor, blocks: seq<ContextBlock>, plan: CompactionPlan, shares: map<nat, int>, order: seq<nat>, w: Work)
    requires w.remaining >= 0 && forall k | 0 <= k < |order| :: order[k] < |w.messages| && order[k] in shares
    ensures Progress(c.encoding, order, w, CompactAll(c, blocks, plan, shares, order, w))
    decreases |order|
  {
    hide Rewrite; hide CompactOne; hide Progress;
    if order == [] {
      NoProgress(c.encoding, w);
    } else {
      var x := CompactOne(c, blocks, plan, shares[order[0]], w, order[0]);
      CompactOneKeeps(c, blocks, plan, shares[order[0]], w, order[0]);
      ProgressKeepsShape(c.encoding, [order[0]], w, x);
      CompactAllKeeps(c, blocks, plan, shares, order[1..], x);
      ProgressJoins(c.encoding, order[0], order[1..], w, x, CompactAll(c, blocks, plan, shares, order[1..], x));
      assert [order[0]] + order[1..] == order;
    }
  }

  lemma NoProgress(e: Encoding, w: Work)
    requires w.remaining >= 0
    ensures Progress(e, [], w, w)
  {}

  lemma ProgressKeepsShape(e: Encoding, order: seq<nat>, w: Work, v: Work)
    requires Progress(e, order, w, v)
    ensures |v.messages| == |w.messages| && v.remaining >= 0
  {}

  /** Every message that is asked for tokens yields at least as many as it is asked for. */
  predicate AllDeliver(
    c: Compactor, blocks: seq<ContextBlock>, plan: CompactionPlan, shares: map<nat, int>, order: seq<nat>, w: Work)
    requires forall k | 0 <= k < |order| :: order[k] < |w.messages| && order[k] in shares
    decreases |order|
  {
    order == [] || (
      var next := CompactOne(c, blocks, plan, shares[order[0]], w, order[0]);
      && c.encoding.MessageTokens(w.messages[order[0]]) - c.encoding.MessageTokens(next.messages[order[0]])
           >= MinInt(w.remaining, shares[order[0]])
      && AllDeliver(c, blocks, plan, shares, order[1..], next))
  }

  function ShareSum(shares: map<nat, int>, order: seq<nat>): int
    requires forall k | 0 <= k < |order| :: order[k] in shares
    decreases |order|
  {
    if order == [] then 0 else shares[order[0]] + ShareSum(shares, order[1..])
  }

  lemma {:induction false} SharesAddUp(shares: map<nat, int>, order: seq<nat>)
    requires forall k | 0 <= k < |order| :: order[k] in shares && shares[order[k]] > 0
    ensures ShareSum(shares, order) >= 0
    decreases |order|
  {
    if order != [] { SharesAddUp(shares, order[1..]); }
  }

  lemma {:induction false} DeliveredInFull(
    c: Compactor, blocks: seq<ContextBlock>, plan: CompactionPlan, shares: map<nat, int>, order: seq<nat>, w: Work)
    requires w.remaining >= 0
    requires forall k | 0 <= k < |order| :: order[k] < |w.messages| && order[k] in shares && shares[order[k]] > 0
    requires AllDeliver(c, blocks, plan, shares, order, w) && w.remaining <= ShareSum(shares, order)
    ensures CompactAll(c, blocks, plan, shares, order, w).remaining == 0
    decreases |order|
  {
    hide Rewrite; hide TokensForBytes;
    if order != [] {
      SharesAddUp(shares, order[1..]);
      DeliveredInFull(c, blocks, plan, shares, order[1..], CompactOne(c, blocks, plan, shares[order[0]], w, order[0]));
    }
  }

  lemma {:induction false} ShareSumIsTally(shares: map<nat, int>, order: seq<nat>)
    requires Distinct(order) && forall i :: i in order <==> i in shares
    ensures ShareSum(shares, order) as real == Tally(shares, WaterFill.Units())
    decreases |order|
  {
    hide Tally;
    if order == [] {
      TallyZero(shares, WaterFill.Units());
    } else {
      var rest := shares - {order[0]};
      TallyTake(shares, order[0], WaterFill.Units());
      ShareSumIsTally(rest, order[1..]);
      SameShares(shares, rest, order[1..]);
    }
  }

  lemma {:induction false} SameShares(shares: map<nat, int>, rest: map<nat, int>, order: seq<nat>)
    requires forall k | 0 <= k < |order| ::
               order[k] in shares && order[k] in rest && shares[order[k]] == rest[order[k]]
    ensures ShareSum(shares, order) == ShareSum(rest, order)
    decreases |order|
  {
    if order != [] { SameShares(shares, rest, order[1..]); }
  }

  function CapacityOf<D>(cache: CacheAnalysis<D>, kept: nat, index: nat): int
    requires index < |cache.messageTokens|
  {
    if index in cache.protectedIndices then 0 else MaxInt(0, cache.messageTokens[index] - kept)
  }

  function CapacitiesAt<D>(cache: CacheAnalysis<D>, kept: nat, indices: seq<nat>): map<nat, int>
    requires forall k | 0 <= k < |indices| :: indices[k] < |cache.messageTokens|
  {
    map i | i in indices :: CapacityOf(cache, kept, i)
  }

  /** The capacity that water-filling sees is what the planner counted on. */
  lemma {:induction false} CapacityIsReducible<D>(cache: CacheAnalysis<D>, kept: nat, indices: seq<nat>)
    requires Distinct(indices)
    requires forall k | 0 <= k < |indices| ::
               indices[k] < |cache.messageTokens| && indices[k] !in cache.protectedIndices
    ensures Tally(CapacitiesAt(cache, kept, indices), WaterFill.PositivePart())
              == Reducible(cache.messageTokens, kept, indices) as real
    decreases |indices|
  {
    hide Tally, CapacityOf, WaterFill.PositivePart;
    var all := CapacitiesAt(cache, kept, indices);
    if indices == [] {
      TallyZero(all, WaterFill.PositivePart());
    } else {
      var rest := CapacitiesAt(cache, kept, indices[1..]);
      CapacityIsReducible(cache, kept, indices[1..]);
      TallyTake(all, indices[0], WaterFill.PositivePart());
      assert indices == [indices[0]] + indices[1..];
      assert all - {indices[0]} == rest;
      OpenCapacity(cache, kept, indices[0]);
    }
  }

  lemma OpenCapacity<D>(cache: CacheAnalysis<D>, kept: nat, index: nat)
    requires index < |cache.messageTokens| && index !in cache.protectedIndices
    ensures WaterFill.PositivePart()(CapacityOf(cache, kept, index))
              == MaxInt(0, cache.messageTokens[index] - kept) as real
  {
  }

  /** The plan's reduction poured over the eligible messages, by room and pressure; those that give nothing are
      not listed. */
  ghost function Shares<D>(cache: CacheAnalysis<D>, kept: nat, plan: CompactionPlan): map<nat, int>
    requires forall k | 0 <= k < |plan.eligible| :: plan.eligible[k] < |cache.messageTokens|
  {
    WaterFill.Kept(Poured(cache, kept, plan))
  }

  ghost function Poured<D>(cache: CacheAnalysis<D>, kept: nat, plan: CompactionPlan): map<nat, int>
    requires forall k | 0 <= k < |plan.eligible| :: plan.eligible[k] < |cache.messageTokens|
  {
    var room := CapacitiesAt(cache, kept, plan.eligible);
    WaterFill.FillFrom(WaterFill.Level(plan.reduction, map i | i in room :: 0), room, PressuresAt(cache, plan))
  }

  /** Of two eligible messages the more important, if nothing else speaks more for shortening it, is never asked
      for more at the same remainder; and when it also comes later and has no more room, it gives no more in the
      end. */
  lemma MoreImportantGivesNoMore<D>(cache: CacheAnalysis<D>, kept: nat, plan: CompactionPlan, i: nat, j: nat)
    requires forall k | 0 <= k < |plan.eligible| :: plan.eligible[k] < |cache.messageTokens|
    requires i in plan.eligible && j in plan.eligible
    requires NoBetter(BlockAt(cache.contextBlocks, i), BlockAt(cache.contextBlocks, j))
    requires ImportanceOf(plan, j) <= ImportanceOf(plan, i) <= 1.0
    ensures var pressures := PressuresAt(cache, plan);
            && pressures[i] <= pressures[j]
            && (forall left: nat, total: real | total > 0.0 ::
                  WaterFill.Share(left, pressures[i], total) <= WaterFill.Share(left, pressures[j], total))
    ensures var shares := Shares(cache, kept, plan);
            j < i && CapacityOf(cache, kept, i) <= CapacityOf(cache, kept, j) ==>
              (i in shares ==> j in shares && shares[i] <= shares[j])
  {
    var pressures, room := PressuresAt(cache, plan), CapacitiesAt(cache, kept, plan.eligible);
    PressureOrders(BlockAt(cache.contextBlocks, i), ImportanceOf(plan, i),
                   BlockAt(cache.contextBlocks, j), ImportanceOf(plan, j));
    forall left: nat, total: real | total > 0.0
      ensures WaterFill.Share(left, pressures[i], total) <= WaterFill.Share(left, pressures[j], total)
    {
      WaterFill.ShareRises(left, pressures[i], pressures[j], total);
    }
    hide Pressure, CapacityOf, BlockAt, ImportanceOf, WaterFill.FillFrom;
    if j < i && CapacityOf(cache, kept, i) <= CapacityOf(cache, kept, j) {
      var start := WaterFill.Level(plan.reduction, map k | k in room :: 0);
      WaterFill.LeaderGivesNoLess(start, room, pressures, j, i);
    }
  }

  ghost predicate EnumeratesBySize(order: seq<nat>, shares: map<nat, int>) {
    && Distinct(order) && (forall i :: i in order <==> i in shares)
    && (forall k | 0 <= k < |order| :: order[k] in shares)
    && (forall j, k | 0 <= j < k < |order| ::
          shares[order[j]] > shares[order[k]] || (shares[order[j]] == shares[order[k]] && order[j] < order[k]))
  }

  function SizeKey(shares: map<nat, int>): nat -> Key {
    i => Key(if i in shares then -(shares[i] as real) else 0.0, i as real, 0.0, "")
  }

  /** Largest share first, ties by position. */
  method OrderBySize(shares: map<nat, int>) returns (order: seq<nat>)
    ensures EnumeratesBySize(order, shares)
  {
    hide Less; hide SizeKey; hide Sort;
    var ascending := WaterFill.Ascending(shares.Keys);
    order := Sort(ascending, SizeKey(shares));
    SortSorts(ascending, SizeKey(shares));
    forall i ensures i in order <==> i in shares {
      assert i in multiset(order) <==> i in multiset(ascending);
    }
    RearrangementIsDistinct(ascending, order);
    forall k | 0 <= k < |order| ensures order[k] in shares {
      assert order[k] in order;
    }
    forall j, k | 0 <= j < k < |order|
      ensures shares[order[j]] > shares[order[k]] || (shares[order[j]] == shares[order[k]] && order[j] < order[k])
    {
      SizeKeyOrders(shares, order[j], order[k]);
    }
  }

  lemma SizeKeyOrders(shares: map<nat, int>, i: nat, j: nat)
    requires i in shares && j in shares && i != j && !Less(SizeKey(shares)(j), SizeKey(shares)(i))
    ensures shares[i] > shares[j] || (shares[i] == shares[j] && i < j)
  {}

  /** The analysis was made of these messages. */
  predicate Describes<D>(cache: CacheAnalysis<D>, e: Encoding, messages: seq<Message>) {
    && |cache.messageTokens| == |messages|
    && (forall i | 0 <= i < |messages| :: cache.messageTokens[i] == e.MessageTokens(messages[i]))
    && cache.totalTokens == cache.toolTokens + TokenSum(e, messages)
  }

  method ValidateBoundaries<D>(before: seq<Message>, after: seq<Message>, cache: CacheAnalysis<D>, plan: CompactionPlan)
    returns (fault: Option<Fault>)
    requires |before| == |after|
    ensures fault.None? <==> forall i | 0 <= i < |before| ::
              before[i] != after[i] ==> i in plan.eligible && i !in cache.protectedIndices
  {
    for i := 0 to |before|
      invariant forall j | 0 <= j < i :: before[j] != after[j] ==> j in plan.eligible && j !in cache.protectedIndices
    {
      if before[i] != after[i] && i !in plan.eligible { return Some(UnauthorizedChange); }
      if i in cache.protectedIndices && before[i] != after[i] { return Some(ProtectedChange); }
    }
    return None;
  }

  /** Rewrites the eligible messages until the plan's reduction is saved.  Its boundary check never
      fails: protected and unplanned messages, and every field but the text, stay as they were. */
  method Compact<D>(c: Compactor, messages: seq<Message>, cache: CacheAnalysis<D>, plan: CompactionPlan)
    returns (result: Result<CompactionResult, Fault>, ghost shares: map<nat, int>, ghost order: seq<nat>)
    requires |messages| == |cache.messageTokens| ==> forall k | 0 <= k < |plan.eligible| ::
             plan.eligible[k] < |messages|
    ensures result.Err? <==> |messages| != |cache.messageTokens|
    ensures result.Err? ==> result.error == AnalysisMismatch
    ensures result.Ok? ==>
              var r := result.value;
              && |r.messages| == |messages|
              && (forall i | 0 <= i < |messages| :: Shortened(c.encoding, messages[i], r.messages[i]))
              && (forall i | 0 <= i < |messages| ::
                    r.messages[i] != messages[i] ==> i in plan.eligible && i !in cache.protectedIndices)
              && r.tokensAfter == cache.toolTokens + TokenSum(c.encoding, r.messages)
              && TokenSum(c.encoding, messages) - TokenSum(c.encoding, r.messages) == Saved(r.records)
              && (r.records == [] ==> r.messages == messages)
              && (r.targetMet <==> r.tokensAfter <= r.targetTokens) && r.targetTokens == plan.targetTokens
              && r.tokensBefore == cache.totalTokens
    ensures result.Ok? && Describes(cache, c.encoding, messages)
            && plan.targetTokens + plan.reduction == cache.totalTokens ==>
              && result.value.tokensBefore - result.value.tokensAfter == Saved(result.value.records)
              && (result.value.targetMet <==> Saved(result.value.records) >= plan.reduction)
    ensures result.Ok? ==>
              var start := Work(messages, plan.reduction, []);
              && EnumeratesBySize(order, shares)
              && (forall i | i in shares :: i in plan.eligible && 0 < shares[i] <= CapacityOf(cache, c.kept, i))
              && shares == Shares(cache, c.kept, plan)
              && Tally(shares, WaterFill.Units())
                   == Min(plan.reduction as real, Tally(CapacitiesAt(cache, c.kept, plan.eligible),
                                                        WaterFill.PositivePart()))
              && (var done := CompactAll(c, cache.contextBlocks, plan, shares, order, start);
                  result.value.messages == done.messages && result.value.records == done.records)
  {
    hide Tally; hide Rewrite;
    shares, order := map[], [];
    if |messages| != |cache.messageTokens| { return Err(AnalysisMismatch), shares, order; }
    var capacities := CapacitiesAt(cache, c.kept, plan.eligible);
    var pressures := PressuresAt(cache, plan);
    var allocations := WaterFill.Fill(plan.reduction, capacities, pressures);
    TallyCovers(capacities, WaterFill.PositivePart());
    var eligible := OrderBySize(allocations);
    shares, order := allocations, eligible;
    forall k | 0 <= k < |eligible| ensures eligible[k] < |messages| {
      var i := eligible[k];
      assert i in allocations && i in capacities;
    }
    var done := CompactInOrder(c, cache.contextBlocks, plan, allocations, eligible, messages);
    CompactAllKeeps(c, cache.contextBlocks, plan, shares, order, Work(messages, plan.reduction, []));
    hide CompactAll; hide TokenSum;
    forall i | 0 <= i < |messages| && messages[i] != done.messages[i]
      ensures i in plan.eligible && i !in cache.protectedIndices
    {
      assert i in order;
    }
    var fault := ValidateBoundaries(messages, done.messages, cache, plan);
    assert fault.None?;  // the boundary check has nothing to report, so the program never raises here
    var tokensAfter := cache.toolTokens + TokenSum(c.encoding, done.messages);
    assert Saved([]) == 0;
    return Ok(CompactionResult(done.messages, cache.totalTokens, tokensAfter, plan.targetTokens,
                               tokensAfter <= plan.targetTokens, done.records)), shares, order;
  }

  /** Works through the eligible messages, keeping track of what remains to be saved. */
  method CompactInOrder(c: Compactor, blocks: seq<ContextBlock>, plan: CompactionPlan, shares: map<nat, int>,
                        order: seq<nat>, messages: seq<Message>)
    returns (done: Work)
    requires forall k | 0 <= k < |order| :: order[k] < |messages| && order[k] in shares
    ensures done == CompactAll(c, blocks, plan, shares, order, Work(messages, plan.reduction, []))
  {
    hide CompactOne;
    var transformed, remaining, records := messages, plan.reduction as int, [];
    for k := 0 to |order|
      invariant |transformed| == |messages|
      invariant CompactAll(c, blocks, plan, shares, order, Work(messages, plan.reduction, []))
                  == CompactAll(c, blocks, plan, shares, order[k..], Work(transformed, remaining, records))
    {
      var i := order[k];
      assert order[k..][0] == i && order[k..][1..] == order[k + 1..];
      var next := CompactMessage(c, blocks, plan, shares[i], transformed, remaining, records, i);
      transformed, remaining, records := next.messages, next.remaining, next.records;
    }
    done := Work(transformed, remaining, records);
  }

  method CompactMessage(
    c: Compactor, blocks: seq<ContextBlock>, plan: CompactionPlan, share: int,
    transformed: seq<Message>, remaining: int, records: seq<Record>, index: nat)
    returns (next: Work)
    requires index < |transformed|
    ensures |next.messages| == |transformed|
    ensures next == CompactOne(c, blocks, plan, share, Work(transformed, remaining, records), index)
  {
    hide Rewrite, BlockAt, TypeOf, ImportanceOf;
    next := Work(transformed, remaining, records);
    if transformed[index].content.Text? {
      var before := c.encoding.MessageTokens(transformed[index]);
      var requested := MinInt(remaining, share);
      if requested > 0 {
        var block := BlockAt(blocks, index);
        var shorter := Rewrite(c, transformed[index], block, requested);
        var after := c.encoding.MessageTokens(shorter);
        if after < before {
          next := Work(transformed[index := shorter], MaxInt(0, remaining - (before - after)),
                       records + [Record(index, before, after, TypeOf(block), ImportanceOf(plan, index))]);
        }
      }
    }
  }

  /** From plan to target: the whole reduction is allocated, and if every message that is asked for
      tokens yields at least its share, the target is met. */
  lemma DeliveredSharesMeetTarget<D>(
    c: Compactor, messages: seq<Message>, cache: CacheAnalysis<D>, route: ProviderRoute, value: CacheValue,
    budget: CallBudget, shares: map<nat, int>, order: seq<nat>)
    requires Describes(cache, c.encoding, messages) && Distinct(cache.compactableIndices)
    requires forall i | i in cache.compactableIndices :: i < |messages|
    requires var plan := Plan(cache, c.kept, route, value, budget);
             && (forall k | 0 <= k < |plan.eligible| :: plan.eligible[k] < |messages|)
             && EnumeratesBySize(order, shares)
             && (forall k | 0 <= k < |order| :: order[k] < |messages| && order[k] in shares && shares[order[k]] > 0)
             && Tally(shares, WaterFill.Units())
                  == Min(plan.reduction as real, Tally(CapacitiesAt(cache, c.kept, plan.eligible),
                                                       WaterFill.PositivePart()))
             && AllDeliver(c, cache.contextBlocks, plan, shares, order, Work(messages, plan.reduction, []))
    ensures var plan := Plan(cache, c.kept, route, value, budget);
            var done := CompactAll(c, cache.contextBlocks, plan, shares, order, Work(messages, plan.reduction, []));
            && Tally(shares, WaterFill.Units()) == plan.reduction as real
            && Saved(done.records) >= plan.reduction
            && cache.toolTokens + TokenSum(c.encoding, done.messages) <= plan.targetTokens
  {
    hide Tally; hide Rewrite; hide PlannerInputCost; hide AllDeliver; hide CompactAll; hide Reducible;
    var plan := Plan(cache, c.kept, route, value, budget);
    var start := Work(messages, plan.reduction, []);
    PlanIsReachable(cache, c.kept, route, value, budget);
    CapacityIsReducible(cache, c.kept, plan.eligible);
    ShareSumIsTally(shares, order);
    DeliveredInFull(c, cache.contextBlocks, plan, shares, order, start);
    CompactAllKeeps(c, cache.contextBlocks, plan, shares, order, start);
    assert Saved([]) == 0;
  }
}
