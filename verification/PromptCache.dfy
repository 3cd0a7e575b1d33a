/** What a session's cache record says about a conversation, without keeping any of its content. */
module PromptCache {
  import opened Basics
  import opened Models
  import opened Pricing
  import C = Compaction

  /** A tool declaration, standing for its JSON text. */
  type ToolSpec = int

  /** The parts of an analysis that read message text, and the hash over a prefix and the tools. */
  datatype Reading<!D> = Reading(
    encoding: Encoding,
    toolBytes: ToolSpec -> nat,
    toolKind: Message -> BlockType,
    blockName: (Message, nat) -> string,
    importance: (seq<Message>, nat) -> real,
    isBlank: string -> bool,
    hash: (seq<Message>, seq<ToolSpec>) -> D)

  ghost predicate Injective<D(!new)>(hash: (seq<Message>, seq<ToolSpec>) -> D) {
    forall m, t, n, u :: hash(m, t) == hash(n, u) ==> m == n && t == u
  }

  // ---------------------------------------------------------------- where the prefix ends

  /** The position of the latest user turn. */
  function LatestUser(messages: seq<Message>): (index: Option<nat>)
    ensures index.Some? ==> index.value < |messages| && messages[index.value].IsUserTurn()
    ensures index.Some? ==> forall i | index.value < i < |messages| :: !messages[i].IsUserTurn()
    ensures index.None? ==> forall i | 0 <= i < |messages| :: !messages[i].IsUserTurn()
    decreases |messages|
  {
    if messages == [] then None
    else if messages[|messages| - 1].IsUserTurn() then Some(|messages| - 1)
    else LatestUser(messages[..|messages| - 1])
  }

  function LeadingProtocol(messages: seq<Message>): (n: nat)
    ensures n <= |messages| && forall i | 0 <= i < n :: messages[i].IsProtocol()
    ensures n < |messages| ==> !messages[n].IsProtocol()
    decreases |messages|
  {
    if messages == [] || !messages[0].IsProtocol() then 0 else 1 + LeadingProtocol(messages[1..])
  }

  /** The prefix that a call offers for caching: everything before the latest user turn. */
  function ProposedPrefixCount(messages: seq<Message>): (n: nat)
    ensures n <= |messages|
  {
    match LatestUser(messages) case Some(i) => i case None => LeadingProtocol(messages)
  }

  function PrefixHash<D>(
    hash: (seq<Message>, seq<ToolSpec>) -> D, messages: seq<Message>, count: nat, tools: seq<ToolSpec>): Option<D>
    requires count <= |messages|
  {
    if count == 0 && tools == [] then None else Some(hash(messages[..count], tools))
  }

  // ---------------------------------------------------------------- context blocks

  function Repeats(messages: seq<Message>, index: nat, m: Message): nat
    requires index <= |messages|
    decreases index
  {
    if index == 0 then 0
    else Repeats(messages, index - 1, m) + if messages[index - 1] == m then 1 else 0
  }

  function KindOf<D>(r: Reading<D>, m: Message): BlockType {
    if m.IsProtocol() then Protocol
    else if m.role == UserRole then User
    else if m.IsToolResult() then
      (if r.toolKind(m) == Test || r.toolKind(m) == Patch then r.toolKind(m) else Tool)
    else if m.role == AssistantRole then Assistant
    else Generic
  }

  function BlockFor<D>(r: Reading<D>, messages: seq<Message>, index: nat): ContextBlock
    requires index < |messages|
  {
    var m := messages[index];
    var duplicate := Repeats(messages, index, m);
    var immutable := m.IsProtocol() || LatestUser(messages) == Some(index);
    ContextBlock(
      r.blockName(m, duplicate), [index], KindOf(r, m), r.encoding.MessageTokens(m), |messages| - index - 1, false,
      Min(1.0, duplicate as real * 0.5), 0.0, if immutable then 1.0 else r.importance(messages, index), immutable)
  }

  function Blocks<D>(r: Reading<D>, messages: seq<Message>): (blocks: seq<ContextBlock>)
    ensures |blocks| == |messages| && forall i | 0 <= i < |messages| :: blocks[i] == BlockFor(r, messages, i)
  {
    seq(|messages|, i requires 0 <= i < |messages| => BlockFor(r, messages, i))
  }

  /** Builds the blocks in one pass, counting the repetitions of each message seen so far. */
  method BuildContextBlocks<D>(r: Reading<D>, messages: seq<Message>) returns (blocks: seq<ContextBlock>)
    ensures blocks == Blocks(r, messages)
  {
    var latestUser := LatestUser(messages);
    var seen: map<Message, nat> := map[];
    blocks := [];
    for i := 0 to |messages|
      invariant |blocks| == i && forall j | 0 <= j < i :: blocks[j] == BlockFor(r, messages, j)
      invariant forall m :: (if m in seen then seen[m] else 0) == Repeats(messages, i, m)
    {
      var m := messages[i];
      var duplicate := if m in seen then seen[m] else 0;
      seen := seen[m := duplicate + 1];
      var immutable := m.IsProtocol() || latestUser == Some(i);
      var importance := if immutable then 1.0 else r.importance(messages, i);
      blocks := blocks + [ContextBlock(
        r.blockName(m, duplicate), [i], KindOf(r, m), r.encoding.MessageTokens(m), |messages| - i - 1, false,
        Min(1.0, duplicate as real * 0.5), 0.0, importance, immutable)];
    }
  }

  // ---------------------------------------------------------------- recovering the prefix from the blocks

  function LargestIndex(indices: seq<nat>, best: Option<nat>): Option<nat>
    decreases |indices|
  {
    if indices == [] then best
    else LargestIndex(indices[1..], if best.Some? && best.value >= indices[0] then best else Some(indices[0]))
  }

  /** The largest message index of a block that is an immutable user block. */
  function ImmutableUser(blocks: seq<ContextBlock>, best: Option<nat>): Option<nat>
    decreases |blocks|
  {
    if blocks == [] then best
    else if blocks[0].blockType == User && blocks[0].structurallyImmutable then
      ImmutableUser(blocks[1..], LargestIndex(blocks[0].messageIndices, best))
    else ImmutableUser(blocks[1..], best)
  }

  function ProtocolIndices(blocks: seq<ContextBlock>): set<nat> {
    set b, i | b in blocks && b.blockType == Protocol && i in b.messageIndices :: i
  }

  function CountWhileIn(s: set<nat>, from: nat): (n: nat)
    ensures n >= from && n !in s && forall i | from <= i < n :: i in s
    decreases AtLeast(s, from)
  {
    if from in s then
      assert AtLeast(s, from + 1) == AtLeast(s, from) - {from};
      assert from in AtLeast(s, from);
      CountWhileIn(s, from + 1)
    else from
  }

  ghost function AtLeast(s: set<nat>, from: nat): set<nat> {
    set i: nat | i in s && i >= from
  }

  /** The proposed boundary, read back from an analysis instead of from the messages. */
  function CandidatePrefixCount(blocks: seq<ContextBlock>): nat {
    match ImmutableUser(blocks, None)
    case Some(i) => i
    case None => CountWhileIn(ProtocolIndices(blocks), 0)
  }

  /** The features of blocks that fix the boundary; marking blocks as cached leaves them alone. */
  ghost predicate Outlines(blocks: seq<ContextBlock>, messages: seq<Message>) {
    && |blocks| == |messages|
    && (forall i | 0 <= i < |messages| ::
          && blocks[i].messageIndices == [i]
          && (blocks[i].blockType == Protocol <==> messages[i].IsProtocol())
          && (blocks[i].blockType == User && blocks[i].structurallyImmutable <==> LatestUser(messages) == Some(i)))
  }

  lemma {:induction false} ImmutableUserFrom(blocks: seq<ContextBlock>, messages: seq<Message>, k: nat)
    requires Outlines(blocks, messages) && k <= |blocks|
    ensures ImmutableUser(blocks[k..], if LatestUser(messages).Some? && LatestUser(messages).value < k
                                       then LatestUser(messages) else None) == LatestUser(messages)
    decreases |blocks| - k
  {
    var latest := LatestUser(messages);
    if k < |blocks| {
      assert blocks[k..][0] == blocks[k] && blocks[k..][1..] == blocks[k + 1..];
      ImmutableUserFrom(blocks, messages, k + 1);
      assert blocks[k].messageIndices == [k];
      assert LargestIndex([k], None) == Some(k) by { assert [k][1..] == []; }
    }
  }

  lemma ProtocolIndicesOfOutline(blocks: seq<ContextBlock>, messages: seq<Message>, i: nat)
    requires Outlines(blocks, messages)
    ensures i in ProtocolIndices(blocks) <==> i < |messages| && messages[i].IsProtocol()
  {
    hide LatestUser;
    if i in ProtocolIndices(blocks) {
      var b :| b in blocks && b.blockType == Protocol && i in b.messageIndices;
      var j :| 0 <= j < |blocks| && blocks[j] == b;
    }
    if i < |messages| {
      assert blocks[i] in blocks && i in blocks[i].messageIndices;
    }
  }

  lemma ProtocolPrefixOfOutline(blocks: seq<ContextBlock>, messages: seq<Message>)
    requires Outlines(blocks, messages)
    ensures CountWhileIn(ProtocolIndices(blocks), 0) == LeadingProtocol(messages)
  {
    hide ProtocolIndices, Outlines, CountWhileIn, LeadingProtocol;
    var mine, theirs := CountWhileIn(ProtocolIndices(blocks), 0), LeadingProtocol(messages);
    ProtocolIndicesOfOutline(blocks, messages, mine);
    ProtocolIndicesOfOutline(blocks, messages, theirs);
  }

  /** Both readings of the boundary agree. */
  lemma BoundaryRecovered(blocks: seq<ContextBlock>, messages: seq<Message>)
    requires Outlines(blocks, messages)
    ensures CandidatePrefixCount(blocks) == ProposedPrefixCount(messages)
  {
    hide Outlines, ImmutableUser, ProtocolIndices, LatestUser;
    ImmutableUserFrom(blocks, messages, 0);
    assert blocks[0..] == blocks;
    ProtocolPrefixOfOutline(blocks, messages);
  }

  lemma BlockOutline<D>(r: Reading<D>, messages: seq<Message>, i: nat)
    requires i < |messages|
    ensures var b := BlockFor(r, messages, i);
            && b.messageIndices == [i] && (b.blockType == Protocol <==> messages[i].IsProtocol())
            && (b.blockType == User && b.structurallyImmutable <==> LatestUser(messages) == Some(i))
  {
    hide LatestUser, Repeats;
  }

  /** The blocks built from messages have their outline. */
  lemma BuiltBlocksOutline<D>(r: Reading<D>, messages: seq<Message>)
    ensures Outlines(Blocks(r, messages), messages)
  {
    hide BlockFor, LatestUser;
    var blocks := Blocks(r, messages);
    forall i: nat | i < |messages|
      ensures blocks[i].messageIndices == [i] && (blocks[i].blockType == Protocol <==> messages[i].IsProtocol())
      ensures blocks[i].blockType == User && blocks[i].structurallyImmutable <==> LatestUser(messages) == Some(i)
    {
      BlockOutline(r, messages, i);
    }
  }

  // ---------------------------------------------------------------- which messages may change

  function Ascend(n: nat, keep: nat -> bool): (indices: seq<nat>)
    ensures forall i: nat :: i in indices <==> i < n && keep(i)
    ensures forall j | 0 <= j < |indices| :: indices[j] < n && keep(indices[j])
    ensures Distinct(indices)
    decreases n
  {
    if n == 0 then [] else Ascend(n - 1, keep) + if keep(n - 1) then [n - 1] else []
  }

  predicate HasResult(messages: seq<Message>, callId: string) {
    exists m | m in messages :: m.toolCallId == callId && callId != ""
  }

  /** Instructions, the latest user turn, and tool calls still waiting for a result. */
  predicate IsProtected(messages: seq<Message>, index: nat) {
    index < |messages| && (
      || LatestUser(messages) == Some(index)
      || messages[index].IsProtocol()
      || exists id | id in messages[index].toolCallIds :: id != "" && !HasResult(messages, id))
  }

  predicate IsSafe<D>(r: Reading<D>, m: Message) {
    (m.role == AssistantRole || m.role == ToolRole) && m.content.Text? && !r.isBlank(m.content.text)
  }

  predicate IsCompactable<D>(r: Reading<D>, minimum: nat, messages: seq<Message>, index: nat) {
    index < |messages| && !IsProtected(messages, index)
    && r.encoding.MessageTokens(messages[index]) >= minimum && IsSafe(r, messages[index])
  }

  // ---------------------------------------------------------------- one analysis

  datatype Session<D> = Session(lastModelId: Option<string>, lastProvider: Option<string>,
                                record: Option<CacheRecord<D>>)

  /** Reading a session at some time forgets a record that has expired. */
  function Current<D>(s: Session<D>, now: int): Session<D> {
    if s.record.Some? && s.record.value.expiresAt <= now then s.(record := None) else s
  }

  predicate Rematches<D(==)>(r: Reading<D>, record: Option<CacheRecord<D>>, messages: seq<Message>,
                             tools: seq<ToolSpec>)
  {
    record.Some? && record.value.messageCount <= |messages|
    && PrefixHash(r.hash, messages, record.value.messageCount, tools) == Some(record.value.prefixHash)
  }

  function ToolTokens<D>(r: Reading<D>, tools: seq<ToolSpec>): nat
    decreases |tools|
  {
    if tools == [] then 0 else TokensForBytes(r.toolBytes(tools[0])) + ToolTokens(r, tools[1..])
  }

  function Values<D(!new)>(candidates: seq<ModelCandidate>, record: Option<CacheRecord<D>>, total: nat, output: nat)
    : map<string, CacheValue>
    requires forall i | 0 <= i < |candidates| :: candidates[i].routes != []
    decreases |candidates|
  {
    if candidates == [] then map[]
    else
      var last := candidates[|candidates| - 1];
      Values(candidates[..|candidates| - 1], record, total, output)
        [last.modelId := CandidateValue(last, record, total, output)]
  }

  /** Every value is that of the candidate it is listed under. */
  lemma {:induction false} ValueOfCandidate<D(!new)>(
    candidates: seq<ModelCandidate>, record: Option<CacheRecord<D>>, total: nat, output: nat, id: string)
    returns (i: nat)
    requires forall i | 0 <= i < |candidates| :: candidates[i].routes != []
    requires id in Values(candidates, record, total, output)
    ensures i < |candidates| && candidates[i].modelId == id
    ensures Values(candidates, record, total, output)[id] == CandidateValue(candidates[i], record, total, output)
    decreases |candidates|
  {
    hide CandidateValue;
    i := |candidates| - 1;
    if candidates[i].modelId != id {
      i := ValueOfCandidate(candidates[..i], record, total, output, id);
    }
  }

  function MarkCached(blocks: seq<ContextBlock>, confirmed: nat, cacheableTokens: nat): (marked: seq<ContextBlock>)
    ensures |marked| == |blocks|
    ensures forall i | 0 <= i < |blocks| ::
              marked[i] == blocks[i].(cached := marked[i].cached,
                                      cacheInvalidationCost := marked[i].cacheInvalidationCost)
  {
    seq(|blocks|, i requires 0 <= i < |blocks| =>
      var hit := exists k | k in blocks[i].messageIndices :: k < confirmed;
      blocks[i].(cached := hit,
                 cacheInvalidationCost := if hit then blocks[i].tokens as real / MaxInt(1, cacheableTokens) as real
                   else 0.0))
  }

  function Analyze<D(!new, ==)>(
    r: Reading<D>, minimum: nat, s: Session<D>, messages: seq<Message>, tools: seq<ToolSpec>,
    candidates: seq<ModelCandidate>, output: nat, blocks: seq<ContextBlock>): CacheAnalysis<D>
    requires forall i | 0 <= i < |candidates| :: candidates[i].routes != []
  {
    var toolTokens := ToolTokens(r, tools);
    var total := C.TokenSum(r.encoding, messages) + toolTokens;
    var exact := Rematches(r, s.record, messages, tools);
    var confirmed := if exact && s.record.value.prefixTokens > 0 then s.record.value.messageCount else 0;
    var cacheableTokens := if confirmed > 0 then s.record.value.prefixTokens else 0;
    CacheAnalysis(
      total, toolTokens,
      seq(|messages|, i requires 0 <= i < |messages| => r.encoding.MessageTokens(messages[i])),
      PrefixHash(r.hash, messages, ProposedPrefixCount(messages), tools),
      seq(confirmed, i => i),
      Ascend(|messages|, (i: nat) => IsProtected(messages, i)),
      Ascend(|messages|, (i: nat) => IsCompactable(r, minimum, messages, i)),
      cacheableTokens, s.lastModelId, s.lastProvider,
      Values(candidates, if exact then s.record else None, total, output),
      MarkCached(blocks, confirmed, cacheableTokens))
  }

  /** An analysis describes its messages, and offers only unprotected messages for compaction. */
  lemma AnalysisIsWellFormed<D(!new)>(
    r: Reading<D>, minimum: nat, s: Session<D>, messages: seq<Message>, tools: seq<ToolSpec>,
    candidates: seq<ModelCandidate>, output: nat, blocks: seq<ContextBlock>)
    requires forall i | 0 <= i < |candidates| :: candidates[i].routes != []
    ensures var a := Analyze(r, minimum, s, messages, tools, candidates, output, blocks);
            && C.Describes(a, r.encoding, messages)
            && Distinct(a.compactableIndices)
            && (forall j | 0 <= j < |a.compactableIndices| :: a.compactableIndices[j] < |messages|)
            && (forall i | i in a.compactableIndices :: i !in a.protectedIndices)
            && (Outlines(blocks, messages) ==> AnalysisOf(r, a, Call(messages, tools)))
  {
    hide Values; hide CandidateValue;
  }

  /** What an analysis leaves alone: instructions, the latest user turn, and messages that call a tool whose
      result is missing.  What it offers for shortening: the other plain texts of assistants and tools that are
      long enough and not blank. */
  lemma AnalysisOffers<D(!new)>(
    r: Reading<D>, minimum: nat, s: Session<D>, messages: seq<Message>, tools: seq<ToolSpec>,
    candidates: seq<ModelCandidate>, output: nat, blocks: seq<ContextBlock>, i: nat)
    requires (forall i | 0 <= i < |candidates| :: candidates[i].routes != []) && i < |messages|
    ensures var a, m := Analyze(r, minimum, s, messages, tools, candidates, output, blocks), messages[i];
            && (i in a.protectedIndices <==>
                  || m.role == SystemRole || m.role == DeveloperRole
                  || (m.role == UserRole && m.toolCallId == ""
                      && forall j | i < j < |messages| :: messages[j].role != UserRole || messages[j].toolCallId != "")
                  || (exists id | id in m.toolCallIds :: id != "" && forall n | n in messages :: n.toolCallId != id))
            && (i in a.compactableIndices <==>
                  && i !in a.protectedIndices && r.encoding.MessageTokens(m) >= minimum
                  && m.role in {AssistantRole, ToolRole} && m.content.Text? && !r.isBlank(m.content.text))
  {
    hide Values, MarkCached, PrefixHash, ToolTokens, Rematches;
    LatestUserIs(messages, i);
  }

  lemma LatestUserIs(messages: seq<Message>, i: nat)
    requires i < |messages|
    ensures LatestUser(messages) == Some(i) <==>
              messages[i].IsUserTurn() && forall j | i < j < |messages| :: !messages[j].IsUserTurn()
  {
    hide LatestUser;
  }

  /** The prefix that an analysis offers ends before the latest user turn, or after the leading instructions when
      there is none; its hash covers that prefix and the tools, and is missing only when both are empty. */
  lemma OfferedPrefix<D(!new)>(
    r: Reading<D>, minimum: nat, s: Session<D>, messages: seq<Message>, tools: seq<ToolSpec>,
    candidates: seq<ModelCandidate>, output: nat, blocks: seq<ContextBlock>, n: nat)
    requires (forall i | 0 <= i < |candidates| :: candidates[i].routes != []) && n <= |messages|
    requires || (n < |messages| && messages[n].IsUserTurn()
                 && forall i | n < i < |messages| :: !messages[i].IsUserTurn())
             || ((forall i | 0 <= i < |messages| :: !messages[i].IsUserTurn())
                 && (forall i | 0 <= i < n :: messages[i].IsProtocol())
                   && (n < |messages| ==> !messages[n].IsProtocol()))
    ensures Analyze(r, minimum, s, messages, tools, candidates, output, blocks).prefixHash
              == if n == 0 && tools == [] then None else Some(r.hash(messages[..n], tools))
  {
    hide Values, MarkCached, IsProtected, IsCompactable, Ascend, ToolTokens, Rematches, LatestUser, LeadingProtocol;
    assert ProposedPrefixCount(messages) == n;
  }

  /** What an analysis says of the cache: the messages of a matching record that holds tokens are cached, a block
      is when it holds one of them, and rewriting it would invalidate its tokens as a part of the record's. */
  lemma AnalysisReports<D(!new)>(
    r: Reading<D>, minimum: nat, s: Session<D>, messages: seq<Message>, tools: seq<ToolSpec>,
    candidates: seq<ModelCandidate>, output: nat, blocks: seq<ContextBlock>)
    requires forall i | 0 <= i < |candidates| :: candidates[i].routes != []
    ensures var a := Analyze(r, minimum, s, messages, tools, candidates, output, blocks);
            var n := |a.cacheableIndices|;
            && a.lastModelId == s.lastModelId && a.lastProvider == s.lastProvider
            && a.toolTokens == ToolTokens(r, tools)
            && (forall i | 0 <= i < n :: a.cacheableIndices[i] == i)
            && (n > 0 <==>
                  && s.record.Some? && 0 < s.record.value.messageCount <= |messages| && s.record.value.prefixTokens > 0
                  && PrefixHash(r.hash, messages, s.record.value.messageCount, tools)
                       == Some(s.record.value.prefixHash))
            && (n > 0 ==> n == s.record.value.messageCount && a.cacheableTokens == s.record.value.prefixTokens)
            && (n == 0 ==> a.cacheableTokens == 0)
            && |a.contextBlocks| == |blocks|
            && (forall k | 0 <= k < |blocks| ::
                  var b := a.contextBlocks[k];
                  && (b.cached <==> exists i | i in blocks[k].messageIndices :: i < n)
                  && b.cacheInvalidationCost
                       == (if b.cached then blocks[k].tokens as real / a.cacheableTokens as real else 0.0))
  {
    hide Values, IsProtected, IsCompactable, Ascend, PrefixHash, ToolTokens;
  }

  /** What a block says of its message: its kind, how many came after it, and how often it was said before. */
  lemma BlockMeaning<D>(r: Reading<D>, messages: seq<Message>, i: nat)
    requires i < |messages|
    ensures var b, m := Blocks(r, messages)[i], messages[i];
            var before := multiset(messages[..i])[m];
            && b.messageIndices == [i] && b.age + i + 1 == |messages| && b.tokens == r.encoding.MessageTokens(m)
            && b.redundancy == (if before == 0 then 0.0 else if before == 1 then 0.5 else 1.0)
            && (b.structurallyImmutable <==>
                  || m.role in {SystemRole, DeveloperRole}
                  || (m.IsUserTurn() && forall j | i < j < |messages| :: !messages[j].IsUserTurn()))
            && (b.structurallyImmutable ==> b.importance == 1.0) && !b.cached
            && (b.blockType == Protocol <==> m.role in {SystemRole, DeveloperRole})
            && (b.blockType == User <==> m.role == UserRole)
            && (b.blockType in {Tool, Test, Patch} <==>
                  m.role == ToolRole || (m.toolCallId != "" && m.role in {AssistantRole, OtherRole}))
            && (b.blockType in {Tool, Test, Patch} ==>
                  b.blockType == if r.toolKind(m) in {Test, Patch} then r.toolKind(m) else Tool)
            && (b.blockType == Assistant <==> m.role == AssistantRole && m.toolCallId == "")
  {
    hide LatestUser, Repeats;
    LatestUserIs(messages, i);
    RepeatsCount(messages, i, messages[i]);
  }

  lemma {:induction false} RepeatsCount(messages: seq<Message>, index: nat, m: Message)
    requires index <= |messages|
    ensures Repeats(messages, index, m) == multiset(messages[..index])[m]
    decreases index
  {
    if index > 0 {
      RepeatsCount(messages, index - 1, m);
      assert messages[..index] == messages[..index - 1] + [messages[index - 1]];
    }
  }

  // ---------------------------------------------------------------- one observation

  datatype Usage = Usage(modelId: string, provider: string, cacheReadTokens: nat, cacheWriteTokens: nat)

  function Observe<D>(s: Session<D>, a: CacheAnalysis<D>, route: ProviderRoute, usage: Usage, now: int): Session<D> {
    var seen := s.(lastModelId := Some(usage.modelId), lastProvider := Some(usage.provider));
    if a.prefixHash.Some? && route.cacheSupported && (usage.cacheReadTokens > 0 || usage.cacheWriteTokens > 0) then
      seen.(record := Some(CacheRecord(
        usage.modelId, usage.provider, a.prefixHash.value, CandidatePrefixCount(a.contextBlocks),
        MaxInt(usage.cacheReadTokens, usage.cacheWriteTokens), now + route.cacheTtlSeconds)))
    else seen
  }

  /** The call a record was made from. */
  datatype Call = Call(messages: seq<Message>, tools: seq<ToolSpec>)

  ghost predicate Remembers<D>(r: Reading<D>, record: CacheRecord<D>, call: Call) {
    && record.messageCount == ProposedPrefixCount(call.messages)
    && PrefixHash(r.hash, call.messages, record.messageCount, call.tools) == Some(record.prefixHash)
    && record.prefixTokens > 0
  }

  /** The analysis was made of this call, with the blocks built from its own messages. */
  ghost predicate AnalysisOf<D>(r: Reading<D>, a: CacheAnalysis<D>, call: Call) {
    && a.prefixHash == PrefixHash(r.hash, call.messages, ProposedPrefixCount(call.messages), call.tools)
    && Outlines(a.contextBlocks, call.messages)
    && (forall i | 0 <= i < |call.messages| :: i in a.protectedIndices <==> IsProtected(call.messages, i))
  }

  /** A stored hash is always the hash of the first messageCount messages, and the tools, of the call observed. */
  lemma ObservedRecordRemembersCall<D>(
    r: Reading<D>, s: Session<D>, a: CacheAnalysis<D>, route: ProviderRoute, usage: Usage, now: int, call: Call)
    requires AnalysisOf(r, a, call)
    ensures var after := Observe(s, a, route, usage, now).record;
            after == s.record || (after.Some? && Remembers(r, after.value, call))
    ensures Observe(s, a, route, usage, now).record != s.record ==>
              route.cacheSupported && (usage.cacheReadTokens > 0 || usage.cacheWriteTokens > 0)
  {
    BoundaryRecovered(a.contextBlocks, call.messages);
  }

  /** With an injective hash a record matches a call exactly when the call repeats, literally, the
      prefix and the tools that the record was made from. */
  lemma RematchesIffLiteralPrefix<D(!new)>(
    r: Reading<D>, record: CacheRecord<D>, origin: Call, messages: seq<Message>, tools: seq<ToolSpec>)
    requires Injective(r.hash) && Remembers(r, record, origin)
    ensures Rematches(r, Some(record), messages, tools) <==>
              && record.messageCount <= |messages|
              && messages[..record.messageCount] == origin.messages[..record.messageCount]
              && tools == origin.tools
  {
    if record.messageCount <= |messages| && !(record.messageCount == 0 && tools == []) {
      var mine, theirs := messages[..record.messageCount], origin.messages[..record.messageCount];
      assert r.hash(mine, tools) == r.hash(theirs, origin.tools) ==> mine == theirs && tools == origin.tools;
    }
  }

  lemma CachedOnlyIfRecorded<D(!new)>(c: ModelCandidate, record: Option<CacheRecord<D>>, total: nat, output: nat)
    requires c.routes != [] && record.None?
    ensures CandidateValue(c, record, total, output).cachedTokens == 0
            && !CandidateValue(c, record, total, output).exactReuse
  {}

  /** Cached tokens are credited only to an unexpired, literal repetition of the recorded prefix. */
  lemma CachedTokensNeedLiteralPrefix<D(!new)>(
    r: Reading<D>, minimum: nat, s: Session<D>, origin: Call, now: int, messages: seq<Message>, tools: seq<ToolSpec>,
    candidates: seq<ModelCandidate>, output: nat, blocks: seq<ContextBlock>, modelId: string)
    requires Injective(r.hash) && (s.record.Some? ==> Remembers(r, s.record.value, origin))
    requires forall i | 0 <= i < |candidates| :: candidates[i].routes != []
    requires var a := Analyze(r, minimum, Current(s, now), messages, tools, candidates, output, blocks);
             a.cacheableIndices != [] || (modelId in a.values && a.values[modelId].cachedTokens > 0)
    ensures s.record.Some? && now < s.record.value.expiresAt && tools == origin.tools
    ensures var n := s.record.value.messageCount;
            n <= |messages| && n <= |origin.messages| && messages[..n] == origin.messages[..n]
  {
    hide CandidateValue; hide TokensForBytes;
    var now' := Current(s, now);
    if !Rematches(r, now'.record, messages, tools) {
      var total := C.TokenSum(r.encoding, messages) + ToolTokens(r, tools);
      var values := Values<D>(candidates, None, total, output);
      if modelId in values {
        var i := ValueOfCandidate<D>(candidates, None, total, output, modelId);
        CachedOnlyIfRecorded<D>(candidates[i], None, total, output);
      }
      assert false;
    }
    RematchesIffLiteralPrefix(r, s.record.value, origin, messages, tools);
  }

  /** A conversation that only grew, with the same tools, matches its record until the record expires,
      and then offers the whole recorded prefix as cacheable. */
  lemma GrownConversationRematches<D(!new)>(
    r: Reading<D>, minimum: nat, s: Session<D>, origin: Call, now: int, messages: seq<Message>,
    candidates: seq<ModelCandidate>, output: nat, blocks: seq<ContextBlock>)
    requires s.record.Some? && Remembers(r, s.record.value, origin) && now < s.record.value.expiresAt
    requires origin.messages <= messages
    requires forall i | 0 <= i < |candidates| :: candidates[i].routes != []
    ensures var a := Analyze(r, minimum, Current(s, now), messages, origin.tools, candidates, output, blocks);
            && |a.cacheableIndices| == s.record.value.messageCount
            && (forall i | 0 <= i < s.record.value.messageCount :: a.cacheableIndices[i] == i)
            && a.values == Values(candidates, s.record, a.totalTokens, output)
  {
    hide Values; hide CandidateValue;
    var n := s.record.value.messageCount;
    assert messages[..n] == origin.messages[..n];
  }

  // ---------------------------------------------------------------- a conversation whose shorter form costs more

  /** A long answer of 100 tokens and a question of 10. */
  const TURNS: seq<Message> :=
    [Message(AssistantRole, Text("log"), "", []), Message(UserRole, Text("why?"), "", [])]

  const PLAIN_READING: Reading<Call> := Reading(
    Encoding((m: Message) => if m.role == AssistantRole then 400 else 40, _ => 4), _ => 4, _ => Generic,
      (_, _) => "block",
    (_, _) => 0.5, text => text == "", (messages, tools) => Call(messages, tools))

  /** A route that reads its cache for nothing. */
  const FREE_READS: ProviderRoute := ProviderRoute("route", "provider", 1.0, 1.0, Some(0.0), 1, 1, true, true, 60)

  const ONE_ROUTE: ModelCandidate := ModelCandidate("model", 1.0, 1000, {}, [FREE_READS])

  function Analyzed(s: Session<Call>): CacheAnalysis<Call> {
    Analyze(PLAIN_READING, 48, s, TURNS, [], [ONE_ROUTE], 0, Blocks(PLAIN_READING, TURNS))
  }

  /** The session after the provider of a first call reported that it cached the answer. */
  function Observed(): Session<Call> {
    var blank := Session(None, None, None);
    Observe(blank, Analyzed(blank), FREE_READS, Usage("model", "provider", 0, 100), 0)
  }

  lemma ObservedPrefix()
    ensures Observed().record == Some(CacheRecord("model", "provider", Call(TURNS[..1], []), 1, 100, 60))
  {
    hide Values;
    var first := Analyzed(Session(None, None, None));
    BuiltBlocksOutline(PLAIN_READING, TURNS);
    AnalysisIsWellFormed(PLAIN_READING, 48, Session(None, None, None), TURNS, [], [ONE_ROUTE], 0,
                         Blocks(PLAIN_READING, TURNS));
    BoundaryRecovered(first.contextBlocks, TURNS);
  }

  lemma OnlyElement(indices: seq<nat>, i: nat)
    requires Distinct(indices) && forall k :: k in indices <==> k == i
    ensures indices == [i]
  {
    assert i in indices;
    assert |indices| > 1 ==> indices[0] != indices[1];
    forall j | 0 <= j < |indices| ensures indices[j] == i { assert indices[j] in indices; }
  }

  lemma PlaceOfTurns(i: nat)
    ensures IsProtected(TURNS, i) <==> i == 1
    ensures IsCompactable(PLAIN_READING, 48, TURNS, i) <==> i == 0
  {
    assert LatestUser(TURNS) == Some(1);
  }

  lemma ValueOfOne(c: ModelCandidate, record: Option<CacheRecord<Call>>, total: nat, output: nat)
    requires c.routes != []
    ensures Values([c], record, total, output) == map[c.modelId := CandidateValue(c, record, total, output)]
  {
    hide CandidateValue;
    assert [c][..0] == [];
  }

  lemma AnalyzedAgain(s: Session<Call>)
    requires s.record == Some(CacheRecord("model", "provider", Call(TURNS[..1], []), 1, 100, 60))
    ensures var cache := Analyzed(s);
            && cache.totalTokens == 110 && cache.messageTokens == [100, 10] && cache.cacheableIndices == [0]
            && cache.compactableIndices == [0] && cache.protectedIndices == [1]
            && cache.values == map["model" := CandidateValue(ONE_ROUTE, s.record, 110, 0)]
  {
    hide CandidateValue, Values, Blocks, MarkCached, IsProtected, IsCompactable, Ascend;
    var cache := Analyzed(s);
    assert cache.messageTokens == [100, 10];
    assert C.TokenSum(PLAIN_READING.encoding, TURNS) == 110;
    ValueOfOne(ONE_ROUTE, s.record, 110, 0);
    forall i: nat
      ensures IsProtected(TURNS, i) <==> i == 1
      ensures IsCompactable(PLAIN_READING, 48, TURNS, i) <==> i == 0
    {
      PlaceOfTurns(i);
    }
    OnlyElement(cache.compactableIndices, 0);
    OnlyElement(cache.protectedIndices, 1);
  }

  lemma PricedOnOneRoute(cache: CacheAnalysis<Call>, value: CacheValue, tokens: nat, kept: bool)
    requires value.provider == "provider" && value.exactReuse && value.cachedTokens == 100
    requires RouterKeepsCache(cache, tokens) == kept && tokens >= 100
    ensures RoutedPrice([FREE_READS], tokens, cache, value, 0)
              == (if kept then tokens - 100 else tokens) as real / MILLION
  {
    hide RouterKeepsCache;
  }

  lemma KeptWhenWhole(cache: CacheAnalysis<Call>)
    requires cache.totalTokens == 110 && cache.messageTokens == [100, 10] && cache.cacheableIndices == [0]
    requires cache.compactableIndices == [0] && cache.protectedIndices == [1]
    ensures RouterKeepsCache(cache, 110) && !RouterKeepsCache(cache, 100)
    ensures C.MinimumReachable(cache, ROUTED_FLOOR) == 42
  {
    assert Except([0], [0]) == [] && Except([0], [1]) == [0];
  }

  /** When the conversation is sent again before the record expires, cutting it from 110 tokens to 100, which
      compaction can do, raises its price tenfold. */
  lemma ShorterContextCanCostMore(now: int)
    requires now < 60
    ensures var cache := Analyzed(Current(Observed(), now));
            && ONE_ROUTE.Valid() && "model" in cache.values
            && C.MinimumReachable(cache, ROUTED_FLOOR) <= 100 < cache.totalTokens == 110
            && RoutedPrice(ONE_ROUTE.routes, 100, cache, cache.values["model"], 0) == 100.0 / MILLION
            && RoutedPrice(ONE_ROUTE.routes, 110, cache, cache.values["model"], 0) == 10.0 / MILLION
  {
    hide Analyzed, Observed, RoutedPrice;
    ObservedPrefix();
    var cache := Analyzed(Current(Observed(), now));
    AnalyzedAgain(Current(Observed(), now));
    KeptWhenWhole(cache);
    PricedOnOneRoute(cache, cache.values["model"], 100, false);
    PricedOnOneRoute(cache, cache.values["model"], 110, true);
  }

  // ---------------------------------------------------------------- the coordinator's sessions

  class PromptCacheCoordinator<D(!new, ==)> {
    const reading: Reading<D>
    const minimumCompactableTokens: nat
    var sessions: map<string, Session<D>>
    /** The call each session's record was made from; the program keeps only its hash. */
    ghost var origins: map<string, Call>

    constructor (reading: Reading<D>, minimumCompactableTokens: nat)
      ensures Valid() && sessions == map[] && this.reading == reading
    {
      this.reading := reading;
      this.minimumCompactableTokens := minimumCompactableTokens;
      sessions, origins := map[], map[];
    }

    ghost predicate Valid()
      reads this
    {
      forall s | s in sessions && sessions[s].record.Some? ::
        s in origins && Remembers(reading, sessions[s].record.value, origins[s])
    }

    function SessionOf(sessionId: string): Session<D>
      reads this
    {
      if sessionId in sessions then sessions[sessionId] else Session(None, None, None)
    }

    method AnalyzeCall(sessionId: string, messages: seq<Message>, tools: seq<ToolSpec>, candidates: seq<ModelCandidate>,
                       output: nat, supplied: Option<seq<ContextBlock>>, now: int)
      returns (a: CacheAnalysis<D>)
      requires Valid() && messages != []
      requires forall i | 0 <= i < |candidates| :: candidates[i].routes != []
      modifies this`sessions
      ensures Valid()
      ensures sessions == if sessionId in old(sessions)
                          then old(sessions)[sessionId := Current(old(sessions)[sessionId], now)] else old(sessions)
      ensures var blocks := if supplied.Some? && supplied.value != [] then supplied.value
              else Blocks(reading, messages);
              a == Analyze(reading, minimumCompactableTokens, Current(old(SessionOf(sessionId)), now), messages, tools,
                           candidates, output, blocks)
      ensures supplied == None || supplied == Some(Blocks(reading, messages)) ==>
              AnalysisOf(reading, a, Call(messages, tools))
    {
      hide Values, BlockFor, Analyze, AnalysisOf;
      var state := Current(SessionOf(sessionId), now);
      if sessionId in sessions {
        sessions := sessions[sessionId := state];
      }
      var blocks;
      if supplied.Some? && supplied.value != [] {
        blocks := supplied.value;
      } else {
        blocks := BuildContextBlocks(reading, messages);
      }
      BuiltBlocksOutline(reading, messages);
      AnalysisIsWellFormed(reading, minimumCompactableTokens, state, messages, tools, candidates, output, blocks);
      a := Analyze(reading, minimumCompactableTokens, state, messages, tools, candidates, output, blocks);
    }

    /** Records a completed call; a record is made only when the provider reports cached tokens. */
    method ObserveCall(sessionId: string, a: CacheAnalysis<D>, route: ProviderRoute, usage: Usage, now: int,
                       ghost call: Call)
      requires Valid() && AnalysisOf(reading, a, call)
      modifies this
      ensures Valid()
      ensures sessions == old(sessions)[sessionId := Observe(old(SessionOf(sessionId)), a, route, usage, now)]
      ensures forall s | s in old(origins) && s != sessionId :: s in origins && origins[s] == old(origins)[s]
      ensures sessions[sessionId].record != old(SessionOf(sessionId)).record ==>
                sessionId in origins && origins[sessionId] == call
    {
      hide Remembers; hide AnalysisOf; hide CandidatePrefixCount; hide PrefixHash;
      ObservedRecordRemembersCall(reading, SessionOf(sessionId), a, route, usage, now, call);
      ghost var changed := Observe(SessionOf(sessionId), a, route, usage, now).record != SessionOf(sessionId).record;
      var state := SessionOf(sessionId).(lastModelId := Some(usage.modelId), lastProvider := Some(usage.provider));
      var cacheObserved := usage.cacheReadTokens > 0 || usage.cacheWriteTokens > 0;
      if a.prefixHash.Some? && route.cacheSupported && cacheObserved {
        state := state.(record := Some(CacheRecord(
          usage.modelId, usage.provider, a.prefixHash.value, CandidatePrefixCount(a.contextBlocks),
          MaxInt(usage.cacheReadTokens, usage.cacheWriteTokens), now + route.cacheTtlSeconds)));
      }
      if changed { origins := origins[sessionId := call]; }
      sessions := sessions[sessionId := state];
    }
  }
}
