/** The typed contracts that the control plane's components exchange. */
module Models {
  import opened Basics

  datatype OperatingPolicy = OperatingPolicy(
    hardAgentCostLimitUsd: Option<real>,
    hardAgentLatencyLimitMs: Option<int>,
    hardCallCostLimitUsd: Option<real>,
    hardCallLatencyLimitMs: Option<int>,
    costPriority: real,
    latencyPriority: real,
    qualityPriority: real,
    cachePriority: real,
    providerExplorationFraction: real,
    maximumProviderExplorationMs: nat,
    controllerReserveMs: nat,
    compactionReserveMs: nat,
    latencySafetyMarginMs: nat)
  {
    predicate CapsCost() {
      hardCallCostLimitUsd.Some? || hardAgentCostLimitUsd.Some?
    }

    predicate CapsLatency() {
      hardCallLatencyLimitMs.Some? || hardAgentLatencyLimitMs.Some?
    }

    predicate Valid() {
      0.0 <= providerExplorationFraction <= 1.0
    }
  }

  datatype ProviderRoute = ProviderRoute(
    routeId: string,
    provider: string,
    inputPrice: real,
    outputPrice: real,
    cacheReadPrice: Option<real>,
    p95TtftMs: nat,
    p95TotalMs: nat,
    guaranteed: bool,
    cacheSupported: bool,
    cacheTtlSeconds: nat)
  {
    predicate Valid() {
      && inputPrice >= 0.0 && outputPrice >= 0.0
      && (cacheReadPrice.Some? ==> cacheReadPrice.value >= 0.0)
      && 0 < p95TtftMs <= p95TotalMs
    }

    /** What a million cached input tokens cost on this route. */
    function CachedRate(): real {
      if cacheReadPrice.Some? then cacheReadPrice.value else inputPrice
    }
  }

  datatype ModelCandidate = ModelCandidate(
    modelId: string,
    quality: real,
    contextWindowTokens: nat,
    capabilities: set<string>,
    routes: seq<ProviderRoute>)
  {
    predicate Valid() {
      && routes != []
      && (forall i | 0 <= i < |routes| :: routes[i].Valid())
      && (forall i, j | 0 <= i < j < |routes| :: routes[i].routeId != routes[j].routeId)
    }
  }

  datatype BlockType = Protocol | User | Assistant | Tool | Test | Patch | Generic

  datatype ContextBlock = ContextBlock(
    blockId: string,
    messageIndices: seq<nat>,
    blockType: BlockType,
    tokens: nat,
    age: nat,
    cached: bool,
    redundancy: real,
    cacheInvalidationCost: real,
    importance: real,
    structurallyImmutable: bool)

  datatype CacheValue = CacheValue(
    provider: string,
    exactReuse: bool,
    cachedTokens: nat,
    inputCostUsd: real,
    retainedValueUsd: real,
    switchCostUsd: real)

  datatype CacheAnalysis<Digest> = CacheAnalysis(
    totalTokens: nat,
    toolTokens: nat,
    messageTokens: seq<nat>,
    prefixHash: Option<Digest>,
    cacheableIndices: seq<nat>,
    protectedIndices: seq<nat>,
    compactableIndices: seq<nat>,
    cacheableTokens: nat,
    lastModelId: Option<string>,
    lastProvider: Option<string>,
    values: map<string, CacheValue>,
    contextBlocks: seq<ContextBlock>)

  /** What is kept of a prefix that a provider reported as cached; no message content. */
  datatype CacheRecord<Digest> = CacheRecord(
    modelId: string,
    provider: string,
    prefixHash: Digest,
    messageCount: nat,
    prefixTokens: nat,
    expiresAt: int)

  datatype ImportanceOverride = ImportanceOverride(blockId: string, importance: real)

  /** The allocation that the budget model proposes for one call. */
  datatype AllocationDecision = AllocationDecision(
    costUsd: real,
    latencyMs: int,
    inputCostFraction: real,
    requiredContextTokens: int,
    importanceOverrides: seq<ImportanceOverride>)
  {
    predicate Valid() {
      costUsd >= 0.000001 && latencyMs > 0 && 0.000001 <= inputCostFraction < 1.0 && requiredContextTokens > 0
    }
  }

  datatype CallBudget = CallBudget(
    callId: int,
    costUsd: real,
    inputCostUsd: real,
    outputCostUsd: real,
    latencyMs: int,
    requiredContextTokens: int,
    importanceOverrides: seq<ImportanceOverride>)

  // ---------------------------------------------------------------- conversations

  datatype Role = SystemRole | DeveloperRole | UserRole | ToolRole | AssistantRole | OtherRole

  /** Message content: text, or some other JSON value. */
  datatype Content = Text(text: string) | Structured(value: int)

  /** One chat message: an empty id means that the field is absent or blank. */
  datatype Message = Message(role: Role, content: Content, toolCallId: string, toolCallIds: seq<string>)
  {
    predicate IsProtocol() {
      role == SystemRole || role == DeveloperRole
    }

    /** A user turn that is not the answer to a tool call. */
    predicate IsUserTurn() {
      role == UserRole && toolCallId == ""
    }

    predicate IsToolResult() {
      role == ToolRole || toolCallId != ""
    }
  }

  /** How many bytes the canonical JSON of a message, and of a bare string, takes. */
  datatype Encoding = Encoding(messageBytes: Message -> nat, textBytes: string -> nat)
  {
    function MessageTokens(m: Message): (n: nat)
      ensures n >= 1
    {
      TokensForBytes(messageBytes(m))
    }

    function TextTokens(s: string): (n: nat)
      ensures n >= 1
    {
      TokensForBytes(textBytes(s))
    }
  }

  function TokensForBytes(bytes: nat): (n: nat)
    ensures n >= 1
  {
    MaxInt(1, (bytes + 3) / 4)
  }

  /** Four bytes to a token, the last one filled or not, and at least one token. */
  lemma TokensCoverBytes(bytes: nat)
    ensures var n := TokensForBytes(bytes);
            bytes <= 4 * n && (n > 1 ==> 4 * (n - 1) < bytes) && (bytes <= 4 ==> n == 1)
  {
  }
}
