/** The live-request policy file and its validation (src/scheduling_policy.rs). */
module Policy {
  import opened Basics

  const MAX_WINDOW_SECONDS: nat := 31_536_000
  const MAX_WAIT_MS: nat := 86_400_000
  const PRIORITY_BOUND: int := 1_000_000

  datatype QuotaLimit = QuotaLimit(
    provider: Option<string>,
    model: Option<string>,
    authScoped: bool,
    windowSeconds: nat,
    maxRps: Option<nat>,
    maxRequests: Option<nat>,
    maxInputTokens: Option<nat>,
    maxOutputTokens: Option<nat>,
    maxTotalTokens: Option<nat>,
    maxConcurrency: Option<nat>
  ) {
    predicate HasRollingQuota() {
      maxRps.Some? || maxRequests.Some? || maxInputTokens.Some? || maxOutputTokens.Some? || maxTotalTokens.Some?
    }

    function Window(): Duration {
      Seconds(windowSeconds)
    }
  }

  datatype ComplexitySettings = ComplexitySettings(
    lowInputTokens: nat,
    highInputTokens: nat,
    highToolCount: nat,
    lowPriority: int,
    mediumPriority: int,
    highPriority: int
  )

  datatype SchedulingPolicy = SchedulingPolicy(
    enabled: bool,
    limits: seq<QuotaLimit>,
    maxWaitMs: nat,
    asyncMaxWaitMs: nat,
    maxRetries: nat,
    maxPending: nat,
    maxPendingBytes: nat,
    queueCoalesceMs: nat,
    cacheAffinityWindowMs: nat,
    recentPromptWindowMs: nat,
    idleDecayMs: nat,
    agingIntervalMs: nat,
    highPriorityThreshold: int,
    cacheAffinityBoost: int,
    recentPromptBoost: int,
    toolOutputPenalty: int,
    idleDecayPenaltyPerInterval: int,
    queueAgingBoostPerInterval: int,
    asyncAliasPenalty: int,
    batchOnCacheMiss: bool,
    defaultOutputTokens: nat,
    complexity: ComplexitySettings
  )

  datatype PolicyError =
    | BadMaxWait
    | BadAsyncMaxWait
    | ZeroAgingInterval
    | CoalesceExceedsWait
    | ZeroDefaultOutput
    | BadMaxPending
    | BadMaxPendingBytes
    | PriorityOutOfRange(setting: nat)
    | ComplexityBandsOverlap
    | ZeroToolCount
    | BadWindow(index: nat)
    | NoQuota(index: nat)
    | ZeroQuota(index: nat)
    | BlankSelector(index: nat)
    | QuotaTooLarge(index: nat, field: nat)

  // The Unicode White_Space code points removed by `str::trim`.
  predicate IsWhiteSpace(c: char) {
    || '\U{9}' <= c <= '\U{D}'
    || c in {' ', '\U{85}', '\U{A0}', '\U{1680}', '\U{2028}', '\U{2029}', '\U{202F}', '\U{205F}', '\U{3000}'}
    || '\U{2000}' <= c <= '\U{200A}'
  }

  predicate IsBlank(s: string) {
    forall c | c in s :: IsWhiteSpace(c)
  }

  // A name with a printable ASCII character in it is not blank; the empty name and one of spaces, tabs and line ends
  // are.
  lemma {:induction false} BlankNames(name: string)
    ensures (exists c :: c in name && '!' <= c <= '~') ==> !IsBlank(name)
    ensures (forall c | c in name :: c in {' ', '\t', '\r', '\n'}) ==> IsBlank(name)
  {
  }

  // The priority settings, in the order validation visits them.
  function PrioritySettings(policy: SchedulingPolicy): seq<int> {
    [policy.highPriorityThreshold, policy.cacheAffinityBoost, policy.recentPromptBoost, policy.toolOutputPenalty,
     policy.idleDecayPenaltyPerInterval, policy.queueAgingBoostPerInterval, policy.asyncAliasPenalty,
     policy.complexity.lowPriority, policy.complexity.mediumPriority, policy.complexity.highPriority]
  }

  function Quotas(limit: QuotaLimit): seq<Option<nat>> {
    [limit.maxRps, limit.maxRequests, limit.maxInputTokens, limit.maxOutputTokens, limit.maxTotalTokens,
     limit.maxConcurrency]
  }

  predicate InPriorityRange(value: int) {
    -PRIORITY_BOUND <= value <= PRIORITY_BOUND
  }

  function CheckPriorities(values: seq<int>, from: nat): (r: Option<PolicyError>)
    requires from <= |values|
    ensures r.None? <==> forall i | from <= i < |values| :: InPriorityRange(values[i])
    decreases |values| - from
  {
    if from == |values| then None
    else if !InPriorityRange(values[from]) then Some(PriorityOutOfRange(from))
    else CheckPriorities(values, from + 1)
  }

  predicate TooLarge(quota: Option<nat>) {
    quota.Some? && quota.value > I64_MAX
  }

  function CheckSizes(quotas: seq<Option<nat>>, index: nat, from: nat): (r: Option<PolicyError>)
    requires from <= |quotas|
    ensures r.None? <==> forall i | from <= i < |quotas| :: !TooLarge(quotas[i])
    decreases |quotas| - from
  {
    if from == |quotas| then None
    else if TooLarge(quotas[from]) then Some(QuotaTooLarge(index, from))
    else CheckSizes(quotas, index, from + 1)
  }

  function CheckLimit(limit: QuotaLimit, index: nat): (r: Option<PolicyError>) {
    if limit.HasRollingQuota() && (limit.windowSeconds == 0 || limit.windowSeconds > MAX_WINDOW_SECONDS) then
      Some(BadWindow(index))
    else if !limit.HasRollingQuota() && limit.maxConcurrency.None? then
      Some(NoQuota(index))
    else if Some(0) in Quotas(limit) then
      Some(ZeroQuota(index))
    else if (limit.provider.Some? && IsBlank(limit.provider.value)) ||
            (limit.model.Some? && IsBlank(limit.model.value)) then
      Some(BlankSelector(index))
    else
      CheckSizes(Quotas(limit), index, 0)
  }

  function CheckLimits(limits: seq<QuotaLimit>, from: nat): (r: Option<PolicyError>)
    requires from <= |limits|
    ensures r.None? <==> forall i | from <= i < |limits| :: ValidLimit(limits[i])
    decreases |limits| - from
  {
    LimitVerdict(limits, from);
    if from == |limits| then None
    else
      var e := CheckLimit(limits[from], from);
      if e.Some? then e else CheckLimits(limits, from + 1)
  }

  lemma {:induction false} LimitVerdict(limits: seq<QuotaLimit>, i: nat)
    ensures i < |limits| ==> (CheckLimit(limits[i], i).None? <==> ValidLimit(limits[i]))
  {
    if i < |limits| {
      var limit := limits[i];
      var quotas := Quotas(limit);
      assert quotas[0] == limit.maxRps && quotas[1] == limit.maxRequests && quotas[2] == limit.maxInputTokens;
      assert quotas[3] == limit.maxOutputTokens && quotas[4] == limit.maxTotalTokens;
      assert quotas[5] == limit.maxConcurrency;
    }
  }

  function Validate(policy: SchedulingPolicy): (r: Option<PolicyError>)
    ensures r.None? <==> ValidPolicy(policy)
  {
    if policy.maxWaitMs == 0 || policy.maxWaitMs > MAX_WAIT_MS then Some(BadMaxWait)
    else if policy.asyncMaxWaitMs == 0 || policy.asyncMaxWaitMs > MAX_WAIT_MS then Some(BadAsyncMaxWait)
    else if policy.agingIntervalMs == 0 then Some(ZeroAgingInterval)
    else if policy.queueCoalesceMs > policy.maxWaitMs then Some(CoalesceExceedsWait)
    else if policy.defaultOutputTokens == 0 then Some(ZeroDefaultOutput)
    else if policy.maxPending == 0 || policy.maxPending > 1_000_000 then Some(BadMaxPending)
    else if policy.maxPendingBytes == 0 || policy.maxPendingBytes > 4_294_967_296 then Some(BadMaxPendingBytes)
    else
      var priorities := CheckPriorities(PrioritySettings(policy), 0);
      if priorities.Some? then priorities
      else if policy.complexity.highInputTokens <= policy.complexity.lowInputTokens then Some(ComplexityBandsOverlap)
      else if policy.complexity.highToolCount == 0 then Some(ZeroToolCount)
      else CheckLimits(policy.limits, 0)
  }

  // A quota that is present is positive and fits a signed 64-bit integer.
  predicate ValidQuota(quota: Option<nat>) {
    quota.Some? ==> 0 < quota.value <= I64_MAX
  }

  // What every enforced rule may be assumed to satisfy.
  predicate ValidLimit(limit: QuotaLimit) {
    && (limit.HasRollingQuota() ==> 0 < limit.windowSeconds <= MAX_WINDOW_SECONDS)
    && (limit.HasRollingQuota() || limit.maxConcurrency.Some?)
    && ValidQuota(limit.maxRps) && ValidQuota(limit.maxRequests) && ValidQuota(limit.maxConcurrency)
    && ValidQuota(limit.maxInputTokens) && ValidQuota(limit.maxOutputTokens) && ValidQuota(limit.maxTotalTokens)
    && (limit.provider.Some? ==> !IsBlank(limit.provider.value))
    && (limit.model.Some? ==> !IsBlank(limit.model.value))
  }

  predicate ValidLimits(policy: SchedulingPolicy) {
    forall i | 0 <= i < |policy.limits| :: ValidLimit(policy.limits[i])
  }

  predicate ValidPolicy(policy: SchedulingPolicy) {
    && 0 < policy.maxWaitMs <= MAX_WAIT_MS
    && 0 < policy.asyncMaxWaitMs <= MAX_WAIT_MS
    && 0 < policy.agingIntervalMs
    && policy.queueCoalesceMs <= policy.maxWaitMs
    && 0 < policy.defaultOutputTokens
    && 0 < policy.maxPending <= 1_000_000
    && 0 < policy.maxPendingBytes <= 4_294_967_296
    && (forall i | 0 <= i < |PrioritySettings(policy)| :: InPriorityRange(PrioritySettings(policy)[i]))
    && policy.complexity.lowInputTokens < policy.complexity.highInputTokens
    && 0 < policy.complexity.highToolCount
    && ValidLimits(policy)
  }

  // The longest wait for one request; async aliases get the longer of the two caps.
  function MaxWait(policy: SchedulingPolicy, asyncAlias: bool): (wait: Duration)
    ensures wait >= policy.maxWaitMs * 1_000_000
    ensures asyncAlias ==> wait >= policy.asyncMaxWaitMs * 1_000_000
    ensures wait == policy.maxWaitMs * 1_000_000 || (asyncAlias && wait == policy.asyncMaxWaitMs * 1_000_000)
  {
    Millis(if asyncAlias then Max(policy.asyncMaxWaitMs, policy.maxWaitMs) else policy.maxWaitMs)
  }

  // The widest rolling window any rule uses; zero when there is no rule.
  function WidestWindow(limits: seq<QuotaLimit>): (w: Duration)
    ensures forall i | 0 <= i < |limits| :: limits[i].Window() <= w
  {
    if limits == [] then 0
    else Max(limits[|limits| - 1].Window(), WidestWindow(limits[..|limits| - 1]))
  }
}
