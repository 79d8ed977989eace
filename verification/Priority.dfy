/** Requests, session history and the score that orders waiting requests
    (src/scheduling.rs: ScheduleRequest, priority_score, batch_recommendation, the choice in dispatch_ready). */
module Priority {
  import opened Basics
  import opened Arithmetic
  import opened Policy
  import opened Ledger

  datatype InteractionKind = UserPrompt | ToolOutput | Unknown

  datatype Complexity = Low | Medium | High

  datatype ScheduleRequest = ScheduleRequest(
    who: Scope,
    sessionId: Option<string>,
    inputTokens: nat,
    outputTokens: nat,
    interaction: InteractionKind,
    asyncAlias: bool,
    cacheReadHit: Option<bool>,
    retryAttempt: nat,
    upstreamRetryAfter: Option<Duration>,
    allowBatchFallback: bool,
    body: Option<Bytes>
  )

  datatype SessionState = SessionState(
    lastActivity: Instant,
    lastInteraction: InteractionKind,
    lastModel: string,
    cacheReadHit: Option<bool>
  )

  datatype Reason =
    | CacheMissLowPriority
    | AsyncAliasLowPriority
    | QueueFull
    | RequestExceedsQuota
    | MaxWaitExceeded
    | MaxRetriesExceeded
    | RetryAfterExceedsWaitCap

  const ASYNC_MODEL_PREFIX := "async-"
  const SCORE_BOUND: nat := 1_000_000

  predicate IsAsync(request: ScheduleRequest) {
    request.asyncAlias || ASYNC_MODEL_PREFIX <= request.who.model
  }

  function SessionKey(who: Scope, sessionId: string): string {
    who.provider + "\0" + who.auth + "\0" + sessionId
  }

  // Keys tell sessions apart by provider, credential and identifier, unless a NUL hides in one of the first two.
  lemma {:induction false} SessionKeyIdentifies(a: Scope, idA: string, b: Scope, idB: string)
    requires '\0' !in a.provider && '\0' !in a.auth && '\0' !in b.provider && '\0' !in b.auth
    ensures SessionKey(a, idA) == SessionKey(b, idB) <==> a.provider == b.provider && a.auth == b.auth && idA == idB
  {
    if SessionKey(a, idA) == SessionKey(b, idB) {
      assert a.provider + "\0" + a.auth + "\0" + idA == a.provider + ("\0" + (a.auth + ("\0" + idA)));
      assert b.provider + "\0" + b.auth + "\0" + idB == b.provider + ("\0" + (b.auth + ("\0" + idB)));
      UpToNul(a.provider, a.auth + ("\0" + idA), b.provider, b.auth + ("\0" + idB));
      UpToNul(a.auth, idA, b.auth, idB);
    }
  }

  lemma {:induction false} UpToNul(a: string, restA: string, b: string, restB: string)
    requires '\0' !in a && '\0' !in b && a + ("\0" + restA) == b + ("\0" + restB)
    ensures a == b && restA == restB
  {
    var x, y := a + ("\0" + restA), b + ("\0" + restB);
    assert x[|a|] == '\0' && y[|b|] == '\0';
    assert x[..|a|] == a && y[..|a|] == b && x[|a| + 1..] == restA && y[|a| + 1..] == restB;
  }

  function SessionOf(sessions: map<string, SessionState>, request: ScheduleRequest): Option<SessionState> {
    if request.sessionId.Some? && SessionKey(request.who, request.sessionId.value) in sessions then
      Some(sessions[SessionKey(request.who, request.sessionId.value)])
    else None
  }

  // The session's last response for this model is recent and had the given cache-read outcome.
  predicate RecentCacheRead(
    policy: SchedulingPolicy, request: ScheduleRequest, session: Option<SessionState>, hit: bool, now: Instant)
  {
    && session.Some?
    && session.value.cacheReadHit == Some(hit)
    && session.value.lastModel == request.who.model
    && Elapsed(now, session.value.lastActivity) <= Millis(policy.cacheAffinityWindowMs)
  }

  // `i32` division by two truncates toward zero.
  function HalfTowardZero(x: int): int {
    if x >= 0 then x / 2 else -((-x) / 2)
  }

  function ComplexityScore(policy: SchedulingPolicy, complexity: Complexity): int {
    match complexity
    case Low => policy.complexity.lowPriority
    case Medium => policy.complexity.mediumPriority
    case High => policy.complexity.highPriority
  }

  function PromptBoost(
    policy: SchedulingPolicy, request: ScheduleRequest, session: Option<SessionState>, now: Instant): int
  {
    if request.interaction.UserPrompt? && session.Some? &&
       Elapsed(now, session.value.lastActivity) <= Millis(policy.recentPromptWindowMs) then
      policy.recentPromptBoost +
      (if session.value.lastInteraction.ToolOutput? then HalfTowardZero(policy.recentPromptBoost) else 0)
    else 0
  }

  function IdlePenalty(policy: SchedulingPolicy, session: Option<SessionState>, now: Instant): nat {
    if session.Some? && policy.idleDecayMs > 0 &&
       Elapsed(now, session.value.lastActivity) > Millis(policy.idleDecayMs) then
      var intervals := Elapsed(now, session.value.lastActivity) / NANOS_PER_MILLI / policy.idleDecayMs - 1;
      Max(0, Min(intervals * Max(policy.idleDecayPenaltyPerInterval, 0), SCORE_BOUND))
    else 0
  }

  function WaitIntervals(policy: SchedulingPolicy, enqueuedAt: Instant, now: Instant): nat {
    Elapsed(now, enqueuedAt) / NANOS_PER_MILLI / (if policy.agingIntervalMs == 0 then 1 else policy.agingIntervalMs)
  }

  function AgingBoost(policy: SchedulingPolicy, enqueuedAt: Instant, now: Instant): int {
    Min(WaitIntervals(policy, enqueuedAt, now) * Max(policy.queueAgingBoostPerInterval, 0), SCORE_BOUND)
  }

  // Everything in the score that does not depend on how long the request has waited.
  function Standing(
    policy: SchedulingPolicy, complexity: Complexity, request: ScheduleRequest, session: Option<SessionState>,
    now: Instant): int
  {
    ComplexityScore(policy, complexity)
    + (if request.cacheReadHit == Some(true) ||
          (request.cacheReadHit.None? && RecentCacheRead(policy, request, session, true, now))
       then policy.cacheAffinityBoost else 0)
    + PromptBoost(policy, request, session, now)
    - (if request.interaction.ToolOutput? then policy.toolOutputPenalty else 0)
    - (if IsAsync(request) then policy.asyncAliasPenalty else 0)
    - IdlePenalty(policy, session, now)
  }

  function PriorityScore(
    policy: SchedulingPolicy, complexity: Complexity, request: ScheduleRequest, session: Option<SessionState>,
    enqueuedAt: Instant, now: Instant): int
  {
    Standing(policy, complexity, request, session, now) + AgingBoost(policy, enqueuedAt, now)
  }

  function BatchRecommendation(
    policy: SchedulingPolicy, complexity: Complexity, request: ScheduleRequest, session: Option<SessionState>,
    enqueuedAt: Instant, now: Instant): Option<Reason>
  {
    if !request.allowBatchFallback || !policy.batchOnCacheMiss then None
    else if PriorityScore(policy, complexity, request, session, enqueuedAt, now) >= policy.highPriorityThreshold then
      None
    else if request.cacheReadHit == Some(false) || RecentCacheRead(policy, request, session, false, now) then
      Some(CacheMissLowPriority)
    else if IsAsync(request) then Some(AsyncAliasLowPriority)
    else None
  }

  /** Exactly when batch is recommended, and why: the request and the policy allow it, the score is below the threshold,
      and the last response was not read from the cache, by the request's own word or by that of a recent session of the
      same model; or else the request is for an async alias. */
  lemma {:induction false} RecommendsExactly(
    policy: SchedulingPolicy, complexity: Complexity, request: ScheduleRequest, session: Option<SessionState>,
    enqueuedAt: Instant, now: Instant)
    ensures var missed := request.cacheReadHit == Some(false) ||
                          (session.Some? && session.value.cacheReadHit == Some(false)
                           && session.value.lastModel == request.who.model
                           && now <= session.value.lastActivity + policy.cacheAffinityWindowMs * 1_000_000);
            var alias := request.asyncAlias || "async-" <= request.who.model;
            var reason := BatchRecommendation(policy, complexity, request, session, enqueuedAt, now);
            && (reason.Some? <==>
                  && request.allowBatchFallback && policy.batchOnCacheMiss && (missed || alias)
                  && PriorityScore(policy, complexity, request, session, enqueuedAt, now) <
                     policy.highPriorityThreshold)
            && (reason.Some? ==> reason.value == if missed then CacheMissLowPriority else AsyncAliasLowPriority)
  {
    hide PriorityScore;
  }

  /** Batch is recommended only where the request and the policy allow it and the score stays below the threshold;
      having waited longer can only make the recommendation go away. */
  lemma {:induction false} FallbackIsForLowPriority(
    policy: SchedulingPolicy, complexity: Complexity, request: ScheduleRequest, session: Option<SessionState>,
    earlier: Instant, later: Instant, now: Instant)
    requires earlier <= later
    ensures PriorityScore(policy, complexity, request, session, later, now) >= policy.highPriorityThreshold ||
            !request.allowBatchFallback || !policy.batchOnCacheMiss ==>
              BatchRecommendation(policy, complexity, request, session, later, now).None?
    ensures BatchRecommendation(policy, complexity, request, session, earlier, now).Some? ==>
              BatchRecommendation(policy, complexity, request, session, earlier, now) ==
              BatchRecommendation(policy, complexity, request, session, later, now)
    ensures request.cacheReadHit == Some(true) && !IsAsync(request) &&
            !RecentCacheRead(policy, request, session, false, now) ==>
              BatchRecommendation(policy, complexity, request, session, later, now).None?
  {
    hide Standing, AgingBoost, RecentCacheRead;
    AgingNeverHurts(policy, earlier, later, now);
  }

  // ---- Choosing among the ready ----

  datatype Candidate = Candidate(id: nat, score: int, enqueuedAt: Instant)

  // Higher score first, then the earlier arrival, then the smaller id.
  predicate Beats(a: Candidate, b: Candidate) {
    || a.score > b.score
    || (a.score == b.score && a.enqueuedAt < b.enqueuedAt)
    || (a.score == b.score && a.enqueuedAt == b.enqueuedAt && a.id < b.id)
  }

  // The order is strict and total over ids, so the choice cannot depend on the order of the scan.
  lemma {:induction false} BeatsIsTotal(a: Candidate, b: Candidate, c: Candidate)
    ensures !(Beats(a, b) && Beats(b, a))
    ensures Beats(a, b) && Beats(b, c) ==> Beats(a, c)
    ensures a.id != b.id ==> Beats(a, b) || Beats(b, a)
  {
  }

  // Which of two waiters that arrived together is chosen, although the tie-break goes against it.
  predicate GoesFirst(
    policy: SchedulingPolicy, complexity: Complexity, session: Option<SessionState>, enqueuedAt: Instant, now: Instant,
    first: ScheduleRequest, second: ScheduleRequest)
  {
    Beats(Candidate(1, PriorityScore(policy, complexity, first, session, enqueuedAt, now), enqueuedAt),
          Candidate(0, PriorityScore(policy, complexity, second, session, enqueuedAt, now), enqueuedAt))
  }

  /** What puts a request first among equals, against the tie-break: a cache hit rather than a miss, anything rather
      than a tool output, and the model itself rather than its async alias, each exactly when its setting is
      positive. */
  lemma {:induction false} PreferredAmongEquals(
    policy: SchedulingPolicy, complexity: Complexity, r: ScheduleRequest, session: Option<SessionState>, at: Instant,
    now: Instant)
    requires !(ASYNC_MODEL_PREFIX <= r.who.model)
    ensures var hit, miss := r.(cacheReadHit := Some(true)), r.(cacheReadHit := Some(false));
            GoesFirst(policy, complexity, session, at, now, hit, miss) <==> policy.cacheAffinityBoost > 0
    ensures var other, tool := r.(interaction := Unknown), r.(interaction := ToolOutput);
            GoesFirst(policy, complexity, session, at, now, other, tool) <==> policy.toolOutputPenalty > 0
    ensures var plain, alias := r.(asyncAlias := false), r.(asyncAlias := true);
            GoesFirst(policy, complexity, session, at, now, plain, alias) <==> policy.asyncAliasPenalty > 0
  {
    hide Standing, AgingBoost;
    LeadOfHit(policy, complexity, r, session, now);
    LeadOverTool(policy, complexity, r, session, now);
    LeadOverAlias(policy, complexity, r, session, now);
  }

  lemma {:induction false} LeadOfHit(
    policy: SchedulingPolicy, complexity: Complexity, r: ScheduleRequest, session: Option<SessionState>, now: Instant)
    ensures Standing(policy, complexity, r.(cacheReadHit := Some(true)), session, now) ==
            Standing(policy, complexity, r.(cacheReadHit := Some(false)), session, now) + policy.cacheAffinityBoost
  {
    hide IdlePenalty, ComplexityScore, RecentCacheRead;
  }

  lemma {:induction false} LeadOverTool(
    policy: SchedulingPolicy, complexity: Complexity, r: ScheduleRequest, session: Option<SessionState>, now: Instant)
    ensures Standing(policy, complexity, r.(interaction := Unknown), session, now) ==
            Standing(policy, complexity, r.(interaction := ToolOutput), session, now) + policy.toolOutputPenalty
  {
    hide IdlePenalty, ComplexityScore;
  }

  lemma {:induction false} LeadOverAlias(
    policy: SchedulingPolicy, complexity: Complexity, r: ScheduleRequest, session: Option<SessionState>, now: Instant)
    requires !(ASYNC_MODEL_PREFIX <= r.who.model)
    ensures Standing(policy, complexity, r.(asyncAlias := false), session, now) ==
            Standing(policy, complexity, r.(asyncAlias := true), session, now) + policy.asyncAliasPenalty
  {
    hide IdlePenalty, ComplexityScore;
  }

  /** What the classifier's judgement is worth: the priorities the policy gives to the three bands, and nothing else. */
  lemma {:induction false} LeadOfComplexity(
    policy: SchedulingPolicy, r: ScheduleRequest, session: Option<SessionState>, at: Instant, now: Instant)
    ensures PriorityScore(policy, High, r, session, at, now) - PriorityScore(policy, Medium, r, session, at, now) ==
            policy.complexity.highPriority - policy.complexity.mediumPriority
    ensures PriorityScore(policy, Medium, r, session, at, now) - PriorityScore(policy, Low, r, session, at, now) ==
            policy.complexity.mediumPriority - policy.complexity.lowPriority
  {
    hide AgingBoost, PromptBoost, IdlePenalty, RecentCacheRead;
  }

  /** What a user's prompt is worth over a request of unknown kind: the boost while the session's last activity is
      recent enough, and half of it more, rounded toward zero, if that was a tool's output. */
  lemma {:induction false} LeadOfPrompt(
    policy: SchedulingPolicy, c: Complexity, r: ScheduleRequest, session: Option<SessionState>, at: Instant,
    now: Instant, half: int)
    requires if policy.recentPromptBoost >= 0 then 2 * half <= policy.recentPromptBoost < 2 * half + 2
             else 2 * half - 2 < policy.recentPromptBoost <= 2 * half
    ensures PriorityScore(policy, c, r.(interaction := UserPrompt), session, at, now) -
            PriorityScore(policy, c, r.(interaction := Unknown), session, at, now) ==
            if session.None? || now > session.value.lastActivity + policy.recentPromptWindowMs * 1_000_000 then 0
            else if session.value.lastInteraction.ToolOutput? then policy.recentPromptBoost + half
            else policy.recentPromptBoost
  {
    hide AgingBoost, IdlePenalty, ComplexityScore;
  }

  /** What it is worth that the session's last response was read from the cache, when the request itself does not say:
      the boost for a hit, as long as it was for the same model and is recent enough. */
  lemma {:induction false} LeadOfKnownHit(
    policy: SchedulingPolicy, c: Complexity, r: ScheduleRequest, session: Option<SessionState>, at: Instant,
    now: Instant)
    ensures PriorityScore(policy, c, r.(cacheReadHit := None), session, at, now) -
            PriorityScore(policy, c, r.(cacheReadHit := Some(false)), session, at, now) ==
            if session.Some? && session.value.cacheReadHit == Some(true) && session.value.lastModel == r.who.model
               && now <= session.value.lastActivity + policy.cacheAffinityWindowMs * 1_000_000
            then policy.cacheAffinityBoost else 0
  {
    hide AgingBoost, IdlePenalty, ComplexityScore;
  }

  /** What a session that has been idle for `n` decay periods beyond the first costs a request that gains nothing by the
      session. */
  lemma {:induction false} CostOfIdling(
    policy: SchedulingPolicy, c: Complexity, r: ScheduleRequest, session: SessionState, at: Instant, now: Instant,
    n: nat)
    requires r.interaction.Unknown? && r.cacheReadHit.Some? && session.lastActivity <= now
    requires policy.idleDecayMs > 0
    requires session.lastActivity + (n + 1) * (policy.idleDecayMs * 1_000_000) <= now
    requires now < session.lastActivity + (n + 2) * (policy.idleDecayMs * 1_000_000)
    ensures PriorityScore(policy, c, r, None, at, now) - PriorityScore(policy, c, r, Some(session), at, now) ==
            Min(n * Max(policy.idleDecayPenaltyPerInterval, 0), 1_000_000)
  {
    hide AgingBoost, ComplexityScore;
    Intervals(now - session.lastActivity, policy.idleDecayMs, n + 1);
    ProductMonotone(0, n, 0, Max(policy.idleDecayPenaltyPerInterval, 0));
  }

  // A session that has not been idle for a whole period costs nothing.
  lemma {:induction false} FreshSessionIsFree(
    policy: SchedulingPolicy, c: Complexity, r: ScheduleRequest, session: SessionState, at: Instant, now: Instant)
    requires r.interaction.Unknown? && r.cacheReadHit.Some?
    requires policy.idleDecayMs == 0 || now <= session.lastActivity + policy.idleDecayMs * 1_000_000
    ensures PriorityScore(policy, c, r, None, at, now) == PriorityScore(policy, c, r, Some(session), at, now)
  {
    hide AgingBoost, ComplexityScore;
  }

  /** What having waited for `n` whole intervals is worth over having just arrived. */
  lemma {:induction false} LeadOfWaiting(
    policy: SchedulingPolicy, c: Complexity, r: ScheduleRequest, session: Option<SessionState>, at: Instant,
    now: Instant, n: nat)
    requires policy.agingIntervalMs > 0
    requires at + n * (policy.agingIntervalMs * 1_000_000) <= now
    requires now < at + (n + 1) * (policy.agingIntervalMs * 1_000_000)
    ensures PriorityScore(policy, c, r, session, at, now) - PriorityScore(policy, c, r, session, now, now) ==
            Min(n * Max(policy.queueAgingBoostPerInterval, 0), 1_000_000)
  {
    hide Standing;
    ProductMonotone(0, n, 0, policy.agingIntervalMs * 1_000_000);
    Intervals(now - at, policy.agingIntervalMs, n);
    NoWaitNoBoost(policy, now);
  }

  // How many whole intervals of so many milliseconds there are in a stretch of time.
  lemma {:induction false} Intervals(time: Duration, ms: nat, n: nat)
    requires ms > 0 && n * (ms * 1_000_000) <= time < (n + 1) * (ms * 1_000_000)
    ensures time / NANOS_PER_MILLI / ms == n
  {
    var whole := time / NANOS_PER_MILLI;
    assert n * (ms * 1_000_000) == (n * ms) * 1_000_000 && (n + 1) * (ms * 1_000_000) == (n * ms + ms) * 1_000_000;
    assert n * ms <= whole < n * ms + ms;
    QuotientUnique(whole, ms, n);
  }

  /** How far aging carries: a waiter catches up with one that has just arrived with a better standing, by waiting long
      enough, if and only if aging is on and the lead is at most its cap. A larger lead is never made up. */
  lemma {:induction false} AgingCatchesUp(policy: SchedulingPolicy, mine: int, theirs: int, me: nat, other: nat)
    ensures (exists wait: Duration :: CatchesUp(policy, mine, theirs, me, other, wait)) <==>
            theirs <= mine || (policy.queueAgingBoostPerInterval > 0 && theirs - mine <= SCORE_BOUND)
  {
    if theirs <= mine {
      BoostsAreSmall(policy, None, 0, 1);
      NoWaitNoBoost(policy, 1);
      assert CatchesUp(policy, mine, theirs, me, other, 1);
    } else if policy.queueAgingBoostPerInterval > 0 && theirs - mine <= SCORE_BOUND {
      var wait := LongEnough(policy, theirs - mine);
      NoWaitNoBoost(policy, wait);
      assert CatchesUp(policy, mine, theirs, me, other, wait);
    } else {
      forall wait: Duration ensures !CatchesUp(policy, mine, theirs, me, other, wait) {
        BoostsAreSmall(policy, None, 0, wait);
        NoWaitNoBoost(policy, wait);
        NoBoostWithoutAging(policy, wait);
      }
    }
  }

  // After waiting this long, `mine` beats `theirs` that arrives only now.
  predicate CatchesUp(policy: SchedulingPolicy, mine: int, theirs: int, me: nat, other: nat, wait: Duration) {
    && wait > 0
    && Beats(Candidate(me, mine + AgingBoost(policy, 0, wait), 0),
             Candidate(other, theirs + AgingBoost(policy, wait, wait), wait))
  }

  lemma {:induction false} NoWaitNoBoost(policy: SchedulingPolicy, now: Instant)
    ensures AgingBoost(policy, now, now) == 0
  {
    assert WaitIntervals(policy, now, now) == 0;
  }

  lemma {:induction false} NoBoostWithoutAging(policy: SchedulingPolicy, wait: Duration)
    ensures policy.queueAgingBoostPerInterval <= 0 ==> AgingBoost(policy, 0, wait) == 0
  {
  }

  // As many intervals as the lead have a boost of at least the lead.
  lemma {:induction false} LongEnough(policy: SchedulingPolicy, lead: nat) returns (wait: Duration)
    requires policy.queueAgingBoostPerInterval > 0 && 0 < lead <= SCORE_BOUND
    ensures wait > 0 && AgingBoost(policy, 0, wait) >= lead
  {
    var interval := if policy.agingIntervalMs == 0 then 1 else policy.agingIntervalMs;
    wait := lead * interval * NANOS_PER_MILLI;
    QuotientExact(lead * interval, NANOS_PER_MILLI);
    QuotientExact(lead, interval);
    ProductMonotone(1, lead, 1, interval);
    ProductMonotone(lead, lead, 1, policy.queueAgingBoostPerInterval);
  }

  // Under a validated policy every score is small, so that the source's 64-bit sums are exact.
  lemma {:induction false} ScoresAreSmall(
    policy: SchedulingPolicy, complexity: Complexity, r: ScheduleRequest, session: Option<SessionState>,
    enqueuedAt: Instant, now: Instant)
    requires ValidPolicy(policy)
    ensures -8_000_000 <= PriorityScore(policy, complexity, r, session, enqueuedAt, now) <= 8_000_000
  {
    hide ValidLimits, IdlePenalty, AgingBoost, RecentCacheRead;
    var settings := PrioritySettings(policy);
    assert forall i | 0 <= i < |settings| :: InPriorityRange(settings[i]);
    assert InPriorityRange(settings[1]) && InPriorityRange(settings[2]) && InPriorityRange(settings[3]);
    assert InPriorityRange(settings[6]) && InPriorityRange(settings[7]) && InPriorityRange(settings[8]);
    assert InPriorityRange(settings[9]);
    BoostsAreSmall(policy, session, enqueuedAt, now);
  }

  lemma {:induction false} BoostsAreSmall(
    policy: SchedulingPolicy, session: Option<SessionState>, enqueuedAt: Instant, now: Instant)
    ensures 0 <= IdlePenalty(policy, session, now) <= SCORE_BOUND
    ensures 0 <= AgingBoost(policy, enqueuedAt, now) <= SCORE_BOUND
  {
    ProductMonotone(0, WaitIntervals(policy, enqueuedAt, now), 0, Max(policy.queueAgingBoostPerInterval, 0));
  }

  // Waiting longer never lowers the score.
  lemma {:induction false} AgingNeverHurts(policy: SchedulingPolicy, earlier: Instant, later: Instant, now: Instant)
    requires earlier <= later
    ensures AgingBoost(policy, later, now) <= AgingBoost(policy, earlier, now)
  {
    var d := if policy.agingIntervalMs == 0 then 1 else policy.agingIntervalMs;
    QuotientMonotone(Elapsed(now, later), Elapsed(now, earlier), NANOS_PER_MILLI);
    QuotientMonotone(Elapsed(now, later) / NANOS_PER_MILLI, Elapsed(now, earlier) / NANOS_PER_MILLI, d);
    ProductMonotone(WaitIntervals(policy, later, now), WaitIntervals(policy, earlier, now),
                    Max(policy.queueAgingBoostPerInterval, 0), Max(policy.queueAgingBoostPerInterval, 0));
  }

  // Two requests the score cannot tell apart except by how long they have waited.
  predicate SameClass(
    policy: SchedulingPolicy, a: ScheduleRequest, complexityA: Complexity, b: ScheduleRequest, complexityB: Complexity)
  {
    && a.who == b.who && a.sessionId == b.sessionId
    && a.interaction == b.interaction && a.asyncAlias == b.asyncAlias && a.cacheReadHit == b.cacheReadHit
    && ComplexityScore(policy, complexityA) == ComplexityScore(policy, complexityB)
  }

  /** First come, first served within a class: at every instant the one that arrived earlier beats the later one. */
  lemma {:induction false} EarlierBeatsLater(
    policy: SchedulingPolicy, sessions: map<string, SessionState>,
    a: ScheduleRequest, complexityA: Complexity, idA: nat, enqueuedA: Instant,
    b: ScheduleRequest, complexityB: Complexity, idB: nat, enqueuedB: Instant, now: Instant)
    requires SameClass(policy, a, complexityA, b, complexityB)
    requires enqueuedA < enqueuedB || (enqueuedA == enqueuedB && idA < idB)
    ensures Beats(
              Candidate(idA, PriorityScore(policy, complexityA, a, SessionOf(sessions, a), enqueuedA, now), enqueuedA),
              Candidate(idB, PriorityScore(policy, complexityB, b, SessionOf(sessions, b), enqueuedB, now), enqueuedB))
  {
    AgingNeverHurts(policy, enqueuedA, enqueuedB, now);
    assert SessionOf(sessions, a) == SessionOf(sessions, b);
    assert Standing(policy, complexityA, a, SessionOf(sessions, a), now) ==
           Standing(policy, complexityB, b, SessionOf(sessions, b), now);
  }
}
