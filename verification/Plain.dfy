/** Caps and pacing in the fields of rules, requests and events alone: who shares a cap with whom, when a request is
    admitted, and when the next one is (src/scheduling.rs: rule_matches, event_matches, active_matches, PacingKey). */
module Plain {
  import opened Basics
  import opened Policy
  import opened Ledger
  import opened Pacing
  import opened Admission
  import opened History
  import opened Safety

  // What the events of a provider in [from, to) add up to; of one credential and of one model only if one is given.
  function Spent(
    log: seq<UsageEvent>, provider: string, auth: Option<string>, model: Option<string>, from: int,
    to: Option<int>): Use
  {
    if log == [] then Use(0, 0, 0)
    else
      var e, rest := log[0], Spent(log[1..], provider, auth, model, from, to);
      if from <= e.at && (to.Some? ==> e.at < to.value) && e.who.provider == provider &&
         (auth.Some? ==> e.who.auth == auth.value) && (model.Some? ==> e.who.model == model.value) then
        Use(rest.requests + 1, rest.input + e.input, rest.output + e.output)
      else rest
  }

  function Running(active: map<nat, Scope>, provider: string, auth: Option<string>, model: Option<string>): set<nat> {
    set id | id in active && active[id].provider == provider &&
             (auth.Some? ==> active[id].auth == auth.value) && (model.Some? ==> active[id].model == model.value)
  }

  lemma {:induction false} SpentAtMostTally(
    log: seq<UsageEvent>, limit: QuotaLimit, who: Scope, auth: Option<string>, from: int, to: Option<int>)
    requires auth == None || auth == Some(who.auth)
    requires limit.authScoped ==> auth.Some?
    ensures var span := if to.Some? then Between(from, to.value) else From(from);
            var spent := Spent(log, who.provider, auth, limit.model, from, to);
            && spent.AtMost(Tally(log, limit, who, span))
            && ((auth.Some? <==> limit.authScoped) ==> spent == Tally(log, limit, who, span))
  {
    if log != [] {
      SpentAtMostTally(log[1..], limit, who, auth, from, to);
    }
  }

  // ---- Caps ----

  /** Every rule's caps hold over every run, whoever the requests are from: in any half-open window the requests of a
      provider (for the rule's model, if it has one) stay within the rule's caps, and so do those in flight. A rule that
      is not auth-scoped caps all credentials together, an auth-scoped one each on its own. */
  lemma {:induction false} CapsOfEveryRule(
    limits: seq<QuotaLimit>, h: History, i: nat, provider: string, auth: Option<string>, start: int)
    requires Legal(limits, h) && i < |limits| && ValidLimit(limits[i])
    requires limits[i].provider.None? || limits[i].provider.value == provider
    requires limits[i].authScoped ==> auth.Some?
    ensures var limit := limits[i];
            var used := Spent(Log(h), provider, auth, limit.model, start,
                              Some(start + limit.windowSeconds * 1_000_000_000));
            && (limit.maxRequests.Some? ==> used.requests <= limit.maxRequests.value)
            && (limit.maxRps.Some? && |Log(h)| < U64_MAX ==>
                  used.requests <= limit.maxRps.value * limit.windowSeconds)
            && (NoOverReport(h) ==>
                  && (limit.maxInputTokens.Some? ==> used.input <= limit.maxInputTokens.value)
                  && (limit.maxOutputTokens.Some? ==> used.output <= limit.maxOutputTokens.value)
                  && (limit.maxTotalTokens.Some? ==> used.input + used.output <= limit.maxTotalTokens.value))
    ensures limits[i].maxConcurrency.Some? ==>
              |Running(Active(h), provider, auth, limits[i].model)| <= limits[i].maxConcurrency.value
  {
    hide Legal, Spent, Tally, Log, Active, NoOverReport;
    var limit := limits[i];
    var who := Scope(provider, auth.GetOr(""), limit.model.GetOr(""));
    var to := start + limit.windowSeconds * 1_000_000_000;
    SpentAtMostTally(Log(h), limit, who, auth, start, Some(to));
    RequestCapsInNumbers(limits, h, i, who, start);
    SlidingWindowSafety(limits, h, i, who, start);
    TallyAtMostLength(Log(h), limit, who, Between(start, to));
    if limit.maxConcurrency.Some? {
      ConcurrencySafety(limits, h, i, who);
      SubsetSmaller(Running(Active(h), provider, auth, limit.model), Occupants(Active(h), limit, who));
    }
  }

  lemma {:induction false} TallyAtMostLength(log: seq<UsageEvent>, limit: QuotaLimit, who: Scope, span: Span)
    ensures Tally(log, limit, who, span).requests <= |log|
  {
    if log != [] {
      TallyAtMostLength(log[1..], limit, who, span);
    }
  }

  // ---- Admission ----

  predicate Passed(pacing: map<PacingKey, Instant>, k: PacingKey, t: Instant) {
    k in pacing ==> pacing[k] <= t
  }

  // A rule that applies to the request lets it through at `t`: room in the window, slots in the past, a place in
  // flight.
  ghost predicate LetsThrough(
    limit: QuotaLimit, rule: nat, events: seq<UsageEvent>, pacing: map<PacingKey, Instant>, active: map<nat, Scope>,
    who: Scope, input: nat, output: nat, t: Instant)
  {
    var auth := if limit.authScoped then Some(who.auth) else None;
    var used := Spent(events, who.provider, auth, limit.model, t - limit.windowSeconds * 1_000_000_000 + 1, None);
    var credential, model := if auth.Some? then auth.value else "", if limit.model.Some? then limit.model.value else "";
    && (limit.maxRequests.Some? ==> used.requests < limit.maxRequests.value)
    && (limit.maxRps.Some? ==> used.requests < limit.maxRps.value * limit.windowSeconds)
    && (limit.maxInputTokens.Some? ==> used.input + input <= limit.maxInputTokens.value)
    && (limit.maxOutputTokens.Some? ==> used.output + output <= limit.maxOutputTokens.value)
    && (limit.maxTotalTokens.Some? ==> used.input + used.output + input + output <= limit.maxTotalTokens.value)
    && (limit.maxRps.Some? ==> Passed(pacing, PacingKey(rule, who.provider, credential, model, Requests), t))
    && (limit.maxInputTokens.Some? && input > 0 ==>
          Passed(pacing, PacingKey(rule, who.provider, credential, model, InputTokens), t))
    && (limit.maxOutputTokens.Some? && output > 0 ==>
          Passed(pacing, PacingKey(rule, who.provider, credential, model, OutputTokens), t))
    && (limit.maxTotalTokens.Some? && input + output > 0 ==>
          Passed(pacing, PacingKey(rule, who.provider, credential, model, TotalTokens), t))
    && (limit.maxConcurrency.Some? ==>
          |Running(active, who.provider, auth, limit.model)| < limit.maxConcurrency.value)
  }

  /** A request can be dispatched exactly when each rule whose provider and model, where it names them, are the
      request's lets it through. */
  lemma {:induction false} DispatchableMeans(
    limits: seq<QuotaLimit>, events: seq<UsageEvent>, pacing: map<PacingKey, Instant>, active: map<nat, Scope>,
    who: Scope, input: nat, output: nat, t: Instant)
    requires (forall i | 0 <= i < |limits| :: ValidLimit(limits[i])) && |events| < U64_MAX
    ensures Dispatchable(limits, events, pacing, active, who, input, output, t) <==>
            forall i | 0 <= i < |limits| && (limits[i].provider.None? || limits[i].provider.value == who.provider)
                       && (limits[i].model.None? || limits[i].model.value == who.model) ::
              LetsThrough(limits[i], i, events, pacing, active, who, input, output, t)
  {
    hide LetsThrough, RuleAdmits, Full;
    forall i | 0 <= i < |limits| && RuleMatches(limits[i], who)
      ensures LetsThrough(limits[i], i, events, pacing, active, who, input, output, t) <==>
              && RuleAdmits(limits[i], i, events, SlotsOf(pacing), who, input, output, t)
              && !Full(active, limits[i], who)
    {
      RuleMeans(limits[i], i, events, pacing, active, who, input, output, t);
    }
  }

  lemma {:induction false} RuleMeans(
    limit: QuotaLimit, rule: nat, events: seq<UsageEvent>, pacing: map<PacingKey, Instant>, active: map<nat, Scope>,
    who: Scope, input: nat, output: nat, t: Instant)
    requires ValidLimit(limit) && |events| < U64_MAX && RuleMatches(limit, who)
    ensures LetsThrough(limit, rule, events, pacing, active, who, input, output, t) <==>
            && RuleAdmits(limit, rule, events, SlotsOf(pacing), who, input, output, t)
            && !Full(active, limit, who)
  {
    hide Spent, Tally, CapFits, Paced, PacedAt;
    var auth := if limit.authScoped then Some(who.auth) else None;
    var span := LiveSpan(limit.Window(), t);
    SpentAtMostTally(events, limit, who, auth, span.lo, None);
    TallyAtMostLength(events, limit, who, span);
    CapFitsExactly(limit, Tally(events, limit, who, span), input, output);
    SlotsMean(limit, rule, pacing, who, input, output, t);
    assert Running(active, who.provider, auth, limit.model) == Occupants(active, limit, who);
  }

  lemma {:induction false} SlotsMean(
    limit: QuotaLimit, rule: nat, pacing: map<PacingKey, Instant>, who: Scope, input: nat, output: nat, t: Instant)
    ensures var credential := if limit.authScoped then who.auth else "";
            var model := if limit.model.Some? then limit.model.value else "";
            Paced(limit, rule, SlotsOf(pacing), who, input, output, t) <==>
            && (limit.maxRps.Some? ==> Passed(pacing, PacingKey(rule, who.provider, credential, model, Requests), t))
            && (limit.maxInputTokens.Some? && input > 0 ==>
                  Passed(pacing, PacingKey(rule, who.provider, credential, model, InputTokens), t))
            && (limit.maxOutputTokens.Some? && output > 0 ==>
                  Passed(pacing, PacingKey(rule, who.provider, credential, model, OutputTokens), t))
            && (limit.maxTotalTokens.Some? && input + output > 0 ==>
                  Passed(pacing, PacingKey(rule, who.provider, credential, model, TotalTokens), t))
  {
    PacedExactly(limit, rule, pacing, who, input, output, t);
  }

  // ---- Who does not count ----

  // The events of the request's own provider, and unless they are `shared` of its own credential.
  function Own(log: seq<UsageEvent>, who: Scope, shared: bool): seq<UsageEvent> {
    if log == [] then []
    else if log[0].who.provider == who.provider && (shared || log[0].who.auth == who.auth) then
      [log[0]] + Own(log[1..], who, shared)
    else Own(log[1..], who, shared)
  }

  function OwnActive(active: map<nat, Scope>, who: Scope, shared: bool): map<nat, Scope> {
    map id | id in active && active[id].provider == who.provider && (shared || active[id].auth == who.auth) ::
      active[id]
  }

  lemma {:induction false} OwnTally(log: seq<UsageEvent>, who: Scope, shared: bool, limit: QuotaLimit, span: Span)
    requires shared || limit.authScoped
    ensures Tally(Own(log, who, shared), limit, who, span) == Tally(log, limit, who, span)
  {
    if log != [] {
      OwnTally(log[1..], who, shared, limit, span);
      var rest := Own(log[1..], who, shared);
      assert ([log[0]] + rest)[1..] == rest;
    }
  }

  /** What other providers do never matters to a request, and what other credentials do does not matter where all the
      rules that apply to it are auth-scoped: without their events and requests in flight it is admitted, and can be
      dispatched, at the same instants. */
  lemma {:induction false} OthersDoNotCount(
    limits: seq<QuotaLimit>, events: seq<UsageEvent>, pacing: map<PacingKey, Instant>, active: map<nat, Scope>,
    shared: bool, who: Scope, input: nat, output: nat, t: Instant)
    requires shared || forall i | 0 <= i < |limits| && RuleMatches(limits[i], who) :: limits[i].authScoped
    ensures Admits(limits, Own(events, who, shared), SlotsOf(pacing), who, input, output, t) <==>
            Admits(limits, events, SlotsOf(pacing), who, input, output, t)
    ensures Dispatchable(limits, Own(events, who, shared), pacing, OwnActive(active, who, shared),
                         who, input, output, t) <==>
            Dispatchable(limits, events, pacing, active, who, input, output, t)
  {
    hide Admits, Tally, Own;
    var own, slots := Own(events, who, shared), SlotsOf(pacing);
    forall i | 0 <= i < |limits| && RuleMatches(limits[i], who)
      ensures Tally(own, limits[i], who, LiveSpan(limits[i].Window(), t)) ==
              Tally(events, limits[i], who, LiveSpan(limits[i].Window(), t))
      ensures Full(OwnActive(active, who, shared), limits[i], who) <==> Full(active, limits[i], who)
    {
      OwnTally(events, who, shared, limits[i], LiveSpan(limits[i].Window(), t));
      assert Occupants(OwnActive(active, who, shared), limits[i], who) == Occupants(active, limits[i], who);
    }
    if Admits(limits, own, slots, who, input, output, t) {
      AdmitsMonotone(limits, own, events, slots, slots, who, input, output, t);
    }
    if Admits(limits, events, slots, who, input, output, t) {
      AdmitsMonotone(limits, events, own, slots, slots, who, input, output, t);
    }
  }

  // ---- The next request ----

  // A rule that only limits the rate.
  predicate OnlyRate(limit: QuotaLimit) {
    && limit.maxRps.Some? && limit.maxRequests.None? && limit.maxConcurrency.None?
    && limit.maxInputTokens.None? && limit.maxOutputTokens.None? && limit.maxTotalTokens.None?
  }

  /** Even pacing at its simplest: under a rate of `max_rps`, the request after a first one is admitted exactly from
      1/max_rps seconds later on, and at least one nanosecond. It makes no difference who it is from, unless the rule is
      auth-scoped; then another credential is admitted at once. */
  lemma {:induction false} NextAfterOne(
    limit: QuotaLimit, e: UsageEvent, who: Scope, input: nat, output: nat, t: Instant)
    requires OnlyRate(limit) && ValidLimit(limit) && e.at <= t && who.provider == e.who.provider
    requires limit.provider.None? || limit.provider.value == who.provider
    requires limit.model.None? || (limit.model.value == who.model && limit.model.value == e.who.model)
    ensures var h := Then(Start, Dispatch(e));
            Admits([limit], Log(h), k => Pace([limit], h, k), who, input, output, t) <==>
            if limit.authScoped && who.auth != e.who.auth then true
            else t >= e.at + Max(1_000_000_000 / limit.maxRps.value, 1)
  {
    hide CapFits, Tally, Pace, CostOf;
    var limits, h := [limit], Then(Start, Dispatch(e));
    var slots := (k: PacingKey) => Pace(limits, h, k);
    assert Log(h) == [e] by {
      assert Log(Start) + [e] == [e];
    }
    FirstSlot(limit, e, who);
    FirstInWindow(limit, e, who, input, output, t);
    OnlyRequestsPaced(limit, who, slots, input, output, t);
    assert limits[0] == limit && RuleMatches(limit, who);
    assert Admits(limits, [e], slots, who, input, output, t) <==>
           RuleAdmits(limit, 0, [e], slots, who, input, output, t);
  }

  lemma {:induction false} OnlyRequestsPaced(
    limit: QuotaLimit, who: Scope, slots: PacingKey -> Instant, input: nat, output: nat, t: Instant)
    requires OnlyRate(limit)
    ensures Paced(limit, 0, slots, who, input, output, t) <==> slots(KeyOf(limit, 0, who, Requests)) <= t
  {
    assert forall m: Metric :: CostOf(limit, m, input, output).Some? <==> m == Requests;
  }

  lemma {:induction false} FirstSlot(limit: QuotaLimit, e: UsageEvent, who: Scope)
    requires limit.maxRps.Some? && limit.maxRps.value > 0 && who.provider == e.who.provider
    requires limit.provider.None? || limit.provider.value == who.provider
    requires limit.model.None? || (limit.model.value == who.model && limit.model.value == e.who.model)
    ensures Pace([limit], Then(Start, Dispatch(e)), KeyOf(limit, 0, who, Requests)) ==
            if limit.authScoped && who.auth != e.who.auth then 0
            else e.at + Max(1_000_000_000 / limit.maxRps.value, 1)
  {
    var k := KeyOf(limit, 0, who, Requests);
    assert Pace([limit], Start, k) == 0;
    assert Pace([limit], Then(Start, Dispatch(e)), k) == Charged(0, e.at, BillOf([limit], k, e));
  }

  // Beside one request the window has room for the next as soon as the pace lets it through.
  lemma {:induction false} FirstInWindow(
    limit: QuotaLimit, e: UsageEvent, who: Scope, input: nat, output: nat, t: Instant)
    requires OnlyRate(limit) && ValidLimit(limit) && e.at <= t && who.provider == e.who.provider
    requires limit.model.None? || limit.model.value == e.who.model
    ensures var used := Tally([e], limit, who, LiveSpan(limit.Window(), t));
            && (CapFits(limit, used, input, output) || t < e.at + Max(1_000_000_000 / limit.maxRps.value, 1))
            && (limit.authScoped && who.auth != e.who.auth ==> CapFits(limit, used, input, output))
  {
    hide CapFits;
    var span := LiveSpan(limit.Window(), t);
    TallyOne(e, limit, who, span);
    RateFitsWindow(limit.maxRps.value, limit.windowSeconds);
    CapFitsExactly(limit, Tally([e], limit, who, span), input, output);
  }

  // Room for one request only means one request a second.
  lemma {:induction false} RateFitsWindow(rate: nat, windowSeconds: nat)
    requires rate > 0 && windowSeconds > 0
    ensures rate * windowSeconds >= 1
    ensures rate * windowSeconds == 1 ==> rate == 1 && windowSeconds == 1
  {
    if rate >= 2 {
      assert rate * windowSeconds >= 2 * windowSeconds;
    }
  }
}
