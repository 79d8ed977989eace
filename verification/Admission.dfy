/** When a request may be dispatched: every matching rule's rolling, pacing and concurrency tests
    (src/scheduling.rs: readiness, active_matches). */
module Admission {
  import opened Basics
  import opened Policy
  import opened Ledger
  import opened Pacing

  // The request's slots under one rule are in the past.
  ghost predicate Paced(
    limit: QuotaLimit, rule: nat, slots: PacingKey -> Instant, who: Scope, input: nat, output: nat, t: Instant)
  {
    forall m: Metric :: CostOf(limit, m, input, output).Some? ==> slots(KeyOf(limit, rule, who, m)) <= t
  }

  // What one rule asks of a request at time `t`, over a ledger and a table of pacing slots.
  ghost predicate RuleAdmits(
    limit: QuotaLimit, rule: nat, log: seq<UsageEvent>, slots: PacingKey -> Instant,
    who: Scope, input: nat, output: nat, t: Instant)
  {
    && !OverCap(limit, input, output)
    && CapFits(limit, Tally(log, limit, who, LiveSpan(limit.Window(), t)), input, output)
    && Paced(limit, rule, slots, who, input, output, t)
  }

  ghost predicate RulesAdmit(
    limits: seq<QuotaLimit>, upTo: nat, log: seq<UsageEvent>, slots: PacingKey -> Instant,
    who: Scope, input: nat, output: nat, t: Instant)
    requires upTo <= |limits|
  {
    forall i | 0 <= i < upTo && RuleMatches(limits[i], who) ::
      RuleAdmits(limits[i], i, log, slots, who, input, output, t)
  }

  // Every matching rule admits the request at `t`.
  ghost predicate Admits(
    limits: seq<QuotaLimit>, log: seq<UsageEvent>, slots: PacingKey -> Instant,
    who: Scope, input: nat, output: nat, t: Instant)
  {
    RulesAdmit(limits, |limits|, log, slots, who, input, output, t)
  }

  // The request alone exceeds a token cap of some matching rule, so that it can never be admitted.
  ghost predicate Oversized(limits: seq<QuotaLimit>, who: Scope, input: nat, output: nat) {
    exists i | 0 <= i < |limits| && RuleMatches(limits[i], who) :: OverCap(limits[i], input, output)
  }

  function Occupants(active: map<nat, Scope>, limit: QuotaLimit, who: Scope): set<nat> {
    set id | id in active && SameBucket(limit, who, active[id])
  }

  predicate Full(active: map<nat, Scope>, limit: QuotaLimit, who: Scope) {
    limit.maxConcurrency.Some? && |Occupants(active, limit, who)| >= limit.maxConcurrency.value
  }

  // No matching rule has all its concurrency slots taken.
  ghost predicate SlotFree(limits: seq<QuotaLimit>, active: map<nat, Scope>, who: Scope) {
    forall i | 0 <= i < |limits| && RuleMatches(limits[i], who) :: !Full(active, limits[i], who)
  }

  // Admitted by every rule at `t`, with a concurrency slot to take.
  ghost predicate Dispatchable(
    limits: seq<QuotaLimit>, events: seq<UsageEvent>, pacing: map<PacingKey, Instant>, active: map<nat, Scope>,
    who: Scope, input: nat, output: nat, t: Instant)
  {
    Admits(limits, events, SlotsOf(pacing), who, input, output, t) && SlotFree(limits, active, who)
  }

  lemma {:induction false} AdmittedIsNotOversized(
    limits: seq<QuotaLimit>, log: seq<UsageEvent>, slots: PacingKey -> Instant,
    who: Scope, input: nat, output: nat, t: Instant)
    requires Admits(limits, log, slots, who, input, output, t)
    ensures !Oversized(limits, who, input, output)
  {
    forall i | 0 <= i < |limits| && RuleMatches(limits[i], who) ensures !OverCap(limits[i], input, output) {
      assert RuleAdmits(limits[i], i, log, slots, who, input, output, t);
    }
  }

  function SlotsOf(pacing: map<PacingKey, Instant>): PacingKey -> Instant {
    k => Slot(pacing, k)
  }

  // ---- What can only help ----

  // Waiting, a ledger that adds up to less, and slots that are no later from `t` on never turn a request away.
  lemma {:induction false} AdmitsMonotone(
    limits: seq<QuotaLimit>, log: seq<UsageEvent>, log': seq<UsageEvent>,
    slots: PacingKey -> Instant, slots': PacingKey -> Instant, who: Scope, input: nat, output: nat, t: Instant)
    requires Admits(limits, log, slots, who, input, output, t)
    requires forall i | 0 <= i < |limits| && RuleMatches(limits[i], who) ::
               Tally(log', limits[i], who, LiveSpan(limits[i].Window(), t)).AtMost(
                 Tally(log, limits[i], who, LiveSpan(limits[i].Window(), t)))
    requires forall k | Bill(limits, k, who, input, output).Some? :: slots'(k) <= Max(t, slots(k))
    ensures Admits(limits, log', slots', who, input, output, t)
  {
    AdmittedSlots(limits, log, slots, who, input, output, t);
    forall i | 0 <= i < |limits| && RuleMatches(limits[i], who)
      ensures RuleAdmits(limits[i], i, log', slots', who, input, output, t)
    {
      assert RuleAdmits(limits[i], i, log, slots, who, input, output, t);
      var span := LiveSpan(limits[i].Window(), t);
      CapFitsMonotone(limits[i], Tally(log', limits[i], who, span), Tally(log, limits[i], who, span), input, output);
      forall m: Metric | CostOf(limits[i], m, input, output).Some? ensures slots'(KeyOf(limits[i], i, who, m)) <= t {
        assert Bill(limits, KeyOf(limits[i], i, who, m), who, input, output).Some?;
      }
    }
  }

  // An admitted request is charged to no slot that still holds it back.
  lemma {:induction false} AdmittedSlots(
    limits: seq<QuotaLimit>, log: seq<UsageEvent>, slots: PacingKey -> Instant, who: Scope, input: nat, output: nat,
    t: Instant)
    requires Admits(limits, log, slots, who, input, output, t)
    ensures forall k | Bill(limits, k, who, input, output).Some? :: slots(k) <= t
  {
    forall k | Bill(limits, k, who, input, output).Some? ensures slots(k) <= t {
      assert RuleAdmits(limits[k.rule], k.rule, log, slots, who, input, output, t);
    }
  }

  // ---- Readiness ----

  /** The earliest instant from `now` on at which every matching rule admits the request, found without searching:
      the rules admit it at exactly the instants from that one on. A request that is oversized for a matching rule
      is impossible; while a matching rule has no concurrency slot only a later instant is reported, if there is one. */
  method Readiness(
    policy: SchedulingPolicy, events: seq<UsageEvent>, pacing: map<PacingKey, Instant>, active: map<nat, Scope>,
    who: Scope, input: nat, output: nat, now: Instant)
    returns (fit: Fit)
    requires ValidLimits(policy)
    ensures !policy.enabled ==> fit == Fit(Some(now), false)
    ensures policy.enabled ==> (fit.impossible <==> Oversized(policy.limits, who, input, output))
    ensures fit.impossible ==> fit.at.None?
    ensures policy.enabled && fit.at.Some? ==>
              && fit.at.value >= now
              && forall t: Instant | t >= now ::
                   Admits(policy.limits, events, SlotsOf(pacing), who, input, output, t) <==> t >= fit.at.value
    ensures policy.enabled && !fit.impossible && SlotFree(policy.limits, active, who) ==> fit.at.Some?
    ensures policy.enabled && !SlotFree(policy.limits, active, who) ==> fit.at != Some(now)
    ensures policy.enabled && !fit.impossible && fit.at.None? ==>
              Admits(policy.limits, events, SlotsOf(pacing), who, input, output, now)
  {
    hide RuleAdmits, CapFits, Tally, Occupants, Paced, PacedAt;
    if !policy.enabled {
      return Fit(Some(now), false);
    }
    var ready := now;
    var total := SatAdd(input, output);
    var limits := policy.limits;
    ghost var slots := SlotsOf(pacing);
    for i := 0 to |limits|
      invariant ready >= now
      invariant forall j | 0 <= j < i && RuleMatches(limits[j], who) :: !OverCap(limits[j], input, output)
      invariant forall t: Instant | t >= now ::
                  RulesAdmit(limits, i, events, slots, who, input, output, t) <==> t >= ready
    {
      var limit := limits[i];
      ghost var next := i + 1;
      if RuleMatches(limit, who) {
        if !Within(limit.maxInputTokens, input) || !Within(limit.maxOutputTokens, output)
           || !Within(limit.maxTotalTokens, total)
        {
          return Fit(None, true);
        }
        var rolling := RollingFor(limit, events, who, input, output, now);
        ready := Max(ready, Max(rolling.at.value, PacedAt(limit, i, pacing, who, input, output)));
        forall t: Instant | t >= now
          ensures RulesAdmit(limits, next, events, slots, who, input, output, t) <==> t >= ready
        {
          PacedExactly(limit, i, pacing, who, input, output, t);
          RuleReadyFrom(limit, i, events, slots, who, input, output, rolling.at.value, t);
          RulesAdmitNext(limits, i, events, slots, who, input, output, t);
        }
      } else {
        forall t: Instant | t >= now
          ensures RulesAdmit(limits, next, events, slots, who, input, output, t) <==> t >= ready
        {
          RulesAdmitNext(limits, i, events, slots, who, input, output, t);
        }
      }
    }
    for i := 0 to |limits|
      invariant forall j | 0 <= j < i && RuleMatches(limits[j], who) :: !Full(active, limits[j], who)
    {
      var limit := limits[i];
      if limit.maxConcurrency.Some? && RuleMatches(limit, who) {
        if |Occupants(active, limit, who)| >= limit.maxConcurrency.value {
          return Fit(if ready > now then Some(ready) else None, false);
        }
      }
    }
    return Fit(Some(ready), false);
  }

  // The rolling test of one rule over the ledger, which only reads the events the rule matches now.
  method RollingFor(limit: QuotaLimit, events: seq<UsageEvent>, who: Scope, input: nat, output: nat, now: Instant)
    returns (rolling: Fit)
    requires ValidLimit(limit) && !OverCap(limit, input, output)
    ensures !rolling.impossible && rolling.at.Some? && rolling.at.value >= now
    ensures forall t: Instant | t >= now ::
              CapFits(limit, Tally(events, limit, who, LiveSpan(limit.Window(), t)), input, output) <==>
              t >= rolling.at.value
  {
    MatchingUnexpired(events, limit, who, now);
    EmptyWindowFits(limit, input, output);
    var matching := Matching(events, limit, who, now);
    rolling := RollingFit(limit, matching, input, output, now);
    if limit.Window() > 0 {
      forall t: Instant | t >= now
        ensures Live(Expirings(matching, limit.Window()), t) == Tally(events, limit, who, LiveSpan(limit.Window(), t))
      {
        LiveIsTally(events, limit, who, now, t);
      }
    } else {
      assert CapFits(limit, Live(Expirings(matching, limit.Window()), now), input, output);
    }
  }

  lemma {:induction false} RulesAdmitNext(
    limits: seq<QuotaLimit>, i: nat, log: seq<UsageEvent>, slots: PacingKey -> Instant,
    who: Scope, input: nat, output: nat, t: Instant)
    requires i < |limits|
    ensures RulesAdmit(limits, i + 1, log, slots, who, input, output, t) <==>
            && RulesAdmit(limits, i, log, slots, who, input, output, t)
            && (RuleMatches(limits[i], who) ==> RuleAdmits(limits[i], i, log, slots, who, input, output, t))
  {
  }

  // The latest of the request's slots under one rule.
  function PacedAt(
    limit: QuotaLimit, rule: nat, pacing: map<PacingKey, Instant>, who: Scope, input: nat, output: nat): Instant
  {
    var requests := if limit.maxRps.Some? then Slot(pacing, KeyOf(limit, rule, who, Requests)) else 0;
    var inputs :=
      if limit.maxInputTokens.Some? && input > 0 then Slot(pacing, KeyOf(limit, rule, who, InputTokens)) else 0;
    var outputs :=
      if limit.maxOutputTokens.Some? && output > 0 then Slot(pacing, KeyOf(limit, rule, who, OutputTokens)) else 0;
    var totals :=
      if limit.maxTotalTokens.Some? && SatAdd(input, output) > 0 then
        Slot(pacing, KeyOf(limit, rule, who, TotalTokens))
      else 0;
    Max(Max(requests, inputs), Max(outputs, totals))
  }

  lemma {:induction false} PacedExactly(
    limit: QuotaLimit, rule: nat, pacing: map<PacingKey, Instant>, who: Scope, input: nat, output: nat, t: Instant)
    ensures Paced(limit, rule, SlotsOf(pacing), who, input, output, t) <==>
            t >= PacedAt(limit, rule, pacing, who, input, output)
  {
    hide KeyOf, Slot, PaceDuration, RateDuration;
  }

  lemma {:induction false} RuleReadyFrom(
    limit: QuotaLimit, rule: nat, events: seq<UsageEvent>, slots: PacingKey -> Instant,
    who: Scope, input: nat, output: nat, rolling: Instant, t: Instant)
    requires !OverCap(limit, input, output)
    requires CapFits(limit, Tally(events, limit, who, LiveSpan(limit.Window(), t)), input, output) <==> t >= rolling
    ensures RuleAdmits(limit, rule, events, slots, who, input, output, t) <==>
            t >= rolling && Paced(limit, rule, slots, who, input, output, t)
  {
  }
}
