/** Even pacing: one slot per rule, scope and metric, moved forward by every dispatch
    (src/scheduling.rs: PacingKey, update_pacing, duration_for_rate, duration_from_seconds).
    Durations are whole nanoseconds, rounded down, where the source computes them in `f64`. */
module Pacing {
  import opened Basics
  import opened Arithmetic
  import opened Policy
  import opened Ledger

  const MAX_PACE_SECONDS: nat := 31_536_000

  datatype Metric = Requests | InputTokens | OutputTokens | TotalTokens

  datatype PacingKey = PacingKey(rule: nat, provider: string, auth: string, model: string, metric: Metric)

  function KeyOf(limit: QuotaLimit, rule: nat, who: Scope, metric: Metric): PacingKey {
    PacingKey(rule, who.provider, if limit.authScoped then who.auth else "", limit.model.GetOr(""), metric)
  }

  // How long `tokens` occupy a cap of `cap` tokens per window; an infinite or huge quotient is clamped to a year.
  function PaceDuration(tokens: nat, windowSeconds: nat, cap: nat): Duration {
    if cap == 0 || tokens * windowSeconds >= MAX_PACE_SECONDS * cap then Seconds(MAX_PACE_SECONDS)
    else tokens * windowSeconds * NANOS / cap
  }

  // The gap between requests at `rate` per second, at least one nanosecond.
  function RateDuration(rate: nat): Duration {
    if rate == 0 then Seconds(MAX_PACE_SECONDS) else Max(NANOS / rate, 1)
  }

  function TokenCost(limit: QuotaLimit, cap: Option<nat>, tokens: nat): Option<Duration> {
    if cap.Some? && tokens > 0 then Some(PaceDuration(tokens, limit.windowSeconds, cap.value)) else None
  }

  // How far a request of this size moves the rule's slot for `metric`, if the rule paces that metric at all.
  function CostOf(limit: QuotaLimit, metric: Metric, input: nat, output: nat): Option<Duration> {
    match metric
    case Requests => if limit.maxRps.Some? then Some(RateDuration(limit.maxRps.value)) else None
    case InputTokens => TokenCost(limit, limit.maxInputTokens, input)
    case OutputTokens => TokenCost(limit, limit.maxOutputTokens, output)
    case TotalTokens => TokenCost(limit, limit.maxTotalTokens, SatAdd(input, output))
  }

  // What one dispatch charges to the slot `k`: nothing, unless `k` is its key under a matching rule.
  function Bill(limits: seq<QuotaLimit>, k: PacingKey, who: Scope, input: nat, output: nat): Option<Duration> {
    if k.rule < |limits| && RuleMatches(limits[k.rule], who) && k == KeyOf(limits[k.rule], k.rule, who, k.metric) then
      CostOf(limits[k.rule], k.metric, input, output)
    else None
  }

  function BillOf(limits: seq<QuotaLimit>, k: PacingKey, e: UsageEvent): Option<Duration> {
    Bill(limits, k, e.who, e.input, e.output)
  }

  // A missing slot has the same effect as one at the origin of the clock.
  function Slot(pacing: map<PacingKey, Instant>, k: PacingKey): Instant {
    if k in pacing then pacing[k] else 0
  }

  function Charged(slot: Instant, at: Instant, bill: Option<Duration>): Instant {
    if bill.Some? then Max(slot, at) + bill.value else slot
  }

  // The slot after charging a whole ledger in order, starting from `slot`.
  function Replay(limits: seq<QuotaLimit>, log: seq<UsageEvent>, k: PacingKey, slot: Instant): Instant {
    if log == [] then slot
    else Replay(limits, log[1..], k, Charged(slot, log[0].at, BillOf(limits, k, log[0])))
  }

  // No event comes before the slot its predecessors left behind.
  ghost predicate Spaced(limits: seq<QuotaLimit>, log: seq<UsageEvent>, k: PacingKey, slot: Instant) {
    log != [] ==>
      && (BillOf(limits, k, log[0]).Some? ==> slot <= log[0].at)
      && Spaced(limits, log[1..], k, Charged(slot, log[0].at, BillOf(limits, k, log[0])))
  }

  // The slots after one request under the rules that apply to it, in numbers. A slot that is charged moves from itself
  // or the present, whichever is later, by the inverse of the rate, at least one nanosecond, or by the tokens' share of
  // the window, at most a year; all others stay.
  ghost predicate Moved(
    limits: seq<QuotaLimit>, before: map<PacingKey, Instant>, after: map<PacingKey, Instant>, who: Scope,
    input: nat, output: nat, now: Instant)
  {
    forall k: PacingKey ::
      if IsSlotOf(limits, who, k) then
        var limit, from := limits[k.rule], Max(Slot(before, k), now);
        match k.metric
        case Requests =>
          if limit.maxRps.None? then Slot(after, k) == Slot(before, k)
          else limit.maxRps.value > 0 ==> Slot(after, k) == from + Max(1_000_000_000 / limit.maxRps.value, 1)
        case InputTokens => MovedBy(limit, limit.maxInputTokens, input, Slot(before, k), from, Slot(after, k))
        case OutputTokens => MovedBy(limit, limit.maxOutputTokens, output, Slot(before, k), from, Slot(after, k))
        case TotalTokens =>
          MovedBy(limit, limit.maxTotalTokens, Min(input + output, U64_MAX), Slot(before, k), from, Slot(after, k))
      else Slot(after, k) == Slot(before, k)
  }

  // The slots of a request: one for each metric under each rule whose provider and model, where named, are its own;
  // of its own credential if the rule is auth-scoped, and of its own model if the rule names one.
  ghost predicate IsSlotOf(limits: seq<QuotaLimit>, who: Scope, k: PacingKey) {
    && k.rule < |limits|
    && var limit := limits[k.rule];
       && (limit.provider.None? || limit.provider.value == who.provider)
       && (limit.model.None? || limit.model.value == who.model)
       && k.provider == who.provider
       && k.auth == (if limit.authScoped then who.auth else "")
       && k.model == (if limit.model.None? then "" else who.model)
  }

  predicate MovedBy(
    limit: QuotaLimit, cap: Option<nat>, tokens: nat, slot: Instant, from: Instant, after: Instant)
  {
    if cap.None? || tokens == 0 then after == slot
    else cap.value > 0 ==>
      if tokens * limit.windowSeconds >= 31_536_000 * cap.value then after == from + 31_536_000 * 1_000_000_000
      else after == from + tokens * limit.windowSeconds * 1_000_000_000 / cap.value
  }

  // Charging each slot its bill moves the slots so.
  lemma {:induction false} BillsMove(
    limits: seq<QuotaLimit>, before: map<PacingKey, Instant>, after: map<PacingKey, Instant>, who: Scope,
    input: nat, output: nat, now: Instant)
    requires forall k :: Slot(after, k) == Charged(Slot(before, k), now, Bill(limits, k, who, input, output))
    ensures Moved(limits, before, after, who, input, output, now)
  {
    hide Slot;
  }

  // ---- Arithmetic ----

  // The one-year clamp never shortens a pace: a request within the cap and a valid window stays below it.
  lemma {:induction false} ClampIsHarmless(tokens: nat, windowSeconds: nat, cap: nat)
    requires 0 < cap && tokens <= cap && 0 < windowSeconds <= MAX_WINDOW_SECONDS
    ensures PaceDuration(tokens, windowSeconds, cap) == tokens * windowSeconds * NANOS / cap
  {
    ProductMonotone(tokens, cap, windowSeconds, MAX_PACE_SECONDS);
    var product := tokens * windowSeconds;
    if product >= MAX_PACE_SECONDS * cap {
      assert product * NANOS == cap * (MAX_PACE_SECONDS * NANOS);
      QuotientExact(MAX_PACE_SECONDS * NANOS, cap);
    }
  }

  lemma {:induction false} PaceAtMostWindow(tokens: nat, windowSeconds: nat, cap: nat)
    requires 0 < cap && tokens <= cap && 0 < windowSeconds <= MAX_WINDOW_SECONDS
    ensures PaceDuration(tokens, windowSeconds, cap) <= Seconds(windowSeconds)
  {
    ClampIsHarmless(tokens, windowSeconds, cap);
    assert tokens * windowSeconds * NANOS == tokens * (windowSeconds * NANOS);
    QuotientAtMost(tokens, cap, windowSeconds * NANOS);
  }

  lemma {:induction false} PaceMonotone(less: nat, more: nat, windowSeconds: nat, cap: nat)
    requires less <= more
    ensures PaceDuration(less, windowSeconds, cap) <= PaceDuration(more, windowSeconds, cap)
  {
    if cap > 0 {
      var a, b, top := less * windowSeconds, more * windowSeconds, MAX_PACE_SECONDS * NANOS;
      ProductMonotone(less, more, windowSeconds, windowSeconds);
      QuotientMonotone(a * NANOS, b * NANOS, cap);
      if a < MAX_PACE_SECONDS * cap {
        assert a * NANOS <= cap * top;
        QuotientMonotone(a * NANOS, cap * top, cap);
        QuotientExact(top, cap);
      }
    }
  }

  lemma {:induction false} RateAtMostSecond(rate: nat)
    requires rate > 0
    ensures 0 < RateDuration(rate) <= NANOS
  {
    QuotientAtMost(1, rate, NANOS);
  }

  // A request within the rule's caps moves a slot by at most one window.
  lemma {:induction false} CostAtMostWindow(limit: QuotaLimit, metric: Metric, input: nat, output: nat)
    requires ValidLimit(limit) && (metric.Requests? || !OverCap(limit, input, output))
    requires CostOf(limit, metric, input, output).Some?
    ensures CostOf(limit, metric, input, output).value <= limit.Window()
  {
    match metric
    case Requests => RateAtMostSecond(limit.maxRps.value);
    case InputTokens => PaceAtMostWindow(input, limit.windowSeconds, limit.maxInputTokens.value);
    case OutputTokens => PaceAtMostWindow(output, limit.windowSeconds, limit.maxOutputTokens.value);
    case TotalTokens => PaceAtMostWindow(SatAdd(input, output), limit.windowSeconds, limit.maxTotalTokens.value);
  }

  // Reporting fewer tokens never costs more.
  lemma {:induction false} CostMonotone(
    limit: QuotaLimit, metric: Metric, input: nat, output: nat, input': nat, output': nat)
    requires metric.Requests? || (input' <= input && output' <= output)
    ensures CostOf(limit, metric, input', output').Some? ==>
              && CostOf(limit, metric, input, output).Some?
              && CostOf(limit, metric, input', output').value <= CostOf(limit, metric, input, output).value
  {
    match metric
    case Requests =>
    case InputTokens =>
      if limit.maxInputTokens.Some? {
        PaceMonotone(input', input, limit.windowSeconds, limit.maxInputTokens.value);
      }
    case OutputTokens =>
      if limit.maxOutputTokens.Some? {
        PaceMonotone(output', output, limit.windowSeconds, limit.maxOutputTokens.value);
      }
    case TotalTokens =>
      if limit.maxTotalTokens.Some? {
        PaceMonotone(SatAdd(input', output'), SatAdd(input, output), limit.windowSeconds, limit.maxTotalTokens.value);
      }
  }

  // ---- Replaying a ledger ----

  lemma {:induction false} ReplayAppend(
    limits: seq<QuotaLimit>, log: seq<UsageEvent>, e: UsageEvent, k: PacingKey, slot: Instant)
    ensures Replay(limits, log + [e], k, slot) ==
            Charged(Replay(limits, log, k, slot), e.at, BillOf(limits, k, e))
  {
    if log == [] {
      assert log + [e] == [e];
    } else {
      assert (log + [e])[1..] == log[1..] + [e];
      ReplayAppend(limits, log[1..], e, k, Charged(slot, log[0].at, BillOf(limits, k, log[0])));
    }
  }

  lemma {:induction false} SpacedAppend(
    limits: seq<QuotaLimit>, log: seq<UsageEvent>, e: UsageEvent, k: PacingKey, slot: Instant)
    requires Spaced(limits, log, k, slot)
    requires BillOf(limits, k, e).Some? ==> Replay(limits, log, k, slot) <= e.at
    ensures Spaced(limits, log + [e], k, slot)
  {
    if log == [] {
      assert log + [e] == [e];
    } else {
      assert (log + [e])[1..] == log[1..] + [e];
      SpacedAppend(limits, log[1..], e, k, Charged(slot, log[0].at, BillOf(limits, k, log[0])));
    }
  }

  lemma {:induction false} ReplayMonotone(
    limits: seq<QuotaLimit>, log: seq<UsageEvent>, k: PacingKey, slot: Instant, slot': Instant)
    requires slot' <= slot
    ensures Replay(limits, log, k, slot') <= Replay(limits, log, k, slot)
  {
    if log != [] {
      var bill := BillOf(limits, k, log[0]);
      ReplayMonotone(limits, log[1..], k, Charged(slot, log[0].at, bill), Charged(slot', log[0].at, bill));
    }
  }

  // `thin` is `log` with some events dropped or made cheaper for `k`.
  ghost predicate Thinner(limits: seq<QuotaLimit>, thin: seq<UsageEvent>, log: seq<UsageEvent>, k: PacingKey) {
    if log == [] then thin == []
    else
      || Thinner(limits, thin, log[1..], k)
      || (thin != [] && thin[0].at == log[0].at && Cheaper(BillOf(limits, k, thin[0]), BillOf(limits, k, log[0])) &&
          Thinner(limits, thin[1..], log[1..], k))
  }

  predicate Cheaper(less: Option<Duration>, more: Option<Duration>) {
    less.Some? ==> more.Some? && less.value <= more.value
  }

  // A thinner ledger stays spaced and leaves every slot no later.
  lemma {:induction false} ThinnerStaysSpaced(
    limits: seq<QuotaLimit>, thin: seq<UsageEvent>, log: seq<UsageEvent>, k: PacingKey, slot: Instant, slot': Instant)
    requires Thinner(limits, thin, log, k) && slot' <= slot
    ensures Replay(limits, thin, k, slot') <= Replay(limits, log, k, slot)
    ensures Spaced(limits, log, k, slot) ==> Spaced(limits, thin, k, slot')
  {
    if log != [] {
      var next := Charged(slot, log[0].at, BillOf(limits, k, log[0]));
      if Thinner(limits, thin, log[1..], k) {
        ThinnerStaysSpaced(limits, thin, log[1..], k, next, slot');
      } else {
        var next' := Charged(slot', thin[0].at, BillOf(limits, k, thin[0]));
        ThinnerStaysSpaced(limits, thin[1..], log[1..], k, next, next');
      }
    }
  }

  // Where a spaced ledger starts from no longer matters once it charged the slot, and before that it is in the past.
  lemma {:induction false} StartForgotten(
    limits: seq<QuotaLimit>, log: seq<UsageEvent>, k: PacingKey, slot: Instant, now: Instant)
    requires Spaced(limits, log, k, slot) && slot <= now
    ensures Max(now, Replay(limits, log, k, slot)) == Max(now, Replay(limits, log, k, 0))
    ensures Spaced(limits, log, k, 0)
  {
    if log != [] && BillOf(limits, k, log[0]).None? {
      StartForgotten(limits, log[1..], k, slot, now);
    }
  }

  // ---- The slots a table and a replay agree on ----

  // From `now` on, both slots hold requests back equally.
  predicate SameFrom(now: Instant, a: Instant, b: Instant) {
    Max(now, a) == Max(now, b)
  }

  // Two slots charged alike agree afterwards exactly if they agreed from that instant on, and keep their order.
  lemma {:induction false} ChargedAlike(a: Instant, b: Instant, at: Instant, bill: Option<Duration>)
    ensures SameFrom(at, Charged(a, at, bill), Charged(b, at, bill)) <==> SameFrom(at, a, b)
    ensures a <= Max(at, b) ==> Charged(a, at, bill) <= Max(at, Charged(b, at, bill))
  {
  }
}
