/** What even pacing buys: the tokens one scope reserves, or is charged in the end, over any stretch of time grow no
    faster than its cap per window. */
module Rate {
  import opened Basics
  import opened Arithmetic
  import opened Policy
  import opened Ledger
  import opened Pacing
  import opened Admission
  import opened History
  import opened Safety

  predicate Counts(limits: seq<QuotaLimit>, k: PacingKey, span: Span, e: UsageEvent) {
    span.Covers(e.at) && BillOf(limits, k, e).Some?
  }

  // The events in `span` that were charged to the slot `k`.
  function Charges(limits: seq<QuotaLimit>, log: seq<UsageEvent>, k: PacingKey, span: Span): seq<UsageEvent> {
    if log == [] then []
    else
      var rest := Charges(limits, log[1..], k, span);
      if Counts(limits, k, span, log[0]) then [log[0]] + rest else rest
  }

  function CostSum(limits: seq<QuotaLimit>, charges: seq<UsageEvent>, k: PacingKey): nat {
    if charges == [] then 0 else BillOf(limits, k, charges[0]).GetOr(0) + CostSum(limits, charges[1..], k)
  }

  function TokensFor(metric: Metric, e: UsageEvent): nat {
    match metric
    case Requests => 1
    case InputTokens => e.input
    case OutputTokens => e.output
    case TotalTokens => SatAdd(e.input, e.output)
  }

  function TokenSum(metric: Metric, charges: seq<UsageEvent>): nat {
    if charges == [] then 0 else TokensFor(metric, charges[0]) + TokenSum(metric, charges[1..])
  }

  function TokenCap(limit: QuotaLimit, metric: Metric): Option<nat> {
    match metric
    case Requests => None
    case InputTokens => limit.maxInputTokens
    case OutputTokens => limit.maxOutputTokens
    case TotalTokens => limit.maxTotalTokens
  }

  function LastCost(limits: seq<QuotaLimit>, charges: seq<UsageEvent>, k: PacingKey): nat {
    if charges == [] then 0 else BillOf(limits, k, charges[|charges| - 1]).GetOr(0)
  }

  // Spaced charges in a stretch cost no more than the stretch and the last of them.
  lemma {:induction false} SpacedCost(
    limits: seq<QuotaLimit>, log: seq<UsageEvent>, k: PacingKey, slot: Instant, start: Instant, end: Instant)
    requires Spaced(limits, log, k, slot)
    ensures var charges := Charges(limits, log, k, Between(start, end));
            charges != [] ==> CostSum(limits, charges, k) + Max(start, slot) <= end + LastCost(limits, charges, k)
  {
    if log != [] {
      var span := Between(start, end);
      var rest := Charges(limits, log[1..], k, span);
      SpacedCost(limits, log[1..], k, Charged(slot, log[0].at, BillOf(limits, k, log[0])), start, end);
      if Counts(limits, k, span, log[0]) {
        assert ([log[0]] + rest)[1..] == rest;
        if rest != [] {
          assert ([log[0]] + rest)[|rest|] == rest[|rest| - 1];
        }
      }
    }
  }

  // No event still in the log exceeds a cap of a rule that matches it.
  lemma {:induction false} LogWithinCaps(limits: seq<QuotaLimit>, h: History, i: nat)
    requires Legal(limits, h) && NoOverReport(h) && i < |limits|
    ensures forall e | e in Log(h) && RuleMatches(limits[i], e.who) :: !OverCap(limits[i], e.input, e.output)
  {
    if h.Then? {
      LogWithinCaps(limits, h.past, i);
      match h.step
      case Dispatch(e) =>
        assert LegalStep(limits, h.past, h.step);
        if RuleMatches(limits[i], e.who) {
          assert RuleAdmits(limits[i], i, Log(h.past), TrustedSlots(limits, h.past), e.who, e.input, e.output, e.at);
        }
      case Settle(id, input, output) =>
        ReconcileShape(Log(h.past), id, input, output);
        assert forall j | 0 <= j < |Log(h)| :: Log(h.past)[j] in Log(h.past);
      case Undo(id) => RemoveMembers(Log(h.past), id);
      case Release(_) =>
    }
  }

  // One charge: rounding down loses less than a nanosecond.
  lemma {:induction false} ChargeOfTokens(limits: seq<QuotaLimit>, k: PacingKey, e: UsageEvent)
    requires k.rule < |limits| && ValidLimit(limits[k.rule]) && TokenCap(limits[k.rule], k.metric).Some?
    requires BillOf(limits, k, e).Some? && !OverCap(limits[k.rule], e.input, e.output)
    ensures var cap, cost := TokenCap(limits[k.rule], k.metric).value, BillOf(limits, k, e).value;
            var product := TokensFor(k.metric, e) * limits[k.rule].Window();
            cap * cost <= product < cap * cost + cap
  {
    var limit, tokens, cap := limits[k.rule], TokensFor(k.metric, e), TokenCap(limits[k.rule], k.metric).value;
    ClampIsHarmless(tokens, limit.windowSeconds, cap);
    assert tokens * limit.windowSeconds * NANOS == tokens * limit.Window();
    QuotientTimes(tokens * limit.Window(), cap);
  }

  lemma {:induction false} AddCharge(a: nat, b: nat, window: nat, cap: nat, cost: nat, rest: nat)
    requires a * window < cap * cost + cap && b * window <= cap * rest
    ensures (a + b) * window <= cap * (cost + 1 + rest)
  {
    assert (a + b) * window == a * window + b * window;
    assert cap * (cost + 1 + rest) == cap * cost + cap + cap * rest;
  }

  lemma {:induction false} TokensWithinCost(limits: seq<QuotaLimit>, charges: seq<UsageEvent>, k: PacingKey)
    requires k.rule < |limits| && ValidLimit(limits[k.rule]) && TokenCap(limits[k.rule], k.metric).Some?
    requires forall e | e in charges :: BillOf(limits, k, e).Some? && !OverCap(limits[k.rule], e.input, e.output)
    ensures TokenSum(k.metric, charges) * limits[k.rule].Window() <=
            TokenCap(limits[k.rule], k.metric).value * (CostSum(limits, charges, k) + |charges|)
  {
    if charges != [] {
      var e, cap := charges[0], TokenCap(limits[k.rule], k.metric).value;
      TokensWithinCost(limits, charges[1..], k);
      assert e in charges;
      ChargeOfTokens(limits, k, e);
      AddCharge(TokensFor(k.metric, e), TokenSum(k.metric, charges[1..]), limits[k.rule].Window(), cap,
                BillOf(limits, k, e).value, CostSum(limits, charges[1..], k) + |charges[1..]|);
      assert BillOf(limits, k, e).value + 1 + (CostSum(limits, charges[1..], k) + |charges[1..]|) ==
             CostSum(limits, charges, k) + |charges|;
    }
  }

  lemma {:induction false} ChargesMembers(limits: seq<QuotaLimit>, log: seq<UsageEvent>, k: PacingKey, span: Span)
    ensures forall e | e in Charges(limits, log, k, span) :: e in log && Counts(limits, k, span, e)
  {
    if log != [] {
      ChargesMembers(limits, log[1..], k, span);
    }
  }

  // Spaced charges within their caps, summed over the stretch [start, end): tokens · window is at most the cap's share
  // of the stretch and of what the last charge occupies on its own, up to one nanosecond of rounding per charge.
  ghost predicate WithinRate(
    limits: seq<QuotaLimit>, log: seq<UsageEvent>, k: PacingKey, start: Instant, end: Instant)
    requires k.rule < |limits| && TokenCap(limits[k.rule], k.metric).Some? && start <= end
  {
    var charges := Charges(limits, log, k, Between(start, end));
    charges != [] ==>
      && LastCost(limits, charges, k) <= limits[k.rule].Window()
      && TokenSum(k.metric, charges) * limits[k.rule].Window() <=
         TokenCap(limits[k.rule], k.metric).value * (end - start + LastCost(limits, charges, k) + |charges|)
  }

  lemma {:induction false} SpacedRate(
    limits: seq<QuotaLimit>, log: seq<UsageEvent>, k: PacingKey, start: Instant, end: Instant)
    requires Spaced(limits, log, k, 0) && start <= end
    requires k.rule < |limits| && ValidLimit(limits[k.rule]) && TokenCap(limits[k.rule], k.metric).Some?
    requires forall e | e in log && RuleMatches(limits[k.rule], e.who) :: !OverCap(limits[k.rule], e.input, e.output)
    ensures WithinRate(limits, log, k, start, end)
  {
    hide Spaced, Charges, CostSum, TokenSum, OverCap, ValidLimit, CostOf;
    var charges := Charges(limits, log, k, Between(start, end));
    if charges != [] {
      ChargesMembers(limits, log, k, Between(start, end));
      SpacedCost(limits, log, k, 0, start, end);
      var last := charges[|charges| - 1];
      assert last in charges;
      CostAtMostWindow(limits[k.rule], k.metric, last.input, last.output);
      TokensWithinCost(limits, charges, k);
      ProductMonotone(TokenCap(limits[k.rule], k.metric).value, TokenCap(limits[k.rule], k.metric).value,
                      CostSum(limits, charges, k) + |charges|,
                      end - start + LastCost(limits, charges, k) + |charges|);
    }
  }

  /** The token bucket: without aborts, the tokens one scope reserved over any stretch, whatever was reported for them
      later, are at most the cap's share of the stretch and the last reservation. */
  lemma {:induction false} ReservedRate(limits: seq<QuotaLimit>, h: History, k: PacingKey, start: Instant, end: Instant)
    requires Legal(limits, h) && NoAborts(h) && start <= end
    requires k.rule < |limits| && ValidLimit(limits[k.rule]) && TokenCap(limits[k.rule], k.metric).Some?
    ensures WithinRate(limits, Reserved(h), k, start, end)
  {
    hide Legal, Reserved, Spaced, NoAborts, OverCap, ValidLimit, WithinRate;
    ReservationsStaySpaced(limits, h, k);
    ReservedWithinCaps(limits, h, k.rule);
    SpacedRate(limits, Reserved(h), k, start, end);
  }

  /** With aborts, the same holds of the tokens the ledger holds in the end, unless a completion reported more than was
      reserved. */
  lemma {:induction false} TokenRate(limits: seq<QuotaLimit>, h: History, k: PacingKey, start: Instant, end: Instant)
    requires Legal(limits, h) && NoOverReport(h) && start <= end
    requires k.rule < |limits| && ValidLimit(limits[k.rule]) && TokenCap(limits[k.rule], k.metric).Some?
    ensures WithinRate(limits, Log(h), k, start, end)
  {
    hide Legal, Log, Spaced, NoOverReport, OverCap, ValidLimit, WithinRate;
    NotDearer(limits, h, k);
    LogStaysSpaced(limits, h, k);
    LogWithinCaps(limits, h, k.rule);
    SpacedRate(limits, Log(h), k, start, end);
  }

  // ---- Gaps ----

  /** Dispatches in one scope of a `max_rps` rule that are still in the ledger are at least 1/max_rps apart, whatever
      was aborted or reported in between. */
  lemma {:induction false} RequestGap(limits: seq<QuotaLimit>, h: History, k: PacingKey, i: nat, j: nat)
    requires Legal(limits, h) && k.metric.Requests? && i < j < |Log(h)|
    requires BillOf(limits, k, Log(h)[i]).Some? && BillOf(limits, k, Log(h)[j]).Some?
    ensures limits[k.rule].maxRps.Some? && Log(h)[i].at < Log(h)[j].at
    ensures limits[k.rule].maxRps.value > 0 ==> Log(h)[i].at + NANOS / limits[k.rule].maxRps.value <= Log(h)[j].at
  {
    NotDearer(limits, h, k);
    LogStaysSpaced(limits, h, k);
    SpacedGap(limits, Log(h), k, 0, i, j);
  }

  lemma {:induction false} ReservedWithinCaps(limits: seq<QuotaLimit>, h: History, i: nat)
    requires Legal(limits, h) && i < |limits|
    ensures forall e | e in Reserved(h) && RuleMatches(limits[i], e.who) :: !OverCap(limits[i], e.input, e.output)
  {
    if h.Then? {
      ReservedWithinCaps(limits, h.past, i);
      if h.step.Dispatch? {
        var e := h.step.event;
        assert LegalStep(limits, h.past, h.step);
        if RuleMatches(limits[i], e.who) {
          assert RuleAdmits(limits[i], i, Log(h.past), TrustedSlots(limits, h.past), e.who, e.input, e.output, e.at);
        }
      }
    }
  }

  /** Without aborts, dispatches in one scope of a token cap are at least as far apart as the tokens the earlier one
      reserved take at the cap's rate: floor(tokens · window / cap). */
  lemma {:induction false} TokenGap(limits: seq<QuotaLimit>, h: History, k: PacingKey, i: nat, j: nat)
    requires Legal(limits, h) && NoAborts(h) && i < j < |Reserved(h)|
    requires k.rule < |limits| && ValidLimit(limits[k.rule]) && TokenCap(limits[k.rule], k.metric).Some?
    requires BillOf(limits, k, Reserved(h)[i]).Some? && BillOf(limits, k, Reserved(h)[j]).Some?
    ensures TokenCap(limits[k.rule], k.metric).value > 0
    ensures Reserved(h)[i].at
            + TokensFor(k.metric, Reserved(h)[i]) * limits[k.rule].Window() / TokenCap(limits[k.rule], k.metric).value
            <= Reserved(h)[j].at
  {
    hide Legal, Reserved, NoAborts, Spaced, ValidLimit, OverCap, TokensFor, TokenCap, CostOf;
    ReservationsStaySpaced(limits, h, k);
    SpacedGap(limits, Reserved(h), k, 0, i, j);
    ReservedWithinCaps(limits, h, k.rule);
    assert Reserved(h)[i] in Reserved(h);
    TokenBill(limits, k, Reserved(h)[i]);
  }

  // What a request within its caps is charged for its tokens.
  lemma {:induction false} TokenBill(limits: seq<QuotaLimit>, k: PacingKey, e: UsageEvent)
    requires k.rule < |limits| && ValidLimit(limits[k.rule]) && TokenCap(limits[k.rule], k.metric).Some?
    requires BillOf(limits, k, e).Some? && !OverCap(limits[k.rule], e.input, e.output)
    ensures var cap := TokenCap(limits[k.rule], k.metric).value;
            cap > 0 && BillOf(limits, k, e).value == TokensFor(k.metric, e) * limits[k.rule].Window() / cap
  {
    var limit, tokens, cap := limits[k.rule], TokensFor(k.metric, e), TokenCap(limits[k.rule], k.metric).value;
    ClampIsHarmless(tokens, limit.windowSeconds, cap);
    assert tokens * limit.windowSeconds * NANOS == tokens * limit.Window();
  }
}
