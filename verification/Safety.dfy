/** What holds after every legal history: sliding-window and concurrency caps, conservation of permits,
    even pacing, and that an abort is as good as never having dispatched. */
module Safety {
  import opened Basics
  import opened Policy
  import opened Ledger
  import opened Pacing
  import opened Admission
  import opened History

  // ---- Sliding windows ----

  predicate RequestsHold(limit: QuotaLimit, requests: nat) {
    Within(RequestCap(limit), Min(requests, U64_MAX))
  }

  predicate TokensHold(limit: QuotaLimit, used: Use) {
    && Within(limit.maxInputTokens, used.input)
    && Within(limit.maxOutputTokens, used.output)
    && Within(limit.maxTotalTokens, used.input + used.output)
  }

  lemma {:induction false} FitsThenHolds(limit: QuotaLimit, used: Use, e: UsageEvent)
    requires ValidLimit(limit) && CapFits(limit, used, e.input, e.output)
    ensures RequestsHold(limit, used.Plus(UseOf(e)).requests) && TokensHold(limit, used.Plus(UseOf(e)))
  {
  }

  lemma {:induction false} HoldsForLess(limit: QuotaLimit, less: Use, more: Use)
    ensures less.requests <= more.requests && RequestsHold(limit, more.requests) ==> RequestsHold(limit, less.requests)
    ensures less.AtMost(more) && TokensHold(limit, more) ==> TokensHold(limit, less)
    ensures RequestsHold(limit, 0) && TokensHold(limit, NOTHING)
  {
  }

  lemma {:induction false} TallyRemove(log: seq<UsageEvent>, id: nat, limit: QuotaLimit, who: Scope, span: Span)
    ensures Tally(Remove(log, id), limit, who, span).AtMost(Tally(log, limit, who, span))
  {
    if log != [] {
      TallyRemove(log[1..], id, limit, who, span);
      var rest := Remove(log[1..], id);
      assert ([log[0]] + rest)[1..] == rest;
    }
  }

  lemma {:induction false} TallyReconcile(
    log: seq<UsageEvent>, id: nat, input: Option<nat>, output: Option<nat>, limit: QuotaLimit, who: Scope, span: Span)
    ensures Tally(Reconcile(log, id, input, output), limit, who, span).requests == Tally(log, limit, who, span).requests
    ensures (forall e | e in log && e.id == id ::
               Reported(e, input, output).input <= e.input && Reported(e, input, output).output <= e.output) ==>
            Tally(Reconcile(log, id, input, output), limit, who, span).AtMost(Tally(log, limit, who, span))
  {
    if log != [] {
      if log[0].id == id {
        assert ([Reported(log[0], input, output)] + log[1..])[1..] == log[1..];
      } else {
        TallyReconcile(log[1..], id, input, output, limit, who, span);
        var rest := Reconcile(log[1..], id, input, output);
        assert ([log[0]] + rest)[1..] == rest;
      }
    }
  }

  // A dispatch counted, at its own instant, everything that shares a window with it.
  lemma {:induction false} DispatchFits(
    limits: seq<QuotaLimit>, h: History, e: UsageEvent, i: nat, who: Scope, start: int)
    requires Legal(limits, Then(h, Dispatch(e)))
    requires i < |limits| && RuleMatches(limits[i], who) && SameBucket(limits[i], who, e.who)
    requires Between(start, start + limits[i].Window()).Covers(e.at)
    ensures var used := Tally(Log(h), limits[i], who, Between(start, start + limits[i].Window()));
            CapFits(limits[i], used, e.input, e.output)
  {
    var limit := limits[i];
    var window, live := Between(start, start + limit.Window()), LiveSpan(limit.Window(), e.at);
    assert LegalStep(limits, h, Dispatch(e));
    assert RuleAdmits(limit, i, Log(h), TrustedSlots(limits, h), e.who, e.input, e.output, e.at);
    TallySameBucket(Log(h), limit, who, e.who, live);
    TallyMonotone(Log(h), limit, who, window, live);
    CapFitsMonotone(limit, Tally(Log(h), limit, who, window), Tally(Log(h), limit, who, live), e.input, e.output);
  }

  /** In every half-open interval as long as a rule's window, the dispatches of each scope that were not aborted stay
      within the rule's request cap; and unless some completion reported more than was reserved, their tokens stay
      within its token caps. */
  lemma {:induction false} SlidingWindowSafety(limits: seq<QuotaLimit>, h: History, i: nat, who: Scope, start: int)
    requires Legal(limits, h)
    requires i < |limits| && ValidLimit(limits[i]) && RuleMatches(limits[i], who)
    ensures var used := Tally(Log(h), limits[i], who, Between(start, start + limits[i].Window()));
            RequestsHold(limits[i], used.requests) && (NoOverReport(h) ==> TokensHold(limits[i], used))
  {
    hide Tally, RequestsHold, TokensHold, Reconcile, Remove, Admitted;
    var limit := limits[i];
    var window := Between(start, start + limit.Window());
    if h.Then? {
      var before, after := Tally(Log(h.past), limit, who, window), Tally(Log(h), limit, who, window);
      SlidingWindowSafety(limits, h.past, i, who, start);
      HoldsForLess(limit, after, before);
      match h.step
      case Dispatch(e) => DispatchHolds(limits, h.past, e, i, who, start);
      case Settle(id, input, output) => TallyReconcile(Log(h.past), id, input, output, limit, who, window);
      case Undo(id) => TallyRemove(Log(h.past), id, limit, who, window);
      case Release(_) =>
    } else {
      HoldsForLess(limit, NOTHING, NOTHING);
      TallyNone(limit, who, window);
    }
  }

  // ---- Reports ----

  // Every request in flight is in the ledger.
  lemma {:induction false} InFlightIsLogged(limits: seq<QuotaLimit>, h: History, id: nat) returns (e: UsageEvent)
    requires Legal(limits, h) && id in Active(h)
    ensures e in Log(h) && e.id == id
  {
    LogShape(limits, h.past);
    match h.step
    case Dispatch(dispatched) =>
      if dispatched.id == id {
        e := dispatched;
        assert Log(h)[|Log(h.past)|] == e;
      } else {
        e := InFlightIsLogged(limits, h.past, id);
        assert e in Log(h.past) + [dispatched];
      }
    case Settle(other, input, output) =>
      e := InFlightIsLogged(limits, h.past, id);
      ReconcileShape(Log(h.past), other, input, output);
      var i :| 0 <= i < |Log(h.past)| && Log(h.past)[i] == e;
      assert Log(h)[i] == e;
    case Undo(other) =>
      e := InFlightIsLogged(limits, h.past, id);
      RemoveMembers(Log(h.past), other);
    case Release(_) => e := InFlightIsLogged(limits, h.past, id);
  }

  // A report takes the event's own tokens out of every span it counts in and puts the reported ones in.
  lemma {:induction false} ReportedTally(
    log: seq<UsageEvent>, e: UsageEvent, input: Option<nat>, output: Option<nat>, limit: QuotaLimit, who: Scope,
    span: Span)
    requires DistinctIds(log) && e in log
    ensures var reported := Reconcile(log, e.id, input, output);
            var before, after := Tally(log, limit, who, span), Tally(reported, limit, who, span);
            if span.Covers(e.at) && SameBucket(limit, who, e.who) then
              && before.input >= e.input && before.output >= e.output
              && after.input == before.input - e.input + input.GetOr(e.input)
              && after.output == before.output - e.output + output.GetOr(e.output)
            else after == before
  {
    var rest := Reconcile(log[1..], e.id, input, output);
    if log[0].id == e.id {
      assert log[0] == e by {
        var i :| 0 <= i < |log| && log[i] == e;
      }
      assert ([Reported(e, input, output)] + log[1..])[1..] == log[1..];
    } else {
      assert e in log[1..] by {
        var i :| 0 <= i < |log| && log[i] == e;
        assert log[1..][i - 1] == e;
      }
      ReportedTally(log[1..], e, input, output, limit, who, span);
      assert ([log[0]] + rest)[1..] == rest;
    }
  }

  // In the window from `start`, what is there without the event leaves room for what is reported.
  predicate FitsAt(
    limit: QuotaLimit, log: seq<UsageEvent>, e: UsageEvent, input: Option<nat>, output: Option<nat>, start: int)
  {
    var used := Tally(log, limit, e.who, Between(start, start + limit.Window()));
    && Within(limit.maxInputTokens, Max(used.input - e.input + input.GetOr(e.input), 0))
    && Within(limit.maxOutputTokens, Max(used.output - e.output + output.GetOr(e.output), 0))
    && Within(limit.maxTotalTokens,
              Max(used.input - e.input + input.GetOr(e.input) + used.output - e.output + output.GetOr(e.output), 0))
  }

  // What can be checked before a completion is recorded: there is room in every window that the event counts in.
  ghost predicate ReportFits(
    limit: QuotaLimit, log: seq<UsageEvent>, e: UsageEvent, input: Option<nat>, output: Option<nat>)
  {
    forall start: int | start <= e.at < start + limit.Window() :: FitsAt(limit, log, e, input, output, start)
  }

  ghost predicate WindowHolds(limit: QuotaLimit, log: seq<UsageEvent>, who: Scope, start: int) {
    RuleMatches(limit, who) ==> TokensHold(limit, Tally(log, limit, who, Between(start, start + limit.Window())))
  }

  ghost predicate WindowsHold(limit: QuotaLimit, log: seq<UsageEvent>) {
    forall who, start :: WindowHolds(limit, log, who, start)
  }

  // The token caps held in every window of every scope, after every step.
  ghost predicate WindowsAlwaysHeld(limit: QuotaLimit, h: History) {
    WindowsHold(limit, Log(h)) && (h.Then? ==> WindowsAlwaysHeld(limit, h.past))
  }

  ghost predicate StepFits(limit: QuotaLimit, h: History, step: Step) {
    step.Settle? ==>
      forall e | e in Log(h) && e.id == step.id && RuleMatches(limit, e.who) ::
        ReportFits(limit, Log(h), e, step.input, step.output)
  }

  // Every completion passed that check.
  ghost predicate ReportsAlwaysFit(limit: QuotaLimit, h: History) {
    h.Then? ==> StepFits(limit, h.past, h.step) && ReportsAlwaysFit(limit, h.past)
  }

  /** Exactly when reports are harmless: over every history, a rule's token caps hold in every window after every step
      if and only if there was room for each report when it was made. */
  lemma {:induction false} WindowsHoldExactly(limits: seq<QuotaLimit>, h: History, i: nat)
    requires Legal(limits, h) && i < |limits| && ValidLimit(limits[i])
    ensures WindowsAlwaysHeld(limits[i], h) <==> ReportsAlwaysFit(limits[i], h)
  {
    if h.Then? {
      WindowsHoldExactly(limits, h.past, i);
      if WindowsHold(limits[i], Log(h.past)) {
        StepHoldsExactly(limits, h.past, h.step, i);
      }
    } else {
      forall who, start ensures WindowHolds(limits[i], Log(h), who, start) {
        TallyNone(limits[i], who, Between(start, start + limits[i].Window()));
      }
    }
  }

  lemma {:induction false} StepHoldsExactly(limits: seq<QuotaLimit>, h: History, step: Step, i: nat)
    requires Legal(limits, Then(h, step)) && i < |limits| && ValidLimit(limits[i]) && WindowsHold(limits[i], Log(h))
    ensures WindowsHold(limits[i], Log(Then(h, step))) <==> StepFits(limits[i], h, step)
  {
    hide Tally, TokensHold, RequestsHold, Legal, ValidLimit, ReportFits;
    if step.Settle? {
      LegalSettle(limits, h, step);
      SettleHoldsExactly(limits, h, step.id, step.input, step.output, i);
    } else {
      forall who, start ensures WindowHolds(limits[i], Log(Then(h, step)), who, start) {
        var span := Between(start, start + limits[i].Window());
        assert WindowHolds(limits[i], Log(h), who, start);
        HoldsForLess(limits[i], Tally(Log(Then(h, step)), limits[i], who, span), Tally(Log(h), limits[i], who, span));
        if RuleMatches(limits[i], who) {
          match step
          case Dispatch(e) => DispatchHolds(limits, h, e, i, who, start);
          case Undo(id) => TallyRemove(Log(h), id, limits[i], who, span);
          case Release(_) =>
        }
      }
    }
  }

  lemma {:induction false} LegalSettle(limits: seq<QuotaLimit>, h: History, step: Step)
    requires Legal(limits, Then(h, step)) && step.Settle?
    ensures Legal(limits, h) && step.id in Active(h)
  {
  }

  lemma {:induction false} SettleHoldsExactly(
    limits: seq<QuotaLimit>, h: History, id: nat, input: Option<nat>, output: Option<nat>, i: nat)
    requires Legal(limits, h) && id in Active(h) && i < |limits| && WindowsHold(limits[i], Log(h))
    ensures WindowsHold(limits[i], Log(Then(h, Settle(id, input, output)))) <==>
            StepFits(limits[i], h, Settle(id, input, output))
  {
    hide Tally, Legal, Reconcile, TokensHold, FitsAt;
    var limit, after := limits[i], Log(Then(h, Settle(id, input, output)));
    LogShape(limits, h);
    var e := InFlightIsLogged(limits, h, id);
    forall who, start ensures WindowHolds(limit, after, who, start) <==>
        (RuleMatches(limit, who) && SameBucket(limit, who, e.who) && start <= e.at < start + limit.Window() ==>
           FitsAt(limit, Log(h), e, input, output, start))
    {
      assert WindowHolds(limit, Log(h), who, start);
      ReportInWindow(limit, Log(h), e, input, output, who, start);
    }
    SameEvent(Log(h), e);
    if StepFits(limit, h, Settle(id, input, output)) {
      forall who, start ensures WindowHolds(limit, after, who, start) {
      }
    }
    if WindowsHold(limit, after) && RuleMatches(limit, e.who) {
      forall start: int | start <= e.at < start + limit.Window()
        ensures FitsAt(limit, Log(h), e, input, output, start)
      {
        assert WindowHolds(limit, after, e.who, start);
      }
    }
  }

  lemma {:induction false} SameEvent(log: seq<UsageEvent>, e: UsageEvent)
    requires DistinctIds(log) && e in log
    ensures forall other | other in log && other.id == e.id :: other == e
  {
  }

  lemma {:induction false} ReportInWindow(
    limit: QuotaLimit, log: seq<UsageEvent>, e: UsageEvent, input: Option<nat>, output: Option<nat>, who: Scope,
    start: int)
    requires DistinctIds(log) && e in log && WindowHolds(limit, log, who, start)
    ensures WindowHolds(limit, Reconcile(log, e.id, input, output), who, start) <==>
            (RuleMatches(limit, who) && SameBucket(limit, who, e.who) && start <= e.at < start + limit.Window() ==>
               FitsAt(limit, log, e, input, output, start))
  {
    hide Tally, Reconcile, DistinctIds;
    var span := Between(start, start + limit.Window());
    ReportedTally(log, e, input, output, limit, who, span);
    if SameBucket(limit, who, e.who) {
      TallySameBucket(log, limit, who, e.who, span);
    }
  }

  lemma {:induction false} TallyOne(e: UsageEvent, limit: QuotaLimit, who: Scope, span: Span)
    ensures Tally([e], limit, who, span) ==
            if span.Covers(e.at) && SameBucket(limit, who, e.who) then UseOf(e) else NOTHING
  {
    assert [e][1..] == [];
  }

  lemma {:induction false} TallyNone(limit: QuotaLimit, who: Scope, span: Span)
    ensures Tally([], limit, who, span) == NOTHING
  {
  }

  // A dispatch leaves the window within its caps whether or not it falls into it.
  lemma {:induction false} DispatchHolds(
    limits: seq<QuotaLimit>, h: History, e: UsageEvent, i: nat, who: Scope, start: int)
    requires Legal(limits, Then(h, Dispatch(e)))
    requires i < |limits| && ValidLimit(limits[i]) && RuleMatches(limits[i], who)
    ensures var window := Between(start, start + limits[i].Window());
            var before, after := Tally(Log(h), limits[i], who, window), Tally(Log(h) + [e], limits[i], who, window);
            after == before || (RequestsHold(limits[i], after.requests) && TokensHold(limits[i], after))
  {
    hide Tally, CapFits, RequestsHold, TokensHold, Legal, ValidLimit;
    var limit, window := limits[i], Between(start, start + limits[i].Window());
    TallyAppend(Log(h), e, limit, who, window);
    TallyOne(e, limit, who, window);
    if window.Covers(e.at) && SameBucket(limit, who, e.who) {
      DispatchFits(limits, h, e, i, who, start);
      FitsThenHolds(limit, Tally(Log(h), limit, who, window), e);
    }
  }

  // The same in plain numbers: at most `max_requests`, and at most `max_rps` times the window.
  lemma {:induction false} RequestCapsInNumbers(limits: seq<QuotaLimit>, h: History, i: nat, who: Scope, start: int)
    requires Legal(limits, h)
    requires i < |limits| && ValidLimit(limits[i]) && RuleMatches(limits[i], who)
    ensures var requests := Tally(Log(h), limits[i], who, Between(start, start + limits[i].Window())).requests;
            && (limits[i].maxRequests.Some? ==> requests <= limits[i].maxRequests.value)
            && (limits[i].maxRps.Some? && requests < U64_MAX ==>
                  requests <= limits[i].maxRps.value * limits[i].windowSeconds)
  {
    SlidingWindowSafety(limits, h, i, who, start);
  }

  // ---- Concurrency ----

  /** In every reachable state each rule and scope has at most `max_concurrency` requests in flight. */
  lemma {:induction false} ConcurrencySafety(limits: seq<QuotaLimit>, h: History, i: nat, who: Scope)
    requires Legal(limits, h)
    requires i < |limits| && RuleMatches(limits[i], who) && limits[i].maxConcurrency.Some?
    ensures |Occupants(Active(h), limits[i], who)| <= limits[i].maxConcurrency.value
  {
    var limit := limits[i];
    if h.Then? {
      ConcurrencySafety(limits, h.past, i, who);
      var before, after := Occupants(Active(h.past), limit, who), Occupants(Active(h), limit, who);
      if h.step.Dispatch? && SameBucket(limit, who, h.step.event.who) {
        var e := h.step.event;
        assert LegalStep(limits, h.past, h.step);
        assert !Full(Active(h.past), limit, e.who);
        assert before == Occupants(Active(h.past), limit, e.who);
        assert after == before + {e.id};
      } else {
        assert after <= before by { LogShape(limits, h.past); }
        SubsetSmaller(after, before);
      }
    } else {
      assert Occupants(Active(h), limit, who) == {};
    }
  }

  lemma {:induction false} SubsetSmaller(a: set<nat>, b: set<nat>)
    requires a <= b
    ensures |a| <= |b|
  {
    if a != {} {
      var x :| x in a;
      SubsetSmaller(a - {x}, b - {x});
    }
  }

  // ---- Conservation ----

  function StepId(step: Step): nat {
    if step.Dispatch? then step.event.id else step.id
  }

  // How many times the permit `id` was given up, by completion, abort or drop.
  function Endings(h: History, id: nat): nat {
    match h
    case Start => 0
    case Then(past, step) => Endings(past, id) + (if !step.Dispatch? && step.id == id then 1 else 0)
  }

  function Dispatches(h: History, id: nat): nat {
    match h
    case Start => 0
    case Then(past, step) => Dispatches(past, id) + (if step.Dispatch? && step.event.id == id then 1 else 0)
  }

  /** Every permit is issued at most once, leaves the in-flight set at most once, and is in flight exactly in between.
      */
  lemma {:induction false} PermitsAreConserved(limits: seq<QuotaLimit>, h: History, id: nat)
    requires Legal(limits, h)
    ensures Dispatches(h, id) <= 1 && Endings(h, id) <= Dispatches(h, id)
    ensures id in Issued(h) <==> Dispatches(h, id) == 1
    ensures id in Active(h) <==> Dispatches(h, id) == 1 && Endings(h, id) == 0
  {
    if h.Then? {
      PermitsAreConserved(limits, h.past, id);
    }
  }

  // ---- Even pacing ----

  lemma {:induction false} RemoveIsThinner(limits: seq<QuotaLimit>, log: seq<UsageEvent>, id: nat, k: PacingKey)
    ensures Thinner(limits, Remove(log, id), log, k)
  {
    if log != [] {
      RemoveIsThinner(limits, log[1..], id, k);
      var rest := Remove(log[1..], id);
      assert ([log[0]] + rest)[1..] == rest;
    }
  }

  lemma {:induction false} SameIsThinner(limits: seq<QuotaLimit>, log: seq<UsageEvent>, k: PacingKey)
    ensures Thinner(limits, log, log, k)
  {
    if log != [] {
      SameIsThinner(limits, log[1..], k);
    }
  }

  lemma {:induction false} ReconcileIsThinner(
    limits: seq<QuotaLimit>, log: seq<UsageEvent>, id: nat, input: Option<nat>, output: Option<nat>, k: PacingKey)
    requires forall e | e in log && e.id == id ::
               Cheaper(BillOf(limits, k, Reported(e, input, output)), BillOf(limits, k, e))
    ensures Thinner(limits, Reconcile(log, id, input, output), log, k)
  {
    if log != [] {
      if log[0].id == id {
        var reported := Reported(log[0], input, output);
        SameIsThinner(limits, log[1..], k);
        assert ([reported] + log[1..])[1..] == log[1..];
      } else {
        ReconcileIsThinner(limits, log[1..], id, input, output, k);
        var rest := Reconcile(log[1..], id, input, output);
        assert ([log[0]] + rest)[1..] == rest;
      }
    }
  }

  // Admission kept a trusted slot at or before the instant of every dispatch it is charged for.
  lemma {:induction false} SlotInThePast(limits: seq<QuotaLimit>, h: History, e: UsageEvent, k: PacingKey)
    requires Legal(limits, Then(h, Dispatch(e))) && Trusted(limits, h, k)
    requires BillOf(limits, k, e).Some?
    ensures Pace(limits, h, k) <= e.at
  {
    assert LegalStep(limits, h, Dispatch(e));
    var limit := limits[k.rule];
    assert RuleAdmits(limit, k.rule, Log(h), TrustedSlots(limits, h), e.who, e.input, e.output, e.at);
    assert TrustedSlots(limits, h)(KeyOf(limit, k.rule, e.who, k.metric)) <= e.at;
  }

  /** Whatever was aborted or reconciled in between, the dispatches still in the log are spaced by their own cost:
      always for request pacing, and for token pacing unless a completion reported more than that slot was charged
      for. */
  lemma {:induction false} LogStaysSpaced(limits: seq<QuotaLimit>, h: History, k: PacingKey)
    requires Legal(limits, h) && NeverDearer(limits, h, k)
    ensures Spaced(limits, Log(h), k, 0)
    ensures Replay(limits, Log(h), k, 0) <= Pace(limits, h, k)
  {
    if h.Then? {
      var past := h.past;
      LogStaysSpaced(limits, past, k);
      match h.step
      case Dispatch(e) =>
        if BillOf(limits, k, e).Some? {
          CheapIsTrusted(limits, past, k);
          SlotInThePast(limits, past, e, k);
        }
        SpacedAppend(limits, Log(past), e, k, 0);
        ReplayAppend(limits, Log(past), e, k, 0);
      case Settle(id, input, output) =>
        ReconcileIsThinner(limits, Log(past), id, input, output, k);
        ThinnerStaysSpaced(limits, Log(h), Log(past), k, 0, 0);
      case Undo(id) =>
        RemoveIsThinner(limits, Log(past), id, k);
        ThinnerStaysSpaced(limits, Log(h), Log(past), k, 0, 0);
      case Release(_) =>
    }
  }

  // The dispatches with the tokens they reserved, whatever was reported later.
  function Reserved(h: History): seq<UsageEvent> {
    match h
    case Start => []
    case Then(past, step) => if step.Dispatch? then Reserved(past) + [step.event] else Reserved(past)
  }

  /** Without aborts the dispatches are spaced by what they reserved, even when completions report more. */
  lemma {:induction false} ReservationsStaySpaced(limits: seq<QuotaLimit>, h: History, k: PacingKey)
    requires Legal(limits, h) && NoAborts(h)
    ensures Spaced(limits, Reserved(h), k, 0)
    ensures Replay(limits, Reserved(h), k, 0) == Pace(limits, h, k)
  {
    if h.Then? {
      var past := h.past;
      ReservationsStaySpaced(limits, past, k);
      if h.step.Dispatch? {
        if BillOf(limits, k, h.step.event).Some? {
          CheapIsTrusted(limits, past, k);
          SlotInThePast(limits, past, h.step.event, k);
        }
        SpacedAppend(limits, Reserved(past), h.step.event, k, 0);
        ReplayAppend(limits, Reserved(past), h.step.event, k, 0);
      }
    }
  }

  lemma {:induction false} SpacedFrom(
    limits: seq<QuotaLimit>, log: seq<UsageEvent>, k: PacingKey, slot: Instant, j: nat)
    requires Spaced(limits, log, k, slot) && j < |log| && BillOf(limits, k, log[j]).Some?
    ensures slot <= log[j].at
  {
    if j > 0 {
      SpacedFrom(limits, log[1..], k, Charged(slot, log[0].at, BillOf(limits, k, log[0])), j - 1);
    }
  }

  // What spacing means: a later dispatch charged to the same slot comes at least the earlier one's cost later.
  lemma {:induction false} SpacedGap(
    limits: seq<QuotaLimit>, log: seq<UsageEvent>, k: PacingKey, slot: Instant, i: nat, j: nat)
    requires Spaced(limits, log, k, slot) && i < j < |log|
    requires BillOf(limits, k, log[i]).Some? && BillOf(limits, k, log[j]).Some?
    ensures log[i].at + BillOf(limits, k, log[i]).value <= log[j].at
  {
    var next := Charged(slot, log[0].at, BillOf(limits, k, log[0]));
    if i == 0 {
      SpacedFrom(limits, log[1..], k, next, j - 1);
    } else {
      SpacedGap(limits, log[1..], k, next, i - 1, j - 1);
    }
  }

  // ---- Abort ----

  lemma {:induction false} RemoveAppend(log: seq<UsageEvent>, e: UsageEvent, id: nat)
    ensures Remove(log + [e], id) == Remove(log, id) + (if e.id == id then [] else [e])
  {
    if log == [] {
      assert log + [e] == [e];
    } else {
      assert (log + [e])[1..] == log[1..] + [e];
      RemoveAppend(log[1..], e, id);
    }
  }

  lemma {:induction false} RemoveAbsent(log: seq<UsageEvent>, id: nat)
    requires forall e | e in log :: e.id != id
    ensures Remove(log, id) == log
  {
    if log != [] {
      RemoveAbsent(log[1..], id);
    }
  }

  lemma {:induction false} RemoveCommutes(log: seq<UsageEvent>, a: nat, b: nat)
    ensures Remove(Remove(log, a), b) == Remove(Remove(log, b), a)
  {
    if log != [] {
      RemoveCommutes(log[1..], a, b);
      assert forall rest: seq<UsageEvent> :: ([log[0]] + rest)[1..] == rest;
    }
  }

  lemma {:induction false} ReconcileUnchanged(log: seq<UsageEvent>, id: nat, input: Option<nat>, output: Option<nat>)
    requires forall e | e in log && e.id == id :: Reported(e, input, output) == e
    ensures Reconcile(log, id, input, output) == log
  {
    if log != [] {
      if log[0].id == id {
        assert log[0] in log;
      } else {
        ReconcileUnchanged(log[1..], id, input, output);
      }
    }
  }

  lemma {:induction false} UnreconciledIsTrusted(h: History)
    requires NeverReconciled(h)
    ensures NoOverReport(h) && NoAbortAfterOverReport(h)
  {
    if h.Then? {
      UnreconciledIsTrusted(h.past);
    }
  }

  // As long as nothing was reconciled the pacing slots are a replay of the log.
  lemma {:induction false} PaceIsReplay(limits: seq<QuotaLimit>, h: History, k: PacingKey)
    requires NeverReconciled(h)
    ensures Pace(limits, h, k) == Replay(limits, Log(h), k, 0)
  {
    if h.Then? {
      PaceIsReplay(limits, h.past, k);
      match h.step
      case Dispatch(e) => ReplayAppend(limits, Log(h.past), e, k, 0);
      case Settle(id, input, output) => ReconcileUnchanged(Log(h.past), id, input, output);
      case Undo(_) =>
      case Release(_) =>
    }
  }

  // The same run with every step of `id` left out.
  function Without(h: History, id: nat): History {
    match h
    case Start => Start
    case Then(past, step) => if StepId(step) == id then Without(past, id) else Then(Without(past, id), step)
  }

  lemma {:induction false} WithoutAbsent(limits: seq<QuotaLimit>, h: History, id: nat)
    requires Legal(limits, h) && id !in Issued(h)
    ensures Without(h, id) == h
  {
    if h.Then? {
      LogShape(limits, h.past);
      WithoutAbsent(limits, h.past, id);
    }
  }

  // `b` is a legal run whose state is that of `h` without the permit `id`.
  ghost predicate Twin(limits: seq<QuotaLimit>, h: History, b: History, id: nat) {
    && Legal(limits, b) && NeverReconciled(b)
    && Log(b) == Remove(Log(h), id) && Active(b) == Active(h) - {id}
    && Issued(b) <= Issued(h) && Time(b) <= Time(h)
  }

  lemma {:induction false} DispatchIsNew(limits: seq<QuotaLimit>, h: History, e: UsageEvent)
    requires Legal(limits, Then(h, Dispatch(e)))
    ensures Legal(limits, h) && e.id !in Issued(h) && Time(h) <= e.at
  {
  }

  lemma {:induction false} TwinBefore(limits: seq<QuotaLimit>, h: History, e: UsageEvent)
    requires Legal(limits, Then(h, Dispatch(e))) && NeverReconciled(h)
    ensures Twin(limits, Then(h, Dispatch(e)), h, e.id)
  {
    hide Legal, Admitted, NeverReconciled;
    DispatchIsNew(limits, h, e);
    LogShape(limits, h);
    RemoveAppend(Log(h), e, e.id);
    RemoveAbsent(Log(h), e.id);
  }

  lemma {:induction false} TwinDispatch(limits: seq<QuotaLimit>, h: History, b: History, id: nat, e: UsageEvent)
    requires Twin(limits, h, b, id) && Legal(limits, Then(h, Dispatch(e))) && NeverReconciled(h) && e.id != id
    ensures Twin(limits, Then(h, Dispatch(e)), Then(b, Dispatch(e)), id)
  {
    assert LegalStep(limits, h, Dispatch(e));
    RemoveAppend(Log(h), e, id);
    StillAdmitted(limits, h, b, id, e);
  }

  lemma {:induction false} TwinSettle(
    limits: seq<QuotaLimit>, h: History, b: History, id: nat, other: nat, input: Option<nat>, output: Option<nat>)
    requires Twin(limits, h, b, id) && Legal(limits, Then(h, Settle(other, input, output)))
    requires NeverReconciled(Then(h, Settle(other, input, output))) && other != id
    ensures Twin(limits, Then(h, Settle(other, input, output)), Then(b, Settle(other, input, output)), id)
  {
    RemoveMembers(Log(h), id);
    ReconcileUnchanged(Log(h), other, input, output);
    ReconcileUnchanged(Log(b), other, input, output);
  }

  lemma {:induction false} TwinUndo(limits: seq<QuotaLimit>, h: History, b: History, id: nat, other: nat)
    requires Twin(limits, h, b, id) && Legal(limits, Then(h, Undo(other))) && other != id
    ensures Twin(limits, Then(h, Undo(other)), Then(b, Undo(other)), id)
  {
    RemoveCommutes(Log(h), id, other);
  }

  // Leaving out a permit still in flight gives a legal run whose state is the same without that permit.
  lemma {:induction false} WithoutInFlight(limits: seq<QuotaLimit>, h: History, id: nat)
    requires Legal(limits, h) && NeverReconciled(h) && id in Active(h)
    ensures Twin(limits, h, Without(h, id), id)
  {
    var past, step := h.past, h.step;
    if step.Dispatch? && step.event.id == id {
      WithoutAbsent(limits, past, id);
      TwinBefore(limits, past, step.event);
    } else {
      var b := Without(past, id);
      WithoutInFlight(limits, past, id);
      match step
      case Dispatch(e) => TwinDispatch(limits, past, b, id, e);
      case Settle(other, input, output) => TwinSettle(limits, past, b, id, other, input, output);
      case Undo(other) => TwinUndo(limits, past, b, id, other);
      case Release(_) =>
    }
  }

  // Admission does not get harder when another request is taken out of the run.
  lemma {:induction false} StillAdmitted(limits: seq<QuotaLimit>, h: History, b: History, id: nat, e: UsageEvent)
    requires NeverReconciled(h) && NeverReconciled(b) && Admitted(limits, h, e)
    requires Log(b) == Remove(Log(h), id) && Active(b) == Active(h) - {id}
    ensures Admitted(limits, b, e)
  {
    UnreconciledIsTrusted(h);
    UnreconciledIsTrusted(b);
    forall k: PacingKey ensures TrustedSlots(limits, b)(k) <= Max(e.at, TrustedSlots(limits, h)(k)) {
      AllTrusted(limits, h, k);
      AllTrusted(limits, b, k);
      PaceIsReplay(limits, h, k);
      PaceIsReplay(limits, b, k);
      RemoveIsThinner(limits, Log(h), id, k);
      ThinnerStaysSpaced(limits, Log(b), Log(h), k, 0, 0);
    }
    forall i | 0 <= i < |limits| && RuleMatches(limits[i], e.who)
      ensures Tally(Log(b), limits[i], e.who, LiveSpan(limits[i].Window(), e.at)).AtMost(
                Tally(Log(h), limits[i], e.who, LiveSpan(limits[i].Window(), e.at)))
      ensures !Full(Active(b), limits[i], e.who)
    {
      TallyRemove(Log(h), id, limits[i], e.who, LiveSpan(limits[i].Window(), e.at));
      SubsetSmaller(Occupants(Active(b), limits[i], e.who), Occupants(Active(h), limits[i], e.who));
    }
    AdmitsMonotone(limits, Log(h), Log(b), TrustedSlots(limits, h), TrustedSlots(limits, b),
                   e.who, e.input, e.output, e.at);
  }

  /** Aborting a permit leaves exactly the state of the run in which it was never dispatched and everything else was:
      that run is legal, and both admit the same requests at the same instants. */
  lemma {:induction false} AbortUndoesDispatch(limits: seq<QuotaLimit>, h: History, id: nat)
    requires Legal(limits, Then(h, Undo(id))) && NeverReconciled(h)
    ensures var a, b := Then(h, Undo(id)), Without(h, id);
            && Legal(limits, b)
            && Log(a) == Log(b) && Active(a) == Active(b)
            && (forall k :: Pace(limits, a, k) == Pace(limits, b, k))
            && forall e: UsageEvent :: Admitted(limits, a, e) <==> Admitted(limits, b, e)
  {
    var a, b := Then(h, Undo(id)), Without(h, id);
    WithoutInFlight(limits, h, id);
    UnreconciledIsTrusted(a);
    UnreconciledIsTrusted(b);
    forall k ensures Pace(limits, a, k) == Pace(limits, b, k) {
      PaceIsReplay(limits, a, k);
      PaceIsReplay(limits, b, k);
    }
    forall e: UsageEvent ensures Admitted(limits, a, e) <==> Admitted(limits, b, e) {
      SameAdmission(limits, a, b, e);
      SameAdmission(limits, b, a, e);
    }
  }

  lemma {:induction false} SameAdmission(limits: seq<QuotaLimit>, a: History, b: History, e: UsageEvent)
    requires Log(a) == Log(b) && Active(a) == Active(b) && NoOverReport(a) && NoOverReport(b)
    requires forall k :: Pace(limits, a, k) == Pace(limits, b, k)
    ensures Admitted(limits, a, e) ==> Admitted(limits, b, e)
  {
    forall k: PacingKey ensures Trusted(limits, a, k) && Trusted(limits, b, k) {
      EitherIsEnough(a);
      EitherIsEnough(b);
      AllTrusted(limits, a, k);
      AllTrusted(limits, b, k);
    }
    if Admitted(limits, a, e) {
      AdmitsMonotone(limits, Log(a), Log(b), TrustedSlots(limits, a), TrustedSlots(limits, b),
                     e.who, e.input, e.output, e.at);
    }
  }
}
