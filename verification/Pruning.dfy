/** The pruned ledger and pacing table answer like ones that never forget (src/scheduling.rs: prune_events,
    rebuild_pacing). `Refines` is what the `Scheduler` keeps between its fields and its history. */
module Pruning {
  import opened Basics
  import opened Policy
  import opened Ledger
  import opened Pacing
  import opened Admission
  import opened History
  import opened Safety
  import opened Rate

  // `events` is `log` after dropping, from the front, events older than every window.
  ghost predicate Trimmed(limits: seq<QuotaLimit>, log: seq<UsageEvent>, events: seq<UsageEvent>, now: Instant) {
    || events == log
    || (log != [] && log[0].at + WidestWindow(limits) <= now && Trimmed(limits, log[1..], events, now))
  }

  ghost predicate SlotsAgree(limits: seq<QuotaLimit>, h: History, clock: Instant, pacing: map<PacingKey, Instant>) {
    forall k :: Trusted(limits, h, k) ==> SameFrom(clock, Slot(pacing, k), Pace(limits, h, k))
  }

  // No slot, trusted or not, holds back longer than that of the full history.
  ghost predicate SlotsNoLater(limits: seq<QuotaLimit>, h: History, clock: Instant, pacing: map<PacingKey, Instant>) {
    forall k :: Slot(pacing, k) <= Max(clock, Pace(limits, h, k))
  }

  ghost predicate Refines(
    limits: seq<QuotaLimit>, h: History, clock: Instant,
    events: seq<UsageEvent>, pacing: map<PacingKey, Instant>, active: map<nat, Scope>)
  {
    && Legal(limits, h) && Time(h) <= clock
    && Trimmed(limits, Log(h), events, clock)
    && SlotsAgree(limits, h, clock, pacing) && SlotsNoLater(limits, h, clock, pacing)
    && active == Active(h)
  }

  // ---- Trimming ----

  lemma {:induction false} TrimmedTally(
    limits: seq<QuotaLimit>, log: seq<UsageEvent>, events: seq<UsageEvent>, now: Instant, i: nat, who: Scope,
    t: Instant)
    requires Trimmed(limits, log, events, now) && now <= t && i < |limits|
    ensures Tally(events, limits[i], who, LiveSpan(limits[i].Window(), t)) ==
            Tally(log, limits[i], who, LiveSpan(limits[i].Window(), t))
  {
    if events != log {
      assert limits[i].Window() <= WidestWindow(limits);
      TrimmedTally(limits, log[1..], events, now, i, who, t);
    }
  }

  lemma {:induction false} TrimmedLater(
    limits: seq<QuotaLimit>, log: seq<UsageEvent>, events: seq<UsageEvent>, now: Instant, later: Instant)
    requires Trimmed(limits, log, events, now) && now <= later
    ensures Trimmed(limits, log, events, later)
  {
    if events != log {
      TrimmedLater(limits, log[1..], events, now, later);
    }
  }

  lemma {:induction false} TrimmedAppend(
    limits: seq<QuotaLimit>, log: seq<UsageEvent>, events: seq<UsageEvent>, now: Instant, e: UsageEvent)
    requires Trimmed(limits, log, events, now)
    ensures Trimmed(limits, log + [e], events + [e], now)
  {
    if events != log {
      assert (log + [e])[1..] == log[1..] + [e];
      TrimmedAppend(limits, log[1..], events, now, e);
    }
  }

  lemma {:induction false} TrimmedRemove(
    limits: seq<QuotaLimit>, log: seq<UsageEvent>, events: seq<UsageEvent>, now: Instant, id: nat)
    requires Trimmed(limits, log, events, now)
    ensures Trimmed(limits, Remove(log, id), Remove(events, id), now)
  {
    if events != log {
      TrimmedRemove(limits, log[1..], events, now, id);
      var rest := Remove(log[1..], id);
      assert ([log[0]] + rest)[1..] == rest;
    }
  }

  lemma {:induction false} TrimmedMembers(
    limits: seq<QuotaLimit>, log: seq<UsageEvent>, events: seq<UsageEvent>, now: Instant)
    requires Trimmed(limits, log, events, now)
    ensures forall e | e in events :: e in log
    ensures Sorted(log) ==> Sorted(events)
  {
    if events != log {
      TrimmedMembers(limits, log[1..], events, now);
    }
  }

  lemma {:induction false} TrimmedReconcile(
    limits: seq<QuotaLimit>, log: seq<UsageEvent>, events: seq<UsageEvent>, now: Instant,
    id: nat, input: Option<nat>, output: Option<nat>)
    requires Trimmed(limits, log, events, now) && DistinctIds(log)
    ensures Trimmed(limits, Reconcile(log, id, input, output), Reconcile(events, id, input, output), now)
  {
    if events != log {
      var rest := Reconcile(log[1..], id, input, output);
      assert ([log[0]] + rest)[1..] == rest;
      if log[0].id == id {
        TrimmedMembers(limits, log[1..], events, now);
        assert forall e | e in log[1..] :: log[0].id != e.id;
        ReconcileUnchanged(events, id, input, output);
        assert ([Reported(log[0], input, output)] + log[1..])[1..] == log[1..];
      } else {
        TrimmedReconcile(limits, log[1..], events, now, id, input, output);
      }
    }
  }

  // Events are popped from the front for as long as they have left every window.
  function KeptEvents(events: seq<UsageEvent>, widest: Duration, now: Instant): seq<UsageEvent> {
    if events != [] && Elapsed(now, events[0].at) >= widest then KeptEvents(events[1..], widest, now) else events
  }

  function KeptSlots(pacing: map<PacingKey, Instant>, widest: Duration, now: Instant): map<PacingKey, Instant> {
    map k | k in pacing && (pacing[k] > now || Elapsed(now, pacing[k]) < widest) :: pacing[k]
  }

  // Pruning a time-ordered ledger removes exactly the events that have left every window.
  lemma {:induction false} PruningIsExact(events: seq<UsageEvent>, widest: Duration, now: Instant)
    requires Sorted(events)
    ensures forall e :: e in KeptEvents(events, widest, now) <==> e in events && Elapsed(now, e.at) < widest
  {
    if events != [] && Elapsed(now, events[0].at) >= widest {
      PruningIsExact(events[1..], widest, now);
    } else {
      assert forall i | 0 <= i < |events| :: events[0].at <= events[i].at;
    }
  }

  lemma {:induction false} TrimmedKept(
    limits: seq<QuotaLimit>, log: seq<UsageEvent>, events: seq<UsageEvent>, now: Instant)
    requires Trimmed(limits, log, events, now)
    requires forall e | e in log :: e.at <= now
    ensures Trimmed(limits, log, KeptEvents(events, WidestWindow(limits), now), now)
  {
    if events != log {
      TrimmedKept(limits, log[1..], events, now);
    } else if events != [] && Elapsed(now, events[0].at) >= WidestWindow(limits) {
      assert events[0] in log;
      TrimmedKept(limits, log[1..], events[1..], now);
    }
  }

  // Only slots in the past are forgotten.
  lemma {:induction false} KeptSlotsSuffice(pacing: map<PacingKey, Instant>, widest: Duration, now: Instant)
    ensures forall k :: SameFrom(now, Slot(KeptSlots(pacing, widest, now), k), Slot(pacing, k))
  {
  }

  // Replaying only what was kept leaves a slot that holds back exactly as much from now on.
  lemma {:induction false} TrimmedReplay(
    limits: seq<QuotaLimit>, log: seq<UsageEvent>, events: seq<UsageEvent>, now: Instant, k: PacingKey, slot: Instant)
    requires Trimmed(limits, log, events, now) && Spaced(limits, log, k, slot) && slot <= now
    requires forall e | e in log && BillOf(limits, k, e).Some? :: BillOf(limits, k, e).value <= WidestWindow(limits)
    ensures SameFrom(now, Replay(limits, log, k, slot), Replay(limits, events, k, 0))
  {
    if events == log {
      StartForgotten(limits, log, k, slot, now);
    } else {
      assert log[0] in log;
      TrimmedReplay(limits, log[1..], events, now, k, Charged(slot, log[0].at, BillOf(limits, k, log[0])));
    }
  }

  // No charge is longer than the widest window, as long as no report made one longer than was reserved.
  lemma {:induction false} BillsWithinWindow(limits: seq<QuotaLimit>, h: History, k: PacingKey)
    requires Legal(limits, h) && (forall i | 0 <= i < |limits| :: ValidLimit(limits[i]))
    requires NeverDearer(limits, h, k)
    ensures forall e | e in Log(h) && BillOf(limits, k, e).Some? :: BillOf(limits, k, e).value <= WidestWindow(limits)
  {
    if h.Then? {
      BillsWithinWindow(limits, h.past, k);
      match h.step
      case Dispatch(e) =>
        if BillOf(limits, k, e).Some? {
          assert LegalStep(limits, h.past, h.step);
          assert RuleAdmits(limits[k.rule], k.rule, Log(h.past), TrustedSlots(limits, h.past), e.who, e.input, e.output,
                            e.at);
          CostAtMostWindow(limits[k.rule], k.metric, e.input, e.output);
        }
      case Settle(id, input, output) =>
        ReconcileShape(Log(h.past), id, input, output);
        assert forall j | 0 <= j < |Log(h)| :: Log(h.past)[j] in Log(h.past);
      case Undo(id) => RemoveMembers(Log(h.past), id);
      case Release(_) =>
    }
  }

  // ---- Pruning is invisible ----

  // Every slot that the request is charged to can be relied on.
  ghost predicate TrustedFor(limits: seq<QuotaLimit>, h: History, who: Scope, input: nat, output: nat) {
    forall k | Bill(limits, k, who, input, output).Some? :: Trusted(limits, h, k)
  }

  /** From its clock on the pruned state admits whatever the never-forgetting one admits, and more only by the slots:
      what it admits, the other one refuses if and only if it still holds back one of the request's slots. No trusted
      slot is, so that they admit exactly the same of every request whose own slots are trusted. */
  lemma {:induction false} PruningIsInvisible(
    limits: seq<QuotaLimit>, h: History, clock: Instant, events: seq<UsageEvent>, pacing: map<PacingKey, Instant>,
    active: map<nat, Scope>, who: Scope, input: nat, output: nat, t: Instant)
    requires Refines(limits, h, clock, events, pacing, active) && clock <= t
    ensures Admits(limits, Log(h), k => Pace(limits, h, k), who, input, output, t) <==>
            && Admits(limits, events, SlotsOf(pacing), who, input, output, t)
            && forall k | Bill(limits, k, who, input, output).Some? :: Pace(limits, h, k) <= t
    ensures Admits(limits, events, SlotsOf(pacing), who, input, output, t) ==>
              Admits(limits, Log(h), TrustedSlots(limits, h), who, input, output, t)
    ensures TrustedFor(limits, h, who, input, output) ==>
              (Admits(limits, events, SlotsOf(pacing), who, input, output, t) <==>
               Admits(limits, Log(h), k => Pace(limits, h, k), who, input, output, t))
  {
    hide Admits, Tally, Legal, Trusted, Pace, Bill;
    TrimmedTallies(limits, Log(h), events, clock, who, t);
    var slots, trusted, pace := SlotsOf(pacing), TrustedSlots(limits, h), (k: PacingKey) => Pace(limits, h, k);
    forall k: PacingKey
      ensures trusted(k) <= Max(t, slots(k)) && slots(k) <= Max(t, pace(k))
      ensures Trusted(limits, h, k) ==> pace(k) <= Max(t, slots(k))
    {
      assert Trusted(limits, h, k) ==> SameFrom(clock, Slot(pacing, k), Pace(limits, h, k));
    }
    if Admits(limits, events, slots, who, input, output, t) {
      AdmitsMonotone(limits, events, Log(h), slots, trusted, who, input, output, t);
      AdmittedSlots(limits, events, slots, who, input, output, t);
      if forall k | Bill(limits, k, who, input, output).Some? :: pace(k) <= t {
        AdmitsMonotone(limits, events, Log(h), slots, pace, who, input, output, t);
      }
    }
    if Admits(limits, Log(h), pace, who, input, output, t) {
      AdmitsMonotone(limits, Log(h), events, pace, slots, who, input, output, t);
      AdmittedSlots(limits, Log(h), pace, who, input, output, t);
    }
  }

  lemma {:induction false} TrimmedTallies(
    limits: seq<QuotaLimit>, log: seq<UsageEvent>, events: seq<UsageEvent>, now: Instant, who: Scope, t: Instant)
    requires Trimmed(limits, log, events, now) && now <= t
    ensures forall i | 0 <= i < |limits| ::
              Tally(events, limits[i], who, LiveSpan(limits[i].Window(), t)) ==
              Tally(log, limits[i], who, LiveSpan(limits[i].Window(), t))
  {
    forall i | 0 <= i < |limits|
      ensures Tally(events, limits[i], who, LiveSpan(limits[i].Window(), t)) ==
              Tally(log, limits[i], who, LiveSpan(limits[i].Window(), t))
    {
      TrimmedTally(limits, log, events, now, i, who, t);
    }
  }

  /** In particular pruning is invisible to every request as long as no abort came after an over-report. */
  lemma {:induction false} PruningIsInvisibleToAll(
    limits: seq<QuotaLimit>, h: History, clock: Instant, events: seq<UsageEvent>, pacing: map<PacingKey, Instant>,
    active: map<nat, Scope>, who: Scope, input: nat, output: nat, t: Instant)
    requires Refines(limits, h, clock, events, pacing, active) && clock <= t && NoAbortAfterOverReport(h)
    ensures Admits(limits, events, SlotsOf(pacing), who, input, output, t) <==>
            Admits(limits, Log(h), k => Pace(limits, h, k), who, input, output, t)
  {
    forall k | Bill(limits, k, who, input, output).Some? ensures Trusted(limits, h, k) {
      AllTrusted(limits, h, k);
    }
    PruningIsInvisible(limits, h, clock, events, pacing, active, who, input, output, t);
  }

  // ---- When an abort shows pruning ----

  // What the events charge to the slot one after the other.
  function Bills(limits: seq<QuotaLimit>, log: seq<UsageEvent>, k: PacingKey): nat {
    if log == [] then 0 else BillOf(limits, k, log[0]).GetOr(0) + Bills(limits, log[1..], k)
  }

  // A later start can only be felt through an unbroken row of charges.
  lemma {:induction false} ReplayFrom(limits: seq<QuotaLimit>, log: seq<UsageEvent>, k: PacingKey, slot: Instant)
    ensures Replay(limits, log, k, slot) == Max(slot + Bills(limits, log, k), Replay(limits, log, k, 0))
  {
    if log != [] {
      var bill := BillOf(limits, k, log[0]);
      ReplayFrom(limits, log[1..], k, Charged(slot, log[0].at, bill));
      ReplayFrom(limits, log[1..], k, Charged(0, log[0].at, bill));
    }
  }

  lemma {:induction false} ReplayConcat(
    limits: seq<QuotaLimit>, log: seq<UsageEvent>, more: seq<UsageEvent>, k: PacingKey, slot: Instant)
    ensures Replay(limits, log + more, k, slot) == Replay(limits, more, k, Replay(limits, log, k, slot))
  {
    if log == [] {
      assert log + more == more;
    } else {
      assert (log + more)[1..] == log[1..] + more;
      ReplayConcat(limits, log[1..], more, k, Charged(slot, log[0].at, BillOf(limits, k, log[0])));
    }
  }

  lemma {:induction false} TrimmedIsSuffix(
    limits: seq<QuotaLimit>, log: seq<UsageEvent>, events: seq<UsageEvent>, now: Instant)
    requires Trimmed(limits, log, events, now)
    ensures |events| <= |log| && log == log[..|log| - |events|] + events
  {
    if events != log {
      TrimmedIsSuffix(limits, log[1..], events, now);
    }
  }

  // The events of the aborted history that pruning has dropped.
  function Forgotten(h: History, events: seq<UsageEvent>, id: nat): seq<UsageEvent> {
    var log, kept := Remove(Log(h), id), Remove(events, id);
    if |kept| <= |log| then log[..|log| - |kept|] else []
  }

  // How far the forgotten events would have pushed the slot `k` through the charges of the kept ones.
  function Pushed(limits: seq<QuotaLimit>, h: History, events: seq<UsageEvent>, id: nat, k: PacingKey): Instant {
    Replay(limits, Forgotten(h, events, id), k, 0) + Bills(limits, Remove(events, id), k)
  }

  // An abort leaves in the full history the later of the rebuilt slot and the one the forgotten events push.
  lemma {:induction false} PaceAfterAbort(
    limits: seq<QuotaLimit>, h: History, clock: Instant, events: seq<UsageEvent>, id: nat, k: PacingKey)
    requires Trimmed(limits, Log(h), events, clock)
    ensures Pace(limits, Then(h, Undo(id)), k) ==
            Max(Pushed(limits, h, events, id, k), Replay(limits, Remove(events, id), k, 0))
  {
    var forgotten, kept := Forgotten(h, events, id), Remove(events, id);
    TrimmedRemove(limits, Log(h), events, clock, id);
    TrimmedIsSuffix(limits, Remove(Log(h), id), kept, clock);
    ReplayConcat(limits, forgotten, kept, k, 0);
    ReplayFrom(limits, kept, k, Replay(limits, forgotten, k, 0));
  }

  /** Exactly when an abort leaves a slot of the pruned scheduler as it should be, whatever was reported before: the
      rebuilt slot holds back as much from the clock on as the never-forgetting one if and only if the forgotten events
      would not have pushed it beyond the clock and beyond what the kept events rebuild. */
  lemma {:induction false} AbortKeepsSlotExactly(
    limits: seq<QuotaLimit>, h: History, clock: Instant, events: seq<UsageEvent>, pacing: map<PacingKey, Instant>,
    active: map<nat, Scope>, id: nat, k: PacingKey)
    requires Refines(limits, h, clock, events, pacing, active) && id in active
    ensures var rebuilt := Replay(limits, Remove(events, id), k, 0);
            SameFrom(clock, rebuilt, Pace(limits, Then(h, Undo(id)), k)) <==>
            Pushed(limits, h, events, id, k) <= Max(clock, rebuilt)
  {
    PaceAfterAbort(limits, h, clock, events, id, k);
  }

  /** And exactly what shows of it: after the abort the never-forgetting scheduler admits a request at an instant if and
      only if the pruned one does and no slot of the request is pushed beyond that instant. */
  lemma {:induction false} AbortShowsExactly(
    limits: seq<QuotaLimit>, h: History, clock: Instant, events: seq<UsageEvent>, pacing: map<PacingKey, Instant>,
    active: map<nat, Scope>, id: nat, pacing': map<PacingKey, Instant>, who: Scope, input: nat, output: nat, t: Instant)
    requires Refines(limits, h, clock, events, pacing, active) && id in active && clock <= t
    requires forall k :: Slot(pacing', k) == Replay(limits, Remove(events, id), k, 0)
    ensures var next := Then(h, Undo(id));
            Admits(limits, Log(next), k => Pace(limits, next, k), who, input, output, t) <==>
            && Admits(limits, Remove(events, id), SlotsOf(pacing'), who, input, output, t)
            && forall k | Bill(limits, k, who, input, output).Some? :: Pushed(limits, h, events, id, k) <= t
  {
    hide Admits, Tally, Legal, Trusted, Pace, Bill, Pushed, Replay, Remove;
    var next, kept := Then(h, Undo(id)), Remove(events, id);
    var slots, pace := SlotsOf(pacing'), (k: PacingKey) => Pace(limits, next, k);
    TrimmedRemove(limits, Log(h), events, clock, id);
    TrimmedTallies(limits, Log(next), kept, clock, who, t);
    forall k: PacingKey ensures pace(k) == Max(Pushed(limits, h, events, id, k), slots(k)) {
      PaceAfterAbort(limits, h, clock, events, id, k);
    }
    if Admits(limits, Log(next), pace, who, input, output, t) {
      AdmitsMonotone(limits, Log(next), kept, pace, slots, who, input, output, t);
      AdmittedSlots(limits, Log(next), pace, who, input, output, t);
    }
    if Admits(limits, kept, slots, who, input, output, t)
       && forall k | Bill(limits, k, who, input, output).Some? :: Pushed(limits, h, events, id, k) <= t
    {
      AdmitsMonotone(limits, kept, Log(next), slots, pace, who, input, output, t);
    }
  }

  /** The same of two pruned schedulers: one that aborted a permit and one in which that dispatch never happened
      dispatch the same requests from then on, as long as nothing was reconciled. */
  lemma {:induction false} AbortIsInvisible(
    limits: seq<QuotaLimit>, h: History, id: nat,
    clock: Instant, events: seq<UsageEvent>, pacing: map<PacingKey, Instant>, active: map<nat, Scope>,
    clock': Instant, events': seq<UsageEvent>, pacing': map<PacingKey, Instant>, active': map<nat, Scope>,
    who: Scope, input: nat, output: nat, t: Instant)
    requires Legal(limits, Then(h, Undo(id))) && NeverReconciled(h)
    requires Refines(limits, Then(h, Undo(id)), clock, events, pacing, active) && clock <= t
    requires Refines(limits, Without(h, id), clock', events', pacing', active') && clock' <= t
    ensures Dispatchable(limits, events, pacing, active, who, input, output, t) <==>
            Dispatchable(limits, events', pacing', active', who, input, output, t)
  {
    hide Legal, Admits, SlotFree, Pace, Log, Active, Without, NeverReconciled;
    var a, b := Then(h, Undo(id)), Without(h, id);
    AbortUndoesDispatch(limits, h, id);
    StayTrusted(limits, h, id);
    PruningIsInvisibleToAll(limits, a, clock, events, pacing, active, who, input, output, t);
    PruningIsInvisibleToAll(limits, b, clock', events', pacing', active', who, input, output, t);
    var slotsA, slotsB := (k: PacingKey) => Pace(limits, a, k), (k: PacingKey) => Pace(limits, b, k);
    SameSlots(limits, Log(a), slotsA, slotsB, who, input, output, t);
  }

  lemma {:induction false} StayTrusted(limits: seq<QuotaLimit>, h: History, id: nat)
    requires Legal(limits, Then(h, Undo(id))) && NeverReconciled(h)
    ensures NoAbortAfterOverReport(Then(h, Undo(id))) && NoAbortAfterOverReport(Without(h, id))
  {
    UnreconciledIsTrusted(h);
    WithoutInFlight(limits, h, id);
    UnreconciledIsTrusted(Without(h, id));
  }

  lemma {:induction false} SameSlots(
    limits: seq<QuotaLimit>, log: seq<UsageEvent>, slots: PacingKey -> Instant, others: PacingKey -> Instant,
    who: Scope, input: nat, output: nat, t: Instant)
    requires forall k: PacingKey :: slots(k) == others(k)
    ensures Admits(limits, log, slots, who, input, output, t) <==> Admits(limits, log, others, who, input, output, t)
  {
    if Admits(limits, log, slots, who, input, output, t) {
      AdmitsMonotone(limits, log, log, slots, others, who, input, output, t);
    }
    if Admits(limits, log, others, who, input, output, t) {
      AdmitsMonotone(limits, log, log, others, slots, who, input, output, t);
    }
  }

  // ---- Every operation keeps the refinement ----

  lemma {:induction false} RefinesLater(
    limits: seq<QuotaLimit>, h: History, clock: Instant, events: seq<UsageEvent>, pacing: map<PacingKey, Instant>,
    active: map<nat, Scope>, now: Instant)
    requires Refines(limits, h, clock, events, pacing, active) && clock <= now
    ensures Refines(limits, h, now, events, pacing, active)
  {
    TrimmedLater(limits, Log(h), events, clock, now);
  }

  lemma {:induction false} RefinesPruned(
    limits: seq<QuotaLimit>, h: History, clock: Instant, events: seq<UsageEvent>, pacing: map<PacingKey, Instant>,
    active: map<nat, Scope>, now: Instant)
    requires Refines(limits, h, clock, events, pacing, active) && clock <= now
    ensures Refines(limits, h, now, KeptEvents(events, WidestWindow(limits), now),
                    KeptSlots(pacing, WidestWindow(limits), now), active)
  {
    RefinesLater(limits, h, clock, events, pacing, active, now);
    LogShape(limits, h);
    TrimmedKept(limits, Log(h), events, now);
    KeptSlotsSuffice(pacing, WidestWindow(limits), now);
  }

  lemma {:induction false} RefinesDispatch(
    limits: seq<QuotaLimit>, h: History, clock: Instant, events: seq<UsageEvent>, pacing: map<PacingKey, Instant>,
    active: map<nat, Scope>, e: UsageEvent, pacing': map<PacingKey, Instant>)
    requires Refines(limits, h, clock, events, pacing, active) && clock <= e.at && e.id !in Issued(h)
    requires Admits(limits, events, SlotsOf(pacing), e.who, e.input, e.output, e.at) && SlotFree(limits, active, e.who)
    requires forall k :: Slot(pacing', k) == Charged(Slot(pacing, k), e.at, BillOf(limits, k, e))
    ensures Refines(limits, Then(h, Dispatch(e)), e.at, events + [e], pacing', active[e.id := e.who])
    ensures forall k :: SameFrom(e.at, Slot(pacing', k), Pace(limits, Then(h, Dispatch(e)), k)) <==>
                        SameFrom(e.at, Slot(pacing, k), Pace(limits, h, k))
  {
    hide Admits, Tally, SlotFree, BillOf, Charged, NeverDearer;
    PruningIsInvisible(limits, h, clock, events, pacing, active, e.who, e.input, e.output, e.at);
    TrimmedAppend(limits, Log(h), events, clock, e);
    TrimmedLater(limits, Log(h) + [e], events + [e], clock, e.at);
    var next := Then(h, Dispatch(e));
    forall k: PacingKey
      ensures SameFrom(e.at, Slot(pacing', k), Pace(limits, next, k)) <==>
              SameFrom(e.at, Slot(pacing, k), Pace(limits, h, k))
      ensures Slot(pacing', k) <= Max(e.at, Pace(limits, next, k))
      ensures Trusted(limits, next, k) ==> SameFrom(e.at, Slot(pacing', k), Pace(limits, next, k))
    {
      assert Trusted(limits, h, k) ==> SameFrom(clock, Slot(pacing, k), Pace(limits, h, k));
      ChargedAlike(Slot(pacing, k), Pace(limits, h, k), e.at, BillOf(limits, k, e));
    }
  }

  lemma {:induction false} RefinesSettle(
    limits: seq<QuotaLimit>, h: History, clock: Instant, events: seq<UsageEvent>, pacing: map<PacingKey, Instant>,
    active: map<nat, Scope>, id: nat, input: Option<nat>, output: Option<nat>)
    requires Refines(limits, h, clock, events, pacing, active) && id in active
    ensures Refines(limits, Then(h, Settle(id, input, output)), clock, Reconcile(events, id, input, output), pacing,
                    active - {id})
  {
    LogShape(limits, h);
    TrimmedReconcile(limits, Log(h), events, clock, id, input, output);
  }

  lemma {:induction false} RefinesRelease(
    limits: seq<QuotaLimit>, h: History, clock: Instant, events: seq<UsageEvent>, pacing: map<PacingKey, Instant>,
    active: map<nat, Scope>, id: nat)
    requires Refines(limits, h, clock, events, pacing, active) && id in active
    ensures Refines(limits, Then(h, Release(id)), clock, events, pacing, active - {id})
  {
  }

  lemma {:induction false} EndingIsLegal(limits: seq<QuotaLimit>, h: History, step: Step)
    requires Legal(limits, h) && !step.Dispatch? && step.id in Active(h)
    ensures Legal(limits, Then(h, step)) && Time(Then(h, step)) == Time(h)
  {
  }

  lemma {:induction false} TrustedAfterAbort(limits: seq<QuotaLimit>, h: History, id: nat, k: PacingKey)
    requires Trusted(limits, Then(h, Undo(id)), k)
    ensures NeverDearer(limits, Then(h, Undo(id)), k)
    ensures Pace(limits, Then(h, Undo(id)), k) == Replay(limits, Remove(Log(h), id), k, 0)
  {
  }

  lemma {:induction false} RefinesUndo(
    limits: seq<QuotaLimit>, h: History, clock: Instant, events: seq<UsageEvent>, pacing: map<PacingKey, Instant>,
    active: map<nat, Scope>, id: nat, pacing': map<PacingKey, Instant>)
    requires Refines(limits, h, clock, events, pacing, active) && id in active
    requires forall i | 0 <= i < |limits| :: ValidLimit(limits[i])
    requires forall k :: Slot(pacing', k) == Replay(limits, Remove(events, id), k, 0)
    ensures Refines(limits, Then(h, Undo(id)), clock, Remove(events, id), pacing', active - {id})
  {
    hide Legal, Remove, Replay, Pace, Trusted, NeverDearer;
    var next := Then(h, Undo(id));
    EndingIsLegal(limits, h, next.step);
    TrimmedRemove(limits, Log(h), events, clock, id);
    forall k ensures Slot(pacing', k) <= Max(clock, Pace(limits, next, k)) {
      PaceAfterAbort(limits, h, clock, events, id, k);
    }
    forall k | Trusted(limits, next, k) ensures SameFrom(clock, Slot(pacing', k), Pace(limits, next, k)) {
      TrustedAfterAbort(limits, h, id, k);
      LogStaysSpaced(limits, next, k);
      BillsWithinWindow(limits, next, k);
      TrimmedReplay(limits, Log(next), Remove(events, id), clock, k, 0);
    }
  }
}
