/** The live-request scheduler: one lock-protected state driven by waiters, completions, aborts, dropped permits and
    cancelled waiters (src/scheduling.rs). Each method that takes `now` is one section under the lock; the others are
    what a task can do without it. `Valid` ties the fields to a legal history, so the lemmas about histories hold of
    every state the methods reach. */
module Scheduling {
  import opened Basics
  import opened Policy
  import opened Ledger
  import opened Pacing
  import opened Admission
  import opened History
  import opened Safety
  import opened Pruning
  import opened Plain
  import opened Priority
  import opened Waiters
  import opened Queue

  class Scheduler {
    const policy: SchedulingPolicy
    const classify: ScheduleRequest -> Complexity

    // The state under the lock.
    var events: seq<UsageEvent>
    var pending: map<nat, Pending>
    var active: map<nat, Scope>
    var pendingBytes: nat
    var pacing: map<PacingKey, Instant>
    var sessions: map<string, SessionState>
    var nextId: nat
    var coalesceUntil: Option<Instant>

    // What tasks hold outside the lock.
    var tasks: Tasks

    // What happened so far.
    ghost var clock: Instant
    ghost var history: History
    ghost var exits: map<nat, Exit>

    function Turn(): Rules {
      Rules(policy, classify)
    }

    // ---- Invariant ----

    ghost predicate LedgerOk()
      reads this`history, this`clock, this`events, this`pacing, this`active
    {
      ValidPolicy(policy) && Refines(policy.limits, history, clock, events, pacing, active)
    }

    ghost predicate QueueOk()
      reads this`pending, this`pendingBytes, this`nextId
    {
      && pendingBytes == TotalBytes(pending, nextId) <= policy.maxPendingBytes
      && |pending| <= policy.maxPending
      && (pending != map[] ==> policy.enabled)
    }

    ghost predicate IdsOk()
      reads this`pending, this`exits, this`nextId, this`history
    {
      IdsAgree(pending.Keys, exits, nextId, Issued(history))
    }

    ghost predicate Valid()
      reads this`history, this`clock, this`events, this`pacing, this`active
      reads this`pending, this`pendingBytes, this`nextId, this`exits, this`tasks
    {
      LedgerOk() && QueueOk() && IdsOk() && TasksOk(tasks, pending.Keys, active.Keys, exits.Keys)
    }

    constructor (policy: SchedulingPolicy, classify: ScheduleRequest -> Complexity)
      requires Validate(policy).None?
      ensures Valid() && this.policy == policy && this.classify == classify
      ensures history == Start && events == [] && pending == map[] && active == map[] && nextId == 0
    {
      this.policy, this.classify := policy, classify;
      events, pending, active, pendingBytes, pacing := [], map[], map[], 0, map[];
      sessions, nextId, coalesceUntil, tasks := map[], 0, None, NO_TASKS;
      clock, history, exits := 0, Start, map[];
    }

    // ---- Reading the state ----

    ghost predicate WaiterReady(id: nat, now: Instant)
      requires id in pending
      reads this`events, this`pacing, this`active, this`pending
    {
      var p := pending[id];
      Dispatchable(policy.limits, events, pacing, active, p.request.who, p.input, p.output, now)
    }

    // The waiter asks for more than some matching rule can ever give.
    ghost predicate WaiterOversized(id: nat)
      requires id in pending
      reads this`pending
    {
      Oversized(policy.limits, pending[id].request.who, pending[id].input, pending[id].output)
    }

    function ScoreOf(p: Pending, now: Instant): int
      reads this`sessions
    {
      PriorityScore(policy, classify(p.request), p.request, SessionOf(sessions, p.request), p.enqueuedAt, now)
    }

    function CandidateOf(id: nat, now: Instant): Candidate
      requires id in pending
      reads this`sessions, this`pending
    {
      Candidate(id, ScoreOf(pending[id], now), pending[id].enqueuedAt)
    }

    predicate QueueOpen(now: Instant)
      reads this`coalesceUntil
    {
      coalesceUntil.Some? ==> now >= coalesceUntil.value
    }

    function BatchReason(request: ScheduleRequest, enqueuedAt: Instant, now: Instant): (r: Option<Reason>)
      reads this`sessions
      ensures r.Some? ==>
                && request.allowBatchFallback
                && PriorityScore(policy, classify(request), request, SessionOf(sessions, request), enqueuedAt, now) <
                   policy.highPriorityThreshold
    {
      BatchRecommendation(policy, classify(request), request, SessionOf(sessions, request), enqueuedAt, now)
    }

    function CapacityOutcome(
      request: ScheduleRequest, reason: Reason, retryAfter: Option<Duration>, now: Instant,
      enqueuedAt: Instant): (r: Outcome)
      reads this`sessions
      ensures r.RecommendBatch? <==> BatchReason(request, enqueuedAt, now).Some?
      ensures r.RecommendBatch? ==> Some(r.reason) == BatchReason(request, enqueuedAt, now)
      ensures !r.RecommendBatch? ==> r.RetryExhausted? && r.reason == reason
      ensures r.retryAfter == retryAfter
    {
      var batch := BatchReason(request, enqueuedAt, now);
      if batch.Some? then RecommendBatch(batch.value, retryAfter) else RetryExhausted(reason, retryAfter)
    }

    // ---- Small edits of the locked state ----

    method RemovePending(id: nat, ghost exit: Exit) returns (removed: Option<Pending>)
      requires QueueOk() && IdsOk() && !exit.Served?
      modifies this`pending, this`pendingBytes, this`exits
      ensures QueueOk() && IdsOk()
      ensures removed == if id in old(pending) then Some(old(pending)[id]) else None
      ensures pending == old(pending) - {id} && pending.Keys == old(pending).Keys - {id}
      ensures exits == if id in old(pending) then old(exits)[id := exit] else old(exits)
      ensures exits.Keys == if id in old(pending) then old(exits).Keys + {id} else old(exits).Keys
      ensures |pending| == |old(pending)| - (if id in old(pending) then 1 else 0)
      ensures id in old(pending) ==> id !in old(exits)
    {
      hide IdsAgree, TotalBytes, Issued;
      MinusKeys(pending, id);
      if id !in pending {
        return None;
      }
      removed := Some(pending[id]);
      BytesWithout(pending, id, nextId);
      ExitKeeps(pending.Keys, exits, nextId, Issued(history), id, exit);
      KnownId(id);
      pendingBytes := Max(pendingBytes - pending[id].bytes, 0);
      pending := pending - {id};
      exits := exits[id := exit];
    }

    lemma {:induction false} KnownId(id: nat)
      requires IdsOk() && id in pending
      ensures id < nextId
    {
    }

    method UpdatePacing(who: Scope, input: nat, output: nat, now: Instant)
      modifies this`pacing
      ensures Moved(policy.limits, old(pacing), pacing, who, input, output, now)
      ensures forall k ::
                Slot(pacing, k) == Charged(Slot(old(pacing), k), now, Bill(policy.limits, k, who, input, output))
    {
      ghost var before := pacing;
      for i := 0 to |policy.limits|
        invariant forall k :: Slot(pacing, k) ==
                    if k.rule < i then Charged(Slot(before, k), now, Bill(policy.limits, k, who, input, output))
                    else Slot(before, k)
      {
        var limit := policy.limits[i];
        if RuleMatches(limit, who) {
          ChargeMetric(limit, i, who, Requests, input, output, now);
          ChargeMetric(limit, i, who, InputTokens, input, output, now);
          ChargeMetric(limit, i, who, OutputTokens, input, output, now);
          ChargeMetric(limit, i, who, TotalTokens, input, output, now);
        }
      }
      BillsMove(policy.limits, before, pacing, who, input, output, now);
    }

    method ChargeMetric(
      limit: QuotaLimit, rule: nat, who: Scope, metric: Metric, input: nat, output: nat, now: Instant)
      modifies this`pacing
      ensures forall k :: Slot(pacing, k) ==
                if k == KeyOf(limit, rule, who, metric) then
                  Charged(Slot(old(pacing), k), now, CostOf(limit, metric, input, output))
                else Slot(old(pacing), k)
    {
      var cost := CostOf(limit, metric, input, output);
      if cost.Some? {
        var k := KeyOf(limit, rule, who, metric);
        var start := Max(if k in pacing then pacing[k] else now, now);
        pacing := pacing[k := start + cost.value];
      }
    }

    method RebuildPacing()
      modifies this`pacing
      ensures forall k :: Slot(pacing, k) == Replay(policy.limits, events, k, 0)
    {
      pacing := map[];
      for i := 0 to |events|
        invariant forall k :: Slot(pacing, k) == Replay(policy.limits, events[..i], k, 0)
      {
        var event := events[i];
        UpdatePacing(event.who, event.input, event.output, event.at);
        forall k ensures Slot(pacing, k) == Replay(policy.limits, events[..i + 1], k, 0) {
          assert events[..i + 1] == events[..i] + [event];
          ReplayAppend(policy.limits, events[..i], event, k, 0);
        }
      }
      assert events[..|events|] == events;
    }

    method PopExpired(now: Instant)
      modifies this`events
      ensures events == KeptEvents(old(events), WidestWindow(policy.limits), now)
    {
      var widest := WidestWindow(policy.limits);
      while events != [] && Elapsed(now, events[0].at) >= widest
        invariant KeptEvents(events, widest, now) == KeptEvents(old(events), widest, now)
        decreases |events|
      {
        events := events[1..];
      }
    }

    // Forget events and slots too old to matter, and sessions idle for long.
    method PruneEvents(now: Instant)
      requires LedgerOk() && clock <= now
      modifies this`events, this`pacing, this`sessions, this`clock
      ensures LedgerOk() && clock == now
      ensures events == KeptEvents(old(events), WidestWindow(policy.limits), now)
      ensures pacing == KeptSlots(old(pacing), WidestWindow(policy.limits), now)
      ensures sessions == KeptSessions(old(sessions), policy, now)
    {
      PopExpired(now);
      ForgetSlots(now);
      sessions := KeptSessions(sessions, policy, now);
      RefinesPruned(policy.limits, history, clock, old(events), old(pacing), active, now);
      clock := now;
    }

    method ForgetSlots(now: Instant)
      modifies this`pacing
      ensures pacing == KeptSlots(old(pacing), WidestWindow(policy.limits), now)
    {
      pacing := KeptSlots(pacing, WidestWindow(policy.limits), now);
    }

    // Time passes under the lock without anything being forgotten.
    ghost method Tick(now: Instant)
      requires LedgerOk() && clock <= now
      modifies this`clock
      ensures LedgerOk() && clock == now
    {
      RefinesLater(policy.limits, history, clock, events, pacing, active, now);
      clock := now;
    }

    // ---- What happens outside the lock ----

    // Waiters can be cancelled at any moment.
    method LoseReceivers()
      requires Valid()
      modifies this`tasks
      ensures Valid() && tasks.held == old(tasks).held
      ensures tasks.listening <= old(tasks).listening && tasks == Later(old(tasks), tasks.listening)
    {
      hide LedgerOk, QueueOk, IdsOk, TasksOk;
      var gone :| gone <= tasks.listening;
      LoseKeeps(tasks, pending.Keys, active.Keys, exits.Keys, gone);
      assert tasks.listening - (tasks.listening - gone) == gone;
      tasks := tasks.Lose(gone, false);
    }

    // ---- Dispatching ----

    // `best` is a waiter in `seen` that is ready now, and beats every other one there that still listens.
    ghost predicate BestOf(seen: set<nat>, listeners: set<nat>, best: Option<Candidate>, now: Instant)
      reads this`events, this`pacing, this`active, this`pending, this`sessions
    {
      && (best.Some? ==>
            && best.value.id in pending && best.value.id in seen
            && best.value == CandidateOf(best.value.id, now) && WaiterReady(best.value.id, now))
      && forall id | id in pending && id in seen && id in listeners && WaiterReady(id, now) ::
           best.Some? && (id == best.value.id || Beats(best.value, CandidateOf(id, now)))
    }

    // `refused` are the waiters in `seen` that are gone or can never be dispatched.
    ghost predicate RefusedOf(seen: set<nat>, listeners: set<nat>, refused: set<nat>)
      reads this`pending
    {
      && refused <= seen
      && Refusable(policy.limits, pending, listeners, refused)
      && (forall id | id in pending && id in seen - refused && id in listeners :: !WaiterOversized(id))
    }

    // Nobody in `seen` who still listens can be dispatched before `due` unless the state changes.
    ghost predicate Dormant(seen: set<nat>, listeners: set<nat>, due: Option<Instant>, now: Instant)
      reads this`events, this`pacing, this`active, this`pending, this`coalesceUntil
    {
      AllDormant(policy.limits, events, pacing, active, pending, coalesceUntil, seen, listeners, due, now)
    }

    lemma {:induction false} FewerListeners(
      seen: set<nat>, listeners: set<nat>, fewer: set<nat>, best: Option<Candidate>, nextDue: Option<Instant>,
      refused: set<nat>, now: Instant)
      requires fewer <= listeners
      ensures Dormant(seen, listeners, nextDue, now) ==> Dormant(seen, fewer, nextDue, now)
      ensures BestOf(seen, listeners, best, now) ==> BestOf(seen, fewer, best, now)
      ensures RefusedOf(seen, listeners, refused) ==> RefusedOf(seen, fewer, refused)
    {
    }

    lemma {:induction false} NothingSeen(now: Instant)
      requires Valid()
      ensures ValidPolicy(policy) && (pending != map[] ==> policy.enabled)
      ensures forall due :: Dormant({}, tasks.listening, due, now)
      ensures BestOf({}, tasks.listening, None, now) && RefusedOf({}, tasks.listening, {})
      ensures tasks == Later(tasks, tasks.listening)
    {
      LaterRefl(tasks);
    }

    // Look at every waiter, in whatever order the hash map yields them: collect those to refuse, the earliest later
    // instant at which one may be dispatched, and the best of those ready now.
    method ScanPending(now: Instant) returns (best: Option<Candidate>, nextDue: Option<Instant>, refused: set<nat>)
      requires Valid()
      modifies this`tasks
      ensures Valid() && tasks.held == old(tasks).held
      ensures tasks.listening <= old(tasks).listening && tasks == Later(old(tasks), tasks.listening)
      ensures QueueOpen(now) ==> BestOf(pending.Keys, tasks.listening, best, now)
      ensures best.Some? ==> QueueOpen(now) && best.value.id !in refused
      ensures RefusedOf(pending.Keys, tasks.listening, refused)
      ensures nextDue.Some? ==> nextDue.value > now
      ensures best.None? ==> Dormant(pending.Keys, tasks.listening, nextDue, now)
    {
      hide Valid, ValidPolicy, BestOf, RefusedOf, Dormant, Later;
      NothingSeen(now);
      var queueReady := QueueOpen(now);
      best, refused := None, {};
      nextDue := if coalesceUntil.Some? && coalesceUntil.value > now then coalesceUntil else None;
      var seen: set<nat> := {};
      while seen != pending.Keys
        invariant Valid() && tasks.held == old(tasks).held
        invariant tasks.listening <= old(tasks).listening && tasks == Later(old(tasks), tasks.listening)
        invariant seen <= pending.Keys
        invariant nextDue.Some? ==> nextDue.value > now
        invariant !queueReady ==> nextDue.Some? && nextDue.value <= coalesceUntil.value
        invariant best.None? ==> Dormant(seen, tasks.listening, nextDue, now)
        invariant queueReady ==> BestOf(seen, tasks.listening, best, now)
        invariant best.Some? ==> queueReady && best.value.id !in refused
        invariant RefusedOf(seen, tasks.listening, refused)
        decreases pending.Keys - seen
      {
        var id :| id in pending && id !in seen;
        ghost var before := tasks;
        LoseReceivers();
        LaterTrans(old(tasks), before.listening, tasks.listening);
        FewerListeners(seen, before.listening, tasks.listening, best, nextDue, refused, now);
        best, nextDue, refused := Consider(id, now, queueReady, best, nextDue, refused, seen);
        seen := seen + {id};
      }
    }

    method Consider(
      id: nat, now: Instant, queueReady: bool, best: Option<Candidate>, nextDue: Option<Instant>, refused: set<nat>,
      ghost seen: set<nat>)
      returns (best': Option<Candidate>, nextDue': Option<Instant>, refused': set<nat>)
      requires ValidPolicy(policy) && policy.enabled && id in pending && id !in seen
      requires queueReady ==> BestOf(seen, tasks.listening, best, now)
      requires RefusedOf(seen, tasks.listening, refused)
      requires best.Some? ==> queueReady && best.value.id !in refused
      requires nextDue.Some? ==> nextDue.value > now
      requires queueReady == QueueOpen(now)
      requires !queueReady ==> nextDue.Some? && nextDue.value <= coalesceUntil.value
      requires best.None? ==> Dormant(seen, tasks.listening, nextDue, now)
      ensures !queueReady ==> nextDue'.Some? && nextDue'.value <= coalesceUntil.value
      ensures best'.None? ==> Dormant(seen + {id}, tasks.listening, nextDue', now)
      ensures queueReady ==> BestOf(seen + {id}, tasks.listening, best', now)
      ensures RefusedOf(seen + {id}, tasks.listening, refused')
      ensures best'.Some? ==> queueReady && best'.value.id !in refused'
      ensures nextDue'.Some? ==> nextDue'.value > now
    {
      hide Dispatchable, Oversized, ScoreOf;
      best', nextDue', refused' := best, nextDue, refused;
      if id !in tasks.listening {
        refused' := refused + {id};
      } else {
        var fit := ReadinessOf(id, now);
        assert forall t: Instant :: WaiterReady(id, t) <==>
                 Dispatchable(policy.limits, events, pacing, active, pending[id].request.who, pending[id].input,
                              pending[id].output, t);
        if fit.impossible {
          refused' := refused + {id};
        } else if fit.at.Some? && fit.at.value > now {
          nextDue' := Some(if nextDue.Some? then Min(nextDue.value, fit.at.value) else fit.at.value);
        } else if fit.at.Some? && queueReady {
          var candidate := CandidateOf(id, now);
          if best.None? || Beats(candidate, best.value) {
            best' := Some(candidate);
          }
        }
      }
    }

    // Readiness of one waiter: ready now, ready later, blocked, or impossible.
    method ReadinessOf(id: nat, now: Instant) returns (fit: Fit)
      requires ValidPolicy(policy) && policy.enabled && id in pending
      ensures fit.impossible <==> WaiterOversized(id)
      ensures fit.at == Some(now) <==> WaiterReady(id, now)
      ensures fit.at.Some? ==> fit.at.value >= now && !fit.impossible
      ensures forall t: Instant | t >= now && WaiterReady(id, t) :: fit.at.Some? && t >= fit.at.value
    {
      var p := pending[id];
      fit := Readiness(policy, events, pacing, active, p.request.who, p.input, p.output, now);
      forall t: Instant | t >= now && WaiterReady(id, t) ensures !fit.impossible {
        AdmittedIsNotOversized(policy.limits, events, SlotsOf(pacing), p.request.who, p.input, p.output, t);
      }
    }

    function RefusalOf(p: Pending, now: Instant): (r: Outcome)
      reads this`sessions
      ensures !r.Dispatched?
    {
      CapacityOutcome(p.request, RequestExceedsQuota, None, now, p.enqueuedAt)
    }

    // What a waiter that asks for too much is told: to use batch, if its own wait makes that advisable, or that it can
    // never be served.
    lemma {:induction false} RefusalMeans(p: Pending, now: Instant)
      ensures var batch := BatchReason(p.request, p.enqueuedAt, now);
              RefusalOf(p, now) ==
              if batch.Some? then RecommendBatch(batch.value, None) else RetryExhausted(RequestExceedsQuota, None)
    {
    }

    // Take an entry nobody listens to off the queue.
    method Withdraw(id: nat)
      requires Valid() && id in pending && id !in tasks.listening
      modifies this`pending, this`pendingBytes, this`exits
      ensures Valid()
      ensures pending == old(pending) - {id} && |pending| < |old(pending)| && exits == old(exits)[id := Cancelled]
      ensures id !in old(exits)
    {
      hide LedgerOk, QueueOk, IdsOk, TasksOk;
      ghost var queue, known := pending.Keys, exits.Keys;
      var removed := RemovePending(id, Cancelled);
      ClosedKeeps(tasks, queue, active.Keys, known, id);
    }

    // Take an entry off the queue and tell its waiter why.
    method Reject(id: nat, outcome: Outcome)
      requires Valid() && id in pending && id in tasks.listening && !outcome.Dispatched?
      modifies this`pending, this`pendingBytes, this`exits, this`tasks
      ensures Valid()
      ensures pending == old(pending) - {id} && |pending| < |old(pending)| && exits == old(exits)[id := Rejected]
      ensures id !in old(exits)
      ensures tasks == old(tasks).Send(id, outcome)
    {
      hide LedgerOk, QueueOk, IdsOk, TasksOk;
      ghost var queue, known := pending.Keys, exits.Keys;
      SendKeeps(tasks, queue, active.Keys, known, id, outcome);
      tasks := tasks.Send(id, outcome);
      var removed := RemovePending(id, Rejected);
    }

    // Take one refused waiter off the queue and tell it so, unless it stopped listening.
    method RefuseOne(id: nat, outcome: Outcome)
      requires Valid() && id in pending && !outcome.Dispatched?
      modifies this`pending, this`pendingBytes, this`exits, this`tasks
      ensures Valid() && tasks.held == old(tasks).held
      ensures pending == old(pending) - {id} && |pending| < |old(pending)|
      ensures tasks.listening <= old(tasks).listening
      ensures tasks == var t := Later(old(tasks), tasks.listening);
                       if id in tasks.listening then t.Send(id, outcome) else t
      ensures exits == old(exits)[id := if id in tasks.listening then Rejected else Cancelled] && id !in old(exits)
    {
      hide Valid;
      LoseReceivers();
      if id in tasks.listening {
        Reject(id, outcome);
      } else {
        Withdraw(id);
      }
    }

    ghost function RefusalsOf(refused: set<nat>, now: Instant): (r: map<nat, Outcome>)
      reads this`pending, this`sessions
      ensures forall id | id in refused && id in pending :: id in r && r[id] == RefusalOf(pending[id], now)
    {
      map id | id in refused && id in pending :: RefusalOf(pending[id], now)
    }

    method RefuseAll(refused: set<nat>, now: Instant)
      requires Valid() && refused <= pending.Keys && Refusable(policy.limits, pending, tasks.listening, refused)
      modifies this`pending, this`pendingBytes, this`exits, this`tasks
      ensures Valid() && tasks.held == old(tasks).held
      ensures Drained(Turn(), old(pending), pending, old(exits), exits, tasks.listening)
      ensures pending == old(pending) - refused && |pending| <= |old(pending)|
      ensures tasks.listening <= old(tasks).listening
      ensures Told(old(tasks), tasks, refused, old(RefusalsOf(refused, now)))
    {
      ghost var news := RefusalsOf(refused, now);
      hide Valid, RefusalOf, RefusalsOf, Told, Later, Drained, Refusable;
      NothingTold(news);
      var done: set<nat> := {};
      while done != refused
        invariant Valid() && tasks.held == old(tasks).held && done <= refused
        invariant pending == old(pending) - done && |pending| <= |old(pending)|
        invariant tasks.listening <= old(tasks).listening
        invariant Told(old(tasks), tasks, done, news)
        invariant Drained(Turn(), old(pending), pending, old(exits), exits, tasks.listening)
        decreases refused - done
      {
        var id :| id in refused && id !in done;
        ghost var before, queue, known := tasks, pending, exits;
        var outcome := RefusalOf(pending[id], now);
        assert outcome == news[id];
        RefuseOne(id, outcome);
        MinusNext(old(pending), done, id);
        ToldNext(old(tasks), before, tasks, done, news, id);
        RefusedNext(Turn(), old(pending), queue, old(tasks).listening, refused, old(exits), known,
                    before.listening, tasks.listening, id);
        done := done + {id};
      }
    }

    lemma {:induction false} NothingTold(news: map<nat, Outcome>)
      requires Valid()
      ensures Told(tasks, tasks, {}, news)
      ensures Drained(Turn(), pending, pending, exits, exits, tasks.listening)
    {
      DrainedNothing(Turn(), pending, exits, tasks.listening);
    }

    function EventFor(id: nat, p: Pending, now: Instant): UsageEvent {
      UsageEvent(id, now, p.request.who, p.input, p.output)
    }

    function PermitFor(id: nat, p: Pending, now: Instant): Permit {
      Permit(Some(id), p.request.who, p.request.sessionId, p.request.interaction, p.input, p.output,
             Elapsed(now, p.enqueuedAt))
    }

    // The charge of a dispatch whose permit was delivered.
    method ChargeDispatch(e: UsageEvent, ghost eventsBefore: seq<UsageEvent>, ghost activeBefore: map<nat, Scope>)
      requires Refines(policy.limits, history, clock, eventsBefore, pacing, activeBefore)
      requires events == eventsBefore + [e] && active == activeBefore[e.id := e.who]
      requires e.at == clock && e.id !in Issued(history)
      requires Dispatchable(policy.limits, eventsBefore, pacing, activeBefore, e.who, e.input, e.output, e.at)
      modifies this`pacing, this`history
      ensures Refines(policy.limits, history, clock, events, pacing, active)
      ensures history == Then(old(history), Dispatch(e))
      ensures forall k :: Slot(pacing, k) == Charged(Slot(old(pacing), k), e.at, BillOf(policy.limits, k, e))
    {
      ghost var slots := pacing;
      UpdatePacing(e.who, e.input, e.output, e.at);
      RefinesDispatch(policy.limits, history, clock, eventsBefore, slots, activeBefore, e, pacing);
      history := Then(history, Dispatch(e));
    }

    // An event with this id was never recorded, so retracting it restores the ledger.
    lemma {:induction false} RetractionRestores(e: UsageEvent)
      requires LedgerOk() && e.id !in Issued(history)
      ensures Remove(events + [e], e.id) == events && active[e.id := e.who] - {e.id} == active
    {
      LogShape(policy.limits, history);
      TrimmedMembers(policy.limits, Log(history), events, clock);
      RemoveAppend(events, e, e.id);
      RemoveAbsent(events, e.id);
    }

    // What a delivered permit adds to the ledger.
    ghost predicate Recorded(
      e: UsageEvent, h: History, before: seq<UsageEvent>, inFlight: map<nat, Scope>, slots: map<PacingKey, Instant>)
      reads this`history, this`events, this`active, this`pacing
    {
      && history == Then(h, Dispatch(e)) && events == before + [e] && active == inFlight[e.id := e.who]
      && forall k :: Slot(pacing, k) == Charged(Slot(slots, k), e.at, BillOf(policy.limits, k, e))
    }

    // Reserve quota, then deliver the permit; retract the reservation if the receiver is gone by then.
    method Deliver(id: nat, p: Pending, now: Instant)
      requires LedgerOk() && clock == now && id !in Issued(history)
      requires Dispatchable(policy.limits, events, pacing, active, p.request.who, p.input, p.output, now)
      modifies this`tasks, this`events, this`active, this`pacing, this`history
      ensures LedgerOk()
      ensures id !in tasks.listening ==>
                && history == old(history) && events == old(events) && active == old(active) && pacing == old(pacing)
                && tasks == old(tasks).(releasing := old(tasks).releasing + {id})
      ensures id in tasks.listening ==>
                && Recorded(EventFor(id, p, now), old(history), old(events), old(active), old(pacing))
                && tasks == old(tasks).Send(id, Dispatched(PermitFor(id, p, now)))
    {
      var e := EventFor(id, p, now);
      RetractionRestores(e);
      events := events + [e];
      active := active[id := p.request.who];
      if id in tasks.listening {
        tasks := tasks.Send(id, Dispatched(PermitFor(id, p, now)));
        ChargeDispatch(e, old(events), old(active));
      } else {
        // The undelivered permit is dropped with its lease armed: a release task is spawned for an id not in flight.
        tasks := tasks.(releasing := tasks.releasing + {id});
        events := Remove(events, id);
        active := active - {id};
      }
    }

    // Dispatch the chosen waiter, unless its receiver goes before the permit is delivered.
    method DispatchBest(id: nat, now: Instant) returns (due: Option<Instant>)
      requires Valid() && clock == now && id in pending && WaiterReady(id, now)
      requires NobodyAhead(Turn(), pending, tasks.listening, pending[id], id)
      modifies this`pending, this`pendingBytes, this`exits, this`coalesceUntil
      modifies this`tasks, this`events, this`active, this`pacing, this`history
      ensures Valid() && tasks.held == old(tasks).held
      ensures pending == old(pending) - {id} && |pending| < |old(pending)|
      ensures due == Some(now) || (due.None? && pending == map[] && id !in tasks.listening)
      ensures tasks.listening <= old(tasks).listening
      ensures coalesceUntil == old(coalesceUntil) || (coalesceUntil.None? && pending == map[])
      ensures due.None? ==> coalesceUntil.None?
      ensures Drained(Turn(), old(pending), pending, old(exits), exits, tasks.listening)
      ensures id !in tasks.listening ==>
                && history == old(history) && events == old(events) && active == old(active) && pacing == old(pacing)
                && exits == old(exits)[id := Cancelled]
                && tasks.mailbox == Later(old(tasks), tasks.listening).mailbox
      ensures id in tasks.listening ==>
                && Recorded(EventFor(id, old(pending)[id], now), old(history), old(events), old(active), old(pacing))
                && exits == old(exits)[id := Served]
                && tasks ==
                     Later(old(tasks), tasks.listening).Send(id, Dispatched(PermitFor(id, old(pending)[id], now)))
    {
      hide Valid, Dispatchable, Recorded, Drained, Ahead;
      LoseReceivers();
      ghost var listeners := tasks.listening;
      if id !in tasks.listening {
        Withdraw(id);
        DrainedOne(Turn(), old(pending), old(exits), tasks.listening, id, Cancelled);
        if pending == map[] {
          ForgetCoalescing();
          return None;
        }
        return Some(now);
      }
      LoseReceivers();
      LaterTrans(old(tasks), listeners, tasks.listening);
      Serve(id, now);
      ghost var exit := if id in tasks.listening then Served else Cancelled;
      DrainedOne(Turn(), old(pending), old(exits), tasks.listening, id, exit);
      return Some(now);
    }

    method ForgetCoalescing()
      modifies this`coalesceUntil
      ensures coalesceUntil.None?
    {
      coalesceUntil := None;
    }

    // Take a waiter off the queue and send it a permit.
    method Serve(id: nat, now: Instant)
      requires Valid() && clock == now && id in pending && WaiterReady(id, now)
      modifies this`pending, this`pendingBytes, this`exits
      modifies this`tasks, this`events, this`active, this`pacing, this`history
      ensures Valid()
      ensures pending == old(pending) - {id} && |pending| < |old(pending)|
      ensures tasks.listening == old(tasks).listening && id !in old(exits)
      ensures id !in tasks.listening ==>
                && history == old(history) && events == old(events) && active == old(active) && pacing == old(pacing)
                && exits == old(exits)[id := Cancelled]
                && tasks == old(tasks).(releasing := old(tasks).releasing + {id})
      ensures id in tasks.listening ==>
                && Recorded(EventFor(id, old(pending)[id], now), old(history), old(events), old(active), old(pacing))
                && exits == old(exits)[id := Served]
                && tasks == old(tasks).Send(id, Dispatched(PermitFor(id, old(pending)[id], now)))
    {
      hide LedgerOk, QueueOk, IdsOk, TasksOk, Dispatchable, Recorded, EventFor, PermitFor;
      ghost var queue, known := pending.Keys, exits.Keys;
      var p := pending[id];
      var removed := RemovePending(id, Cancelled);
      assert exits.Keys == known + {id};
      NotIssued(id);
      PutTwice(old(exits), id, Cancelled, Served);
      Hand(id, p, now, queue, known);
    }

    // Deliver the permit of an entry just taken off the queue, which leaves every id accounted for.
    method Hand(id: nat, p: Pending, now: Instant, ghost queue: set<nat>, ghost known: set<nat>)
      requires LedgerOk() && IdsOk() && clock == now && id !in Issued(history)
      requires Dispatchable(policy.limits, events, pacing, active, p.request.who, p.input, p.output, now)
      requires TasksOk(tasks, queue, active.Keys, known) && id in queue
      requires pending.Keys == queue - {id} && exits.Keys == known + {id}
      modifies this`tasks, this`events, this`active, this`pacing, this`history, this`exits
      ensures LedgerOk() && IdsOk() && TasksOk(tasks, pending.Keys, active.Keys, exits.Keys)
      ensures tasks.listening == old(tasks).listening
      ensures id !in tasks.listening ==>
                && history == old(history) && events == old(events) && active == old(active) && pacing == old(pacing)
                && exits == old(exits)
                && tasks == old(tasks).(releasing := old(tasks).releasing + {id})
      ensures id in tasks.listening ==>
                && Recorded(EventFor(id, p, now), old(history), old(events), old(active), old(pacing))
                && exits == old(exits)[id := Served]
                && tasks == old(tasks).Send(id, Dispatched(PermitFor(id, p, now)))
    {
      hide LedgerOk, IdsAgree, TasksOk, Dispatchable, Recorded;
      Deliver(id, p, now);
      if id in tasks.listening {
        SendKeeps(old(tasks), queue, old(active).Keys, known, id, Dispatched(PermitFor(id, p, now)));
        RecordedIssues(EventFor(id, p, now), old(history), old(events), old(active), old(pacing));
        ServedKeeps(pending.Keys, exits, nextId, Issued(old(history)), id);
        exits := exits[id := Served];
        assert exits.Keys == known + {id};
      } else {
        ClosedKeeps(old(tasks), queue, active.Keys, known, id);
      }
    }

    lemma {:induction false} RecordedDispatch(
      e: UsageEvent, h: History, before: seq<UsageEvent>, inFlight: map<nat, Scope>, slots: map<PacingKey, Instant>)
      requires Recorded(e, h, before, inFlight, slots)
      ensures history == Then(h, Dispatch(e))
    {
    }

    lemma {:induction false} RecordedIssues(
      e: UsageEvent, h: History, before: seq<UsageEvent>, inFlight: map<nat, Scope>, slots: map<PacingKey, Instant>)
      requires Recorded(e, h, before, inFlight, slots)
      ensures Issued(history) == Issued(h) + {e.id} && active.Keys == inFlight.Keys + {e.id}
    {
    }

    lemma {:induction false} NotIssued(id: nat)
      requires IdsOk() && id in exits && !exits[id].Served?
      ensures id !in Issued(history)
    {
    }

    // `id` is ready now and beats every other ready waiter among `listeners`.
    ghost predicate Foremost(id: nat, listeners: set<nat>, now: Instant)
      reads this`events, this`pacing, this`active, this`pending, this`sessions
    {
      && id in pending && WaiterReady(id, now)
      && forall other | other in pending && other in listeners && other != id && WaiterReady(other, now) ::
           Beats(CandidateOf(id, now), CandidateOf(other, now))
    }

    ghost predicate ReadyIn(queue: map<nat, Pending>, id: nat, now: Instant)
      reads this`events, this`pacing, this`active
    {
      && id in queue
      && var p := queue[id];
         Dispatchable(policy.limits, events, pacing, active, p.request.who, p.input, p.output, now)
    }

    // If a waiter was served since, its mail is a permit for exactly what was charged.
    ghost predicate Delivered(before: History)
      reads this`history, this`tasks
    {
      history == before ||
      (history.Then? && history.step.Dispatch? && history.step.event.id in tasks.mailbox
       && Carries(tasks.mailbox[history.step.event.id], history.step.event))
    }

    lemma {:induction false} NothingDelivered()
      ensures Delivered(history)
    {
    }

    // The queue is open and `next` adds the dispatch of its foremost waiter.
    ghost predicate Serves(next: History, listeners: set<nat>, now: Instant)
      reads this`events, this`pacing, this`active, this`pending, this`sessions, this`history, this`coalesceUntil
    {
      && (coalesceUntil.Some? ==> coalesceUntil.value <= now)
      && next.Then? && next.past == history && next.step.Dispatch?
      && Foremost(next.step.event.id, listeners, now)
      && next.step.event == EventFor(next.step.event.id, pending[next.step.event.id], now)
    }

    /** First come, first served: a waiter is never foremost while one of its class with the same tokens that arrived
        before it still listens. */
    lemma {:induction false} FirstComeFirstServed(a: nat, b: nat, listeners: set<nat>, now: Instant)
      requires a in pending && b in pending && a in listeners && Ahead(Turn(), pending[a], a, pending[b], b)
      ensures !Foremost(b, listeners, now)
    {
      var p, q := pending[a], pending[b];
      EarlierBeatsLater(policy, sessions, p.request, classify(p.request), a, p.enqueuedAt,
                        q.request, classify(q.request), b, q.enqueuedAt, now);
      assert WaiterReady(a, now) == WaiterReady(b, now);
    }

    /** A waiter is never foremost while another ready one that listens has a higher score. */
    lemma {:induction false} HigherScoreFirst(a: nat, b: nat, listeners: set<nat>, now: Instant)
      requires a in pending && b in pending && a in listeners && WaiterReady(a, now)
      requires var p, q := pending[a], pending[b];
               PriorityScore(policy, classify(p.request), p.request, SessionOf(sessions, p.request), p.enqueuedAt,
                             now) >
               PriorityScore(policy, classify(q.request), q.request, SessionOf(sessions, q.request), q.enqueuedAt, now)
      ensures !Foremost(b, listeners, now)
    {
      hide PriorityScore, WaiterReady;
    }

    /** The permit of a served request says how long it waited, and when it completes the next request of the session
        sees what kind of request it was and what was reported for it. */
    lemma {:induction false} ServedIsRemembered(
      id: nat, p: Pending, served: Instant, hit: Option<bool>, next: ScheduleRequest, now: Instant)
      requires p.enqueuedAt <= served && p.request.sessionId.Some?
      requires next.who == p.request.who && next.sessionId == p.request.sessionId
      ensures var permit := PermitFor(id, p, served);
              var seen := SessionOf(KeptSessions(SessionsAfter(sessions, permit, hit, now), policy, now), next);
              && p.enqueuedAt + permit.waited == served && Carries(Dispatched(permit), EventFor(id, p, served))
              && seen.Some? && seen.value.lastActivity == now
              && seen.value.lastInteraction == p.request.interaction
              && (hit.Some? ==> RecentCacheRead(policy, next, seen, hit.value, now))
    {
      SessionIsSeen(policy, sessions, PermitFor(id, p, served), hit, next, now);
    }

    lemma {:induction false} ForemostIsInTurn(id: nat, listeners: set<nat>, now: Instant)
      requires id in pending && Foremost(id, listeners, now)
      ensures NobodyAhead(Turn(), pending, listeners, pending[id], id)
    {
      hide Foremost, Ahead;
      forall other | other in pending && other in listeners
        ensures !Ahead(Turn(), pending[other], other, pending[id], id)
      {
        if Ahead(Turn(), pending[other], other, pending[id], id) {
          FirstComeFirstServed(other, id, listeners, now);
          assert false;
        }
      }
    }

    /** One pass over the queue: refuse whoever can never be served, then serve the foremost waiter if one is ready,
        and say when to look again: at once if progress was made, otherwise at an instant before which nothing changes.
        */
    method DispatchReady(now: Instant) returns (due: Option<Instant>)
      requires Valid() && clock == now
      modifies this`pending, this`pendingBytes, this`exits, this`coalesceUntil
      modifies this`tasks, this`events, this`active, this`pacing, this`history
      ensures Valid() && tasks.held == old(tasks).held
      ensures Drained(Turn(), old(pending), pending, old(exits), exits, tasks.listening)
      ensures tasks.listening <= old(tasks).listening && |pending| <= |old(pending)|
      ensures due.Some? && due.value <= now ==> due.value == now && |pending| < |old(pending)|
      ensures history == old(history) || (var h, l := history, tasks.listening; old(Serves(h, l, now)))
      ensures Delivered(old(history))
      ensures OnlyDispatches(old(history), history, now)
      ensures !(due.Some? && due.value <= now) ==>
                history == old(history) && Dormant(pending.Keys, tasks.listening, due, now) && Settled(now)
      ensures NoneOversized(policy.limits, pending, tasks.listening)
      ensures coalesceUntil == old(coalesceUntil) || coalesceUntil.None?
    {
      hide Valid, Dormant, QueueOpen, BestOf, RefusedOf, Drained, Serves, Delivered, NoneOversized;
      var best, nextDue, refused := ScanPending(now);
      due := ActOn(best, nextDue, refused, now);
    }

    method ActOn(best: Option<Candidate>, nextDue: Option<Instant>, refused: set<nat>, now: Instant)
      returns (due: Option<Instant>)
      requires Valid() && clock == now && RefusedOf(pending.Keys, tasks.listening, refused)
      requires nextDue.Some? ==> nextDue.value > now
      requires best.Some? ==>
                 QueueOpen(now) && best.value.id !in refused && BestOf(pending.Keys, tasks.listening, best, now)
      requires best.None? ==> Dormant(pending.Keys, tasks.listening, nextDue, now)
      modifies this`pending, this`pendingBytes, this`exits, this`coalesceUntil
      modifies this`tasks, this`events, this`active, this`pacing, this`history
      ensures Valid() && tasks.held == old(tasks).held
      ensures Drained(Turn(), old(pending), pending, old(exits), exits, tasks.listening)
      ensures tasks.listening <= old(tasks).listening && |pending| <= |old(pending)|
      ensures due.Some? && due.value <= now ==> due.value == now && |pending| < |old(pending)|
      ensures history == old(history) || (var h, l := history, tasks.listening; old(Serves(h, l, now)))
      ensures Delivered(old(history))
      ensures OnlyDispatches(old(history), history, now)
      ensures !(due.Some? && due.value <= now) ==>
                history == old(history) && Dormant(pending.Keys, tasks.listening, due, now) && Settled(now)
      ensures NoneOversized(policy.limits, pending, tasks.listening)
      ensures coalesceUntil == old(coalesceUntil) || coalesceUntil.None?
    {
      hide Valid, Dormant, AllDormant, QueueOpen, Settled, BestOf, RefusedOf, Refusable, RefusalsOf, NoneOversized;
      hide ReadyIn, Drained, Told, Serves, Delivered, EventFor, Ahead;
      ScanMeans(best, refused, tasks.listening, now);
      RefuseAll(refused, now);
      FewerNoneOversized(policy.limits, pending, {}, old(tasks).listening, tasks.listening);
      if best.Some? {
        ghost var left, listening := pending, tasks.listening;
        due := ServeForemost(best.value.id, old(pending), old(exits), now);
        FewerNoneOversized(policy.limits, left, {best.value.id}, listening, tasks.listening);
      } else {
        DormantAfter(old(pending), old(coalesceUntil), old(tasks).listening, nextDue, old(exits), now);
        due := Rest(nextDue, now);
        assert Delivered(old(history)) by {
          NothingDelivered();
        }
      }
    }

    method ServeForemost(id: nat, ghost queue: map<nat, Pending>, ghost known: map<nat, Exit>, now: Instant)
      returns (due: Option<Instant>)
      requires Valid() && clock == now && id in pending && ReadyIn(queue, id, now)
      requires Drained(Turn(), queue, pending, known, exits, tasks.listening)
      requires NobodyAhead(Turn(), queue, tasks.listening, queue[id], id)
      modifies this`pending, this`pendingBytes, this`exits, this`coalesceUntil
      modifies this`tasks, this`events, this`active, this`pacing, this`history
      ensures Valid() && tasks.held == old(tasks).held
      ensures Drained(Turn(), queue, pending, known, exits, tasks.listening)
      ensures tasks.listening <= old(tasks).listening && |pending| < |old(pending)|
      ensures history == old(history) ||
              (id in queue && history == Then(old(history), Dispatch(EventFor(id, queue[id], now))))
      ensures OnlyDispatches(old(history), history, now) && Delivered(old(history))
      ensures due == Some(now) ||
              (due.None? && Dormant(pending.Keys, tasks.listening, due, now) && history == old(history))
      ensures pending == old(pending) - {id}
      ensures coalesceUntil == old(coalesceUntil) || coalesceUntil.None?
      ensures due.None? ==> Settled(now)
    {
      hide Valid, Drained, Recorded, Dispatchable, Ahead;
      DrainedKeeps(Turn(), queue, pending, known, exits, tasks.listening);
      due := DispatchBest(id, now);
      DrainedTrans(Turn(), queue, old(pending), pending, known, old(exits), exits, old(tasks).listening,
                   tasks.listening);
      if id in tasks.listening {
        RecordedDispatch(EventFor(id, queue[id], now), old(history), old(events), old(active), old(pacing));
      }
    }

    // The coalescing deadline is kept only while it lies ahead and entries wait for it.
    predicate Settled(now: Instant)
      reads this`pending, this`coalesceUntil
    {
      coalesceUntil.Some? ==> pending != map[] && now < coalesceUntil.value
    }

    // Nobody can be served now: the queue need not wait for more arrivals once it has been open.
    method Rest(nextDue: Option<Instant>, now: Instant) returns (due: Option<Instant>)
      requires Valid() && Dormant(pending.Keys, tasks.listening, nextDue, now)
      requires nextDue.Some? ==> nextDue.value > now
      modifies this`coalesceUntil
      ensures Valid()
      ensures Dormant(pending.Keys, tasks.listening, due, now) && (due.Some? ==> due.value > now)
      ensures coalesceUntil ==
              if pending == map[] || (old(coalesceUntil).Some? && old(coalesceUntil).value <= now) then None
              else old(coalesceUntil)
      ensures Settled(now)
    {
      hide Valid;
      if pending == map[] {
        coalesceUntil := None;
        return None;
      }
      if QueueOpen(now) {
        coalesceUntil := None;
      }
      return nextDue;
    }

    lemma {:induction false} DormantAfter(
      queue: map<nat, Pending>, opens: Option<Instant>, listeners: set<nat>, due: Option<Instant>, known: map<nat,
      Exit>,
      now: Instant)
      requires AllDormant(policy.limits, events, pacing, active, queue, opens, queue.Keys, listeners, due, now)
      requires Drained(Turn(), queue, pending, known, exits, tasks.listening) && tasks.listening <= listeners
      requires opens == coalesceUntil
      ensures Dormant(pending.Keys, tasks.listening, due, now)
    {
      StillDormant(policy.limits, events, pacing, active, queue, pending, opens, listeners, tasks.listening, due, now);
    }

    lemma {:induction false} ScanMeans(best: Option<Candidate>, refused: set<nat>, listeners: set<nat>, now: Instant)
      requires RefusedOf(pending.Keys, listeners, refused)
      requires best.Some? ==> QueueOpen(now) && best.value.id !in refused && BestOf(pending.Keys, listeners, best, now)
      ensures refused <= pending.Keys && Refusable(policy.limits, pending, listeners, refused)
      ensures NoneOversized(policy.limits, pending - refused, listeners)
      ensures forall due | Dormant(pending.Keys, listeners, due, now) ::
                AllDormant(policy.limits, events, pacing, active, pending, coalesceUntil, pending.Keys, listeners,
                           due, now)
      ensures best.Some? ==>
                && best.value.id in pending - refused && ReadyIn(pending, best.value.id, now)
                && NobodyAhead(Turn(), pending, listeners, pending[best.value.id], best.value.id)
                && var next := Then(history, Dispatch(EventFor(best.value.id, pending[best.value.id], now)));
                   forall fewer: set<nat> | fewer <= listeners :: Serves(next, fewer, now)
    {
      if best.Some? {
        forall fewer: set<nat> | fewer <= listeners ensures Foremost(best.value.id, fewer, now) {
        }
        ForemostIsInTurn(best.value.id, listeners, now);
      }
    }

    // Nobody can be served before `due`, nobody asks for the impossible, and the coalescing deadline is up to date.
    ghost predicate Quiet(due: Option<Instant>, now: Instant)
      reads this`events, this`pacing, this`active, this`pending, this`coalesceUntil, this`tasks
    {
      && Dormant(pending.Keys, tasks.listening, due, now) && (due.Some? ==> due.value > now)
      && NoneOversized(policy.limits, pending, tasks.listening) && Settled(now)
    }

    /** Passes over the queue until one makes no progress. It stops because each other pass takes an entry off the
        queue, and leaves nobody behind who could be dispatched before `due`. */
    method DispatchAvailable(now: Instant) returns (ghost due: Option<Instant>)
      requires Valid() && clock == now
      modifies this`pending, this`pendingBytes, this`exits, this`coalesceUntil
      modifies this`tasks, this`events, this`active, this`pacing, this`history
      ensures Valid() && tasks.held == old(tasks).held
      ensures Drained(Turn(), old(pending), pending, old(exits), exits, tasks.listening)
      ensures tasks.listening <= old(tasks).listening
      ensures OnlyDispatches(old(history), history, now)
      ensures Quiet(due, now)
    {
      hide Valid, Dormant, QueueOpen, Drained, Serves, OnlyDispatches, NoneOversized;
      var next := DispatchReady(now);
      while next.Some? && next.value <= now
        invariant Valid() && tasks.held == old(tasks).held
        invariant Drained(Turn(), old(pending), pending, old(exits), exits, tasks.listening)
        invariant tasks.listening <= old(tasks).listening
        invariant OnlyDispatches(old(history), history, now)
        invariant !(next.Some? && next.value <= now) ==>
                    Dormant(pending.Keys, tasks.listening, next, now) && Settled(now)
        invariant NoneOversized(policy.limits, pending, tasks.listening)
        decreases |pending|, next.Some? && next.value <= now
      {
        ghost var before, queue, known, listeners := history, pending, exits, tasks.listening;
        next := DispatchReady(now);
        OnlyDispatchesTrans(old(history), before, history, now);
        DrainedTrans(Turn(), old(pending), queue, pending, old(exits), known, exits, listeners, tasks.listening);
      }
      due := next;
    }

    // ---- Before waiting ----

    function Preview(request: ScheduleRequest, now: Instant): (r: Option<Reason>)
      reads this`sessions
      ensures r.Some? <==> policy.enabled && BatchReason(request, now, now).Some?
      ensures r.Some? ==> r == BatchReason(request, now, now)
    {
      if !policy.enabled || !request.allowBatchFallback then None else BatchReason(request, now, now)
    }

    /** What a request gets without entering the queue. Only a disabled scheduler dispatches here, and that permit
        reserves nothing; a retry beyond the limits is answered, and one within them pauses for no longer than the cap.
        */
    method Screen(request: ScheduleRequest, now: Instant) returns (r: Screening)
      requires ValidPolicy(policy)
      ensures r.Malformed? <==> IsBlank(request.who.provider) || IsBlank(request.who.auth) || IsBlank(request.who.model)
      ensures r.Answered? && r.outcome.Dispatched? <==> !r.Malformed? && !policy.enabled
      ensures r.Answered? && r.outcome.Dispatched? ==>
                r.outcome.permit.reservation.None? && r.outcome.permit.waited == 0
      ensures r.Answered? && r.outcome.RecommendBatch? ==>
                Preview(WithOutput(policy, request), now) == Some(r.outcome.reason)
      ensures r.Answered? && r.outcome.RetryExhausted? ==>
                && Preview(WithOutput(policy, request), now).None?
                && r.outcome.retryAfter == request.upstreamRetryAfter
                && r.outcome.reason ==
                     (if request.retryAttempt > policy.maxRetries then MaxRetriesExceeded else RetryAfterExceedsWaitCap)
                && (request.retryAttempt <= policy.maxRetries ==>
                      request.upstreamRetryAfter.GetOr(0) > MaxWait(policy, request.asyncAlias))
      ensures r.Admissible? ==>
                && policy.enabled && Preview(r.request, now).None?
                && r.request == request.(outputTokens := r.request.outputTokens)
                && r.request.outputTokens ==
                     (if request.outputTokens == 0 then policy.defaultOutputTokens else request.outputTokens)
                && request.retryAttempt <= policy.maxRetries
                && r.pause == request.upstreamRetryAfter.GetOr(0) <= MaxWait(policy, request.asyncAlias)
    {
      if IsBlank(request.who.provider) || IsBlank(request.who.auth) || IsBlank(request.who.model) {
        return Malformed;
      }
      var ready := WithOutput(policy, request);
      if !policy.enabled {
        return Answered(Dispatched(
          Permit(None, ready.who, ready.sessionId, ready.interaction, ready.inputTokens, ready.outputTokens, 0)));
      }
      var batch := Preview(ready, now);
      if batch.Some? {
        return Answered(RecommendBatch(batch.value, None));
      }
      if ready.retryAttempt > policy.maxRetries {
        return Answered(RetryExhausted(MaxRetriesExceeded, ready.upstreamRetryAfter));
      }
      if ready.upstreamRetryAfter.Some? && ready.upstreamRetryAfter.value > MaxWait(policy, ready.asyncAlias) {
        return Answered(RetryExhausted(RetryAfterExceedsWaitCap, ready.upstreamRetryAfter));
      }
      return Admissible(ready, ready.upstreamRetryAfter.GetOr(0));
    }

    // ---- Waiting ----

    // Forget what is too old, at the start of a section under the lock.
    method Prune(now: Instant)
      requires Valid() && clock <= now
      modifies this`events, this`pacing, this`sessions, this`clock
      ensures Valid() && clock == now
      ensures sessions == KeptSessions(old(sessions), policy, now)
    {
      hide LedgerOk, QueueOk, IdsOk, TasksOk, KeptSessions;
      PruneEvents(now);
    }

    // A request enters the queue unless the queue is full in entries or in bytes; it starts the coalescing interval if
    // it is the first.
    method Enqueue(request: ScheduleRequest, now: Instant) returns (r: Result<nat, Outcome>)
      requires Valid() && policy.enabled && clock <= now
      modifies this`events, this`pacing, this`sessions, this`clock
      modifies this`pending, this`pendingBytes, this`nextId, this`coalesceUntil, this`tasks
      ensures Valid() && clock == now
      ensures r.Success? <==>
              |old(pending)| < policy.maxPending && BodyBytes(request) + old(pendingBytes) <= policy.maxPendingBytes
      ensures r.Success? ==>
                && r.value == old(nextId) && nextId == old(nextId) + 1
                && pending == old(pending)[r.value :=
                     Pending(request, now, request.inputTokens, request.outputTokens, BodyBytes(request))]
                && tasks == old(tasks).(listening := old(tasks).listening + {r.value})
                && coalesceUntil ==
                     if old(pending) == map[] then Some(now + Millis(policy.queueCoalesceMs)) else old(coalesceUntil)
      ensures r.Failure? ==>
                && r.error == CapacityOutcome(request, QueueFull, None, now, now)
                && pending == old(pending) && nextId == old(nextId)
                && tasks == old(tasks) && coalesceUntil == old(coalesceUntil)
    {
      hide Valid, CapacityOutcome;
      Prune(now);
      var bytes := BodyBytes(request);
      QueueBounds();
      if |pending| >= policy.maxPending || bytes > Max(policy.maxPendingBytes - pendingBytes, 0) {
        return Failure(CapacityOutcome(request, QueueFull, None, now, now));
      }
      var id := nextId;
      if pending == map[] {
        coalesceUntil := Some(now + Millis(policy.queueCoalesceMs));
      }
      AddPending(Pending(request, now, request.inputTokens, request.outputTokens, bytes));
      return Success(id);
    }

    lemma {:induction false} QueueBounds()
      requires Valid()
      ensures pendingBytes <= policy.maxPendingBytes && ValidPolicy(policy)
    {
    }

    method AddPending(p: Pending)
      requires Valid() && policy.enabled
      requires |pending| < policy.maxPending && p.bytes + pendingBytes <= policy.maxPendingBytes
      modifies this`pending, this`pendingBytes, this`nextId, this`tasks
      ensures Valid() && nextId == old(nextId) + 1 && pending == old(pending)[old(nextId) := p]
      ensures tasks == old(tasks).(listening := old(tasks).listening + {old(nextId)})
    {
      hide LedgerOk, QueueOk, IdsOk, TasksOk;
      NextIdIsNew();
      EnqueueKeeps(tasks, pending.Keys, active.Keys, exits.Keys, nextId);
      tasks := tasks.(listening := tasks.listening + {nextId});
      Insert(p);
    }

    lemma {:induction false} NextIdIsNew()
      requires IdsOk()
      ensures nextId !in pending && nextId !in exits
    {
    }

    method Insert(p: Pending)
      requires QueueOk() && IdsOk() && policy.enabled
      requires |pending| < policy.maxPending && p.bytes + pendingBytes <= policy.maxPendingBytes
      modifies this`pending, this`pendingBytes, this`nextId
      ensures QueueOk() && IdsOk() && nextId == old(nextId) + 1 && pending == old(pending)[old(nextId) := p]
      ensures pending.Keys == old(pending).Keys + {old(nextId)}
    {
      hide Issued, IdsAgree, TotalBytes;
      NewIdKeeps(pending.Keys, exits, nextId, Issued(history));
      BytesAdded(pending, nextId, p);
      NextIdIsNew();
      assert pending[nextId := p].Keys == pending.Keys + {nextId};
      pending := pending[nextId := p];
      pendingBytes := pendingBytes + p.bytes;
      nextId := nextId + 1;
    }

    // Take one's own entry off the queue, if it is still there, and stop listening: mail not yet read is lost, and a
    // permit in it is dropped.
    method LeaveQueue(id: nat, ghost exit: Exit)
      requires Valid() && id in tasks.listening && !exit.Served?
      modifies this`pending, this`pendingBytes, this`exits, this`coalesceUntil, this`tasks
      ensures Valid()
      ensures pending == old(pending) - {id} && tasks == old(tasks).Lose({id}, true)
      ensures exits == if id in old(pending) then old(exits)[id := exit] else old(exits)
      ensures coalesceUntil == if pending == map[] then None else old(coalesceUntil)
      ensures id in old(pending) ==> id !in old(exits)
    {
      hide LedgerOk, QueueOk, IdsOk, TasksOk;
      ListenersAreKnown(id);
      if id in pending {
        WithdrawKeeps(tasks, pending.Keys, active.Keys, exits.Keys, id);
      } else {
        LeaveKeeps(tasks, pending.Keys, active.Keys, exits.Keys, id);
        assert pending.Keys - {id} == pending.Keys;
      }
      tasks := tasks.Lose({id}, true);
      TakeOut(id, exit);
    }

    // Remove an entry, if it is still there, and forget the coalescing interval of an empty queue.
    method TakeOut(id: nat, ghost exit: Exit)
      requires QueueOk() && IdsOk() && !exit.Served?
      modifies this`pending, this`pendingBytes, this`exits, this`coalesceUntil
      ensures QueueOk() && IdsOk()
      ensures pending == old(pending) - {id} && pending.Keys == old(pending).Keys - {id}
      ensures exits == if id in old(pending) then old(exits)[id := exit] else old(exits)
      ensures exits.Keys == if id in old(pending) then old(exits).Keys + {id} else old(exits).Keys
      ensures coalesceUntil == if pending == map[] then None else old(coalesceUntil)
      ensures id in old(pending) ==> id !in old(exits)
    {
      hide QueueOk, IdsOk;
      var removed := RemovePending(id, exit);
      if pending == map[] {
        coalesceUntil := None;
      }
    }

    lemma {:induction false} ListenersAreKnown(id: nat)
      requires Valid() && id in tasks.listening
      ensures id in pending || id in exits
    {
    }

    // From `now` on, with the state unchanged, every matching rule admits the request exactly at and after `at`.
    ghost predicate AdmittedFrom(p: Pending, at: Instant, now: Instant)
      reads this`events, this`pacing
    {
      forall t: Instant | t >= now ::
        Admits(policy.limits, events, SlotsOf(pacing), p.request.who, p.input, p.output, t) <==> t >= at
    }

    // Readiness as seen by a waiter for its own request, whether or not its entry is still queued.
    method OwnReadiness(p: Pending, now: Instant) returns (fit: Fit)
      requires Valid()
      ensures policy.enabled ==>
                (fit.impossible <==> Oversized(policy.limits, p.request.who, p.input, p.output))
      ensures fit.impossible ==> fit.at.None?
      ensures policy.enabled && fit.at.Some? ==> fit.at.value >= now && AdmittedFrom(p, fit.at.value, now)
      ensures policy.enabled && !fit.impossible && SlotFree(policy.limits, active, p.request.who) ==> fit.at.Some?
    {
      ListOfLimits();
      hide Valid, ValidLimits, Oversized;
      fit := Readiness(policy, events, pacing, active, p.request.who, p.input, p.output, now);
    }

    lemma {:induction false} ListOfLimits()
      requires Valid()
      ensures ValidLimits(policy)
    {
    }

    // A waiter wakes up: it gives up at once if its request is oversized, and otherwise gives the queue one pass.
    method Poll(id: nat, p: Pending, started: Instant, now: Instant)
      returns (answer: Option<Outcome>, due: Option<Instant>)
      requires Valid() && policy.enabled && clock <= now && id in tasks.listening
      modifies this`pending, this`pendingBytes, this`exits, this`coalesceUntil
      modifies this`tasks, this`events, this`active, this`pacing, this`history, this`sessions, this`clock
      ensures Valid() && clock == now && tasks.held == old(tasks).held
      ensures answer.Some? <==> Oversized(policy.limits, p.request.who, p.input, p.output)
      ensures answer.Some? ==>
                && answer.value == CapacityOutcome(p.request, RequestExceedsQuota, None, now, started)
                && history == old(history) && pending == old(pending) - {id} && tasks == old(tasks).Lose({id}, true)
                && (id in old(pending) ==> id !in old(exits))
                && exits == if id in old(pending) then old(exits)[id := Rejected] else old(exits)
      ensures answer.None? ==>
                && Drained(Turn(), old(pending), pending, old(exits), exits, tasks.listening)
                && tasks.listening <= old(tasks).listening
                && OnlyDispatches(old(history), history, now)
                && (due.Some? && due.value <= now ==> |pending| < |old(pending)|)
                && (!(due.Some? && due.value <= now) ==> Dormant(pending.Keys, tasks.listening, due, now))
    {
      hide Valid, CapacityOutcome, Oversized, Drained, OnlyDispatches, Dormant, Serves, KeptSessions;
      Prune(now);
      var fit := OwnReadiness(p, now);
      if fit.impossible {
        answer, due := Some(CapacityOutcome(p.request, RequestExceedsQuota, None, now, started)), None;
        LeaveQueue(id, Rejected);
      } else {
        answer := None;
        due := DispatchReady(now);
      }
    }

    // The waiter reads its mail: the outcome is its own, and a permit in it is now in the caller's hands.
    method Receive(id: nat) returns (outcome: Outcome)
      requires Valid() && id in tasks.mailbox
      modifies this`tasks
      ensures Valid() && tasks == old(tasks).Receive(id)
      ensures outcome == old(tasks).mailbox[id]
      ensures outcome.Dispatched? ==> id in tasks.held && id in active && outcome.permit.reservation == Some(id)
    {
      hide LedgerOk, QueueOk, IdsOk;
      ReceiveKeeps(tasks, pending.Keys, active.Keys, exits.Keys, id);
      outcome := tasks.mailbox[id];
      tasks := tasks.Receive(id);
    }

    /** The waiter gives up at its deadline. It may have been served since it last looked for mail: its entry is then
        gone already, and the permit it never reads is dropped, which spawns the release of a slot that is still taken;
        ledger and history keep the charge. */
    method Expire(id: nat, p: Pending, started: Instant, now: Instant) returns (outcome: Outcome)
      requires Valid() && policy.enabled && clock <= now && id in tasks.listening
      modifies this`pending, this`pendingBytes, this`exits, this`coalesceUntil, this`tasks, this`clock
      ensures Valid() && clock == now
      ensures outcome.RecommendBatch? || (outcome.RetryExhausted? && outcome.reason == MaxWaitExceeded)
      ensures outcome.RecommendBatch? <==> BatchReason(p.request, started, now).Some?
      ensures outcome.retryAfter.Some? ==> AdmittedFrom(p, now + outcome.retryAfter.value, now)
      ensures !Oversized(policy.limits, p.request.who, p.input, p.output) ==>
                SlotFree(policy.limits, active, p.request.who) ==> outcome.retryAfter.Some?
      ensures pending == old(pending) - {id} && tasks == old(tasks).Lose({id}, true)
      ensures exits == if id in old(pending) then old(exits)[id := TimedOut] else old(exits)
      ensures old(tasks).IsUnread(id) ==> id in tasks.releasing && id in active && exits[id] == Served
      ensures coalesceUntil == if pending == map[] then None else old(coalesceUntil)
      ensures id in old(pending) ==> id !in old(exits)
    {
      hide Valid, CapacityOutcome, Oversized, AdmittedFrom;
      Pass(now);
      var fit := OwnReadiness(p, now);
      var retryAfter := if fit.at.Some? then Some(Elapsed(fit.at.value, now)) else None;
      outcome := CapacityOutcome(p.request, MaxWaitExceeded, retryAfter, now, started);
      UnreadIsServed(id);
      LeaveQueue(id, TimedOut);
    }

    lemma {:induction false} UnreadIsServed(id: nat)
      requires Valid()
      ensures tasks.IsUnread(id) ==> id in active && id in exits && exits[id].Served? && id !in pending
    {
      LogShape(policy.limits, history);
    }

    // The clean-up task of a cancelled waiter.
    method RunCancel(id: nat, now: Instant) returns (ghost due: Option<Instant>)
      requires Valid() && clock <= now && id in tasks.cancelling
      modifies this`pending, this`pendingBytes, this`exits, this`coalesceUntil
      modifies this`tasks, this`events, this`active, this`pacing, this`history, this`sessions, this`clock
      ensures Valid() && clock == now && tasks.held == old(tasks).held
      ensures id !in pending
      ensures Drained(Turn(), old(pending), pending, old(exits), exits, tasks.listening)
      ensures OnlyDispatches(old(history), history, now)
      ensures Quiet(due, now)
    {
      hide Valid, Quiet, Drained, OnlyDispatches, KeptSessions;
      CleanUp(id);
      ghost var queue, known, listening := pending, exits, tasks.listening;
      Prune(now);
      due := DispatchAvailable(now);
      DrainedKeeps(Turn(), queue, pending, known, exits, tasks.listening);
      DrainedTrans(Turn(), old(pending), queue, pending, old(exits), known, exits, listening, tasks.listening);
    }

    method CleanUp(id: nat)
      requires Valid() && id in tasks.cancelling
      modifies this`pending, this`pendingBytes, this`exits, this`coalesceUntil, this`tasks
      ensures Valid()
      ensures pending == old(pending) - {id} && tasks == old(tasks).(cancelling := old(tasks).cancelling - {id})
      ensures exits == if id in old(pending) then old(exits)[id := Cancelled] else old(exits)
      ensures coalesceUntil == if pending == map[] then None else old(coalesceUntil)
      ensures Drained(Turn(), old(pending), pending, old(exits), exits, tasks.listening)
    {
      hide LedgerOk, QueueOk, IdsOk, TasksOk, Drained;
      CancelledIsGone(id);
      CleanUpKeeps(tasks, pending.Keys, active.Keys, exits.Keys, id);
      tasks := tasks.(cancelling := tasks.cancelling - {id});
      TakeOut(id, Cancelled);
      if id in old(pending) {
        DrainedOne(Turn(), old(pending), old(exits), tasks.listening, id, Cancelled);
      } else {
        DrainedNothing(Turn(), pending, exits, tasks.listening);
        assert pending == old(pending);
      }
    }

    lemma {:induction false} CancelledIsGone(id: nat)
      requires Valid() && id in tasks.cancelling
      ensures id !in tasks.listening
    {
    }

    // ---- Permits ----

    // The caller drops a permit without completing or aborting it.
    method DropPermit(id: nat)
      requires Valid() && id in tasks.held
      modifies this`tasks
      ensures Valid() && tasks == old(tasks).DropPermit(id)
    {
      hide LedgerOk, QueueOk, IdsOk, TasksOk;
      DropPermitKeeps(tasks, pending.Keys, active.Keys, exits.Keys, id);
      tasks := tasks.DropPermit(id);
    }

    /** The release task of a dropped permit frees the slot and keeps the charge. A permit whose delivery failed has no
        slot to free. */
    method RunRelease(id: nat, now: Instant) returns (ghost due: Option<Instant>)
      requires Valid() && clock <= now && id in tasks.releasing
      modifies this`pending, this`pendingBytes, this`exits, this`coalesceUntil
      modifies this`tasks, this`events, this`active, this`pacing, this`history, this`clock
      ensures Valid() && clock == now && tasks.held == old(tasks).held
      ensures id in old(active) ==>
                && OnlyDispatches(Then(old(history), Release(id)), history, now)
                && Quiet(due, now)
      ensures id !in old(active) ==> history == old(history) && pending == old(pending) && active == old(active)
      ensures Drained(Turn(), old(pending), pending, old(exits), exits, tasks.listening)
    {
      hide Valid, Quiet, Drained, OnlyDispatches;
      Pass(now);
      due := None;
      var taken := id in active;
      FreeSlot(id);
      DrainedNothing(Turn(), pending, exits, tasks.listening);
      if taken {
        due := DispatchAvailable(now);
      }
    }

    ghost method Pass(now: Instant)
      requires Valid() && clock <= now
      modifies this`clock
      ensures Valid() && clock == now
    {
      hide LedgerOk, QueueOk, IdsOk, TasksOk;
      Tick(now);
    }

    method FreeSlot(id: nat)
      requires Valid() && id in tasks.releasing
      modifies this`active, this`tasks, this`history
      ensures Valid() && active == old(active) - {id}
      ensures tasks == old(tasks).(releasing := old(tasks).releasing - {id})
      ensures history == if id in old(active) then Then(old(history), Release(id)) else old(history)
    {
      hide Refines, QueueOk, IdsAgree, TasksOk;
      ReleaseKeeps(tasks, pending.Keys, active.Keys, exits.Keys, id);
      tasks := tasks.(releasing := tasks.releasing - {id});
      if id in active {
        RefinesRelease(policy.limits, history, clock, events, pacing, active, id);
        history := Then(history, Release(id));
      } else {
        assert active - {id} == active;
      }
      active := active - {id};
    }

    /** Completion frees the slot and replaces the reserved tokens by the reported ones. */
    method Complete(permit: Permit, input: Option<nat>, output: Option<nat>, cacheReadHit: Option<bool>, now: Instant)
      returns (ghost due: Option<Instant>)
      requires Valid() && clock <= now
      requires permit.reservation.Some? ==> permit.reservation.value in tasks.held
      modifies this`pending, this`pendingBytes, this`exits, this`coalesceUntil
      modifies this`tasks, this`events, this`active, this`pacing, this`history, this`sessions, this`clock
      ensures Valid() && clock == now
      ensures permit.reservation.Some? ==>
                && tasks.held == old(tasks).held - {permit.reservation.value}
                && OnlyDispatches(Then(old(history), Settle(permit.reservation.value, input, output)), history, now)
      ensures permit.reservation.None? ==> tasks.held == old(tasks).held && OnlyDispatches(old(history), history, now)
      ensures Quiet(due, now)
      ensures Drained(Turn(), old(pending), pending, old(exits), exits, tasks.listening)
      ensures sessions == KeptSessions(SessionsAfter(old(sessions), permit, cacheReadHit, now), policy, now)
    {
      hide Valid, Quiet, Drained, OnlyDispatches, KeptSessions, SessionsAfter;
      if permit.reservation.Some? {
        SettlePermit(permit.reservation.value, input, output);
      }
      sessions := SessionsAfter(sessions, permit, cacheReadHit, now);
      Prune(now);
      due := DispatchAvailable(now);
    }

    method SettlePermit(id: nat, input: Option<nat>, output: Option<nat>)
      requires Valid() && id in tasks.held
      modifies this`events, this`active, this`tasks, this`history
      ensures Valid() && active == old(active) - {id} && events == Reconcile(old(events), id, input, output)
      ensures tasks == old(tasks).(held := old(tasks).held - {id})
      ensures history == Then(old(history), Settle(id, input, output))
    {
      hide LedgerOk, QueueOk, IdsAgree, TasksOk, Reconcile;
      HeldIsActive(id);
      SettleKeeps(tasks, pending.Keys, active.Keys, exits.Keys, id);
      tasks := tasks.(held := tasks.held - {id});
      SettleLedger(id, input, output);
    }

    method SettleLedger(id: nat, input: Option<nat>, output: Option<nat>)
      requires LedgerOk() && id in active
      modifies this`events, this`active, this`history
      ensures LedgerOk() && active == old(active) - {id} && active.Keys == old(active).Keys - {id}
      ensures events == Reconcile(old(events), id, input, output)
      ensures history == Then(old(history), Settle(id, input, output))
    {
      hide Refines, Reconcile;
      RefinesSettle(policy.limits, history, clock, events, pacing, active, id, input, output);
      active := active - {id};
      events := Reconcile(events, id, input, output);
      history := Then(history, Settle(id, input, output));
    }

    lemma {:induction false} HeldIsActive(id: nat)
      requires Valid() && id in tasks.held
      ensures id in active
    {
    }

    /** Aborting frees the slot, takes the charge back and replays the pacing slots from what is left in the ledger. */
    method Abort(permit: Permit, now: Instant) returns (ghost due: Option<Instant>)
      requires Valid() && clock <= now
      requires permit.reservation.Some? ==> permit.reservation.value in tasks.held
      modifies this`pending, this`pendingBytes, this`exits, this`coalesceUntil
      modifies this`tasks, this`events, this`active, this`pacing, this`history, this`sessions, this`clock
      ensures Valid()
      ensures permit.reservation.None? ==> history == old(history) && pending == old(pending) && tasks == old(tasks)
      ensures permit.reservation.Some? ==>
                && clock == now && tasks.held == old(tasks).held - {permit.reservation.value}
                && OnlyDispatches(Then(old(history), Undo(permit.reservation.value)), history, now)
                && Quiet(due, now)
      ensures Drained(Turn(), old(pending), pending, old(exits), exits, tasks.listening)
    {
      hide Valid, Quiet, Drained, OnlyDispatches, KeptSessions;
      due := None;
      DrainedNothing(Turn(), pending, exits, tasks.listening);
      if permit.reservation.None? {
        return;
      }
      UndoPermit(permit.reservation.value);
      Prune(now);
      due := DispatchAvailable(now);
    }

    method UndoPermit(id: nat)
      requires Valid() && id in tasks.held
      modifies this`events, this`active, this`pacing, this`tasks, this`history
      ensures Valid() && active == old(active) - {id} && events == Remove(old(events), id)
      ensures tasks == old(tasks).(held := old(tasks).held - {id})
      ensures history == Then(old(history), Undo(id))
    {
      hide LedgerOk, QueueOk, IdsAgree, TasksOk, Remove;
      HeldIsActive(id);
      SettleKeeps(tasks, pending.Keys, active.Keys, exits.Keys, id);
      tasks := tasks.(held := tasks.held - {id});
      UndoLedger(id);
    }

    method UndoLedger(id: nat)
      requires LedgerOk() && id in active
      modifies this`events, this`active, this`pacing, this`history
      ensures LedgerOk() && active == old(active) - {id} && active.Keys == old(active).Keys - {id}
      ensures events == Remove(old(events), id)
      ensures history == Then(old(history), Undo(id))
    {
      hide Refines, Remove, Replay;
      ghost var before, slots, inFlight := events, pacing, active;
      active := active - {id};
      events := Remove(events, id);
      RebuildPacing();
      RefinesUndo(policy.limits, history, clock, before, slots, inFlight, id, pacing);
      history := Then(history, Undo(id));
    }

    // ---- Every state the methods reach ----

    lemma {:induction false} LegalNow()
      requires Valid()
      ensures Legal(policy.limits, history) && active == Active(history)
      ensures forall i | 0 <= i < |policy.limits| :: ValidLimit(policy.limits[i])
      ensures Trimmed(policy.limits, Log(history), events, clock)
    {
    }

    /** In every reachable state the windows and the requests in flight of a provider stay within the caps of each rule
        that applies to it: of all credentials together, or of each one if the rule is auth-scoped. */
    lemma {:induction false} EveryStateKeepsCaps(i: nat, provider: string, auth: Option<string>, start: int)
      requires Valid() && i < |policy.limits|
      requires policy.limits[i].provider.None? || policy.limits[i].provider.value == provider
      requires policy.limits[i].authScoped ==> auth.Some?
      ensures var limit := policy.limits[i];
              var used := Spent(Log(history), provider, auth, limit.model, start,
                                Some(start + limit.windowSeconds * 1_000_000_000));
              && (limit.maxRequests.Some? ==> used.requests <= limit.maxRequests.value)
              && (limit.maxConcurrency.Some? ==>
                    |Running(active, provider, auth, limit.model)| <= limit.maxConcurrency.value)
    {
      hide *;
      LegalNow();
      CapsOfEveryRule(policy.limits, history, i, provider, auth, start);
    }

    lemma {:induction false} QueueIsSound()
      requires Valid()
      ensures pendingBytes == TotalBytes(pending, nextId) <= policy.maxPendingBytes && |pending| <= policy.maxPending
      ensures pending.Keys !! active.Keys
    {
      hide Refines, Legal, ValidPolicy, TotalBytes;
    }

    /** Nobody is forgotten: a listening waiter is queued or has mail, so its channel never closes without an outcome;
        a queued entry without a listener has a clean-up task; and every slot in flight is freed by exactly one of its
        unread permit, the permit's holder and a release task. */
    lemma {:induction false} NobodyIsForgotten(id: nat)
      requires Valid()
      ensures id in tasks.listening ==> id in pending || id in tasks.mailbox
      ensures id in pending ==> id in tasks.listening || id in tasks.cancelling
      ensures id in active ==>
                && (tasks.IsUnread(id) || id in tasks.held || id in tasks.releasing)
                && !(tasks.IsUnread(id) && id in tasks.held)
                && !(tasks.IsUnread(id) && id in tasks.releasing)
                && !(id in tasks.held && id in tasks.releasing)
      ensures tasks.IsUnread(id) || id in tasks.held ==> id in active
    {
      hide LedgerOk, QueueOk, IdsOk;
    }

    /** In every reachable state no rule has more requests in flight than its cap, no half-open interval as long as its
        window holds more undone dispatches than its caps allow, and the queue's accounts are exact. */
    lemma {:induction false} EveryStateIsSafe(i: nat, who: Scope, start: int)
      requires Valid() && i < |policy.limits| && RuleMatches(policy.limits[i], who)
      ensures policy.limits[i].maxConcurrency.Some? ==>
                |Occupants(active, policy.limits[i], who)| <= policy.limits[i].maxConcurrency.value
      ensures var used := Tally(Log(history), policy.limits[i], who, Between(start, start + policy.limits[i].Window()));
              && RequestsHold(policy.limits[i], used.requests)
              && (NoOverReport(history) ==> TokensHold(policy.limits[i], used))
      ensures pendingBytes == TotalBytes(pending, nextId) <= policy.maxPendingBytes && |pending| <= policy.maxPending
      ensures pending.Keys !! active.Keys
    {
      hide *;
      LegalNow();
      QueueIsSound();
      SlidingWindowSafety(policy.limits, history, i, who, start);
      if policy.limits[i].maxConcurrency.Some? {
        ConcurrencySafety(policy.limits, history, i, who);
      }
    }
  }
}
