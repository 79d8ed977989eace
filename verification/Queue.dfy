/** The waiting queue: its entries, how they leave it, and what a pass over it may change
    (src/scheduling.rs: Pending, remove_pending, dispatch_ready). */
module Queue {
  import opened Basics
  import opened Policy
  import opened Ledger
  import opened Pacing
  import opened Admission
  import opened History
  import opened Priority
  import opened Waiters

  datatype Pending = Pending(request: ScheduleRequest, enqueuedAt: Instant, input: nat, output: nat, bytes: nat)

  // How an id left the queue.
  datatype Exit = Served | Rejected | TimedOut | Cancelled

  // ---- Queue accounting ----

  function TotalBytes(pending: map<nat, Pending>, n: nat): nat {
    if n == 0 then 0
    else TotalBytes(pending, n - 1) + (if n - 1 in pending then pending[n - 1].bytes else 0)
  }

  lemma {:induction false} BytesWithout(pending: map<nat, Pending>, id: nat, n: nat)
    requires id in pending
    ensures TotalBytes(pending - {id}, n) + (if id < n then pending[id].bytes else 0) == TotalBytes(pending, n)
  {
    if n > 0 {
      BytesWithout(pending, id, n - 1);
    }
  }

  lemma {:induction false} BytesWith(pending: map<nat, Pending>, id: nat, p: Pending, n: nat)
    requires n <= id
    ensures TotalBytes(pending[id := p], n) == TotalBytes(pending, n)
  {
    if n > 0 {
      BytesWith(pending, id, p, n - 1);
    }
  }

  lemma {:induction false} BytesAdded(pending: map<nat, Pending>, id: nat, p: Pending)
    ensures TotalBytes(pending[id := p], id + 1) == TotalBytes(pending, id) + p.bytes
  {
    BytesWith(pending, id, p, id);
  }

  // What `acquire` decides before a request may wait.
  datatype Screening = Malformed | Answered(outcome: Outcome) | Admissible(request: ScheduleRequest, pause: Duration)

  // A missing output estimate is replaced by the policy's default.
  function WithOutput(policy: SchedulingPolicy, request: ScheduleRequest): ScheduleRequest {
    if request.outputTokens == 0 then request.(outputTokens := policy.defaultOutputTokens) else request
  }

  // The length of the request's serialized body, if it has one.
  function BodyBytes(request: ScheduleRequest): (bytes: nat)
    ensures request.body.Some? ==> bytes == |request.body.value|
    ensures request.body.None? ==> bytes == 0
  {
    if request.body.Some? then |request.body.value| else 0
  }

  // ---- Sessions ----

  // A completion is remembered for its session; an unreported cache outcome keeps the last one seen for the same model.
  function SessionsAfter(
    sessions: map<string, SessionState>, permit: Permit, cacheReadHit: Option<bool>, now: Instant): map<string,
    SessionState>
  {
    if permit.sessionId.None? then sessions
    else
      var key := SessionKey(permit.who, permit.sessionId.value);
      var known := key in sessions && sessions[key].lastModel == permit.who.model;
      var previous := if known then sessions[key].cacheReadHit else None;
      var hit := if cacheReadHit.Some? then cacheReadHit else previous;
      sessions[key := SessionState(now, permit.interaction, permit.who.model, hit)]
  }

  // Sessions idle for more than eight decay periods are forgotten.
  function KeptSessions(sessions: map<string, SessionState>, policy: SchedulingPolicy, now: Instant)
    : map<string, SessionState>
  {
    map key | key in sessions &&
              Elapsed(now, sessions[key].lastActivity) <= Millis(SatMul(policy.idleDecayMs, 8)) :: sessions[key]
  }

  /** What a completion reports is what the session's next request for that model sees: its cache outcome if one was
      reported, and otherwise the last one known for the model. */
  lemma {:induction false} SessionIsSeen(
    policy: SchedulingPolicy, sessions: map<string, SessionState>, permit: Permit, hit: Option<bool>,
    request: ScheduleRequest,
    now: Instant)
    requires permit.sessionId.Some? && request.sessionId == permit.sessionId && request.who == permit.who
    ensures var seen := SessionOf(KeptSessions(SessionsAfter(sessions, permit, hit, now), policy, now), request);
            && seen.Some? && seen.value.lastActivity == now && seen.value.lastInteraction == permit.interaction
            && (hit.Some? ==> RecentCacheRead(policy, request, seen, hit.value, now))
            && (hit.None? ==>
                  seen.value.cacheReadHit ==
                  var before := SessionOf(sessions, request);
                  if before.Some? && before.value.lastModel == request.who.model then before.value.cacheReadHit
                  else None)
  {
  }

  /** Of what a completion does to the sessions no other session's request sees anything; and pruning takes away exactly
      the sessions that were idle for more than eight decay periods. */
  lemma {:induction false} OtherSessionsStay(
    policy: SchedulingPolicy, sessions: map<string, SessionState>, permit: Permit, hit: Option<bool>,
    request: ScheduleRequest, now: Instant)
    requires permit.sessionId.None? || request.sessionId.None? ||
             SessionKey(request.who, request.sessionId.value) != SessionKey(permit.who, permit.sessionId.value)
    ensures SessionOf(SessionsAfter(sessions, permit, hit, now), request) == SessionOf(sessions, request)
    ensures SessionOf(KeptSessions(sessions, policy, now), request) ==
            var session := SessionOf(sessions, request);
            if session.Some?
               && now <= session.value.lastActivity + Min(8 * policy.idleDecayMs, U64_MAX) * 1_000_000
            then session else None
  {
  }

  // Everything between two histories is a dispatch at `now`.
  ghost predicate OnlyDispatches(from: History, to: History, now: Instant) {
    to == from || (to.Then? && to.step.Dispatch? && to.step.event.at == now && OnlyDispatches(from, to.past, now))
  }

  lemma {:induction false} OnlyDispatchesTrans(a: History, b: History, c: History, now: Instant)
    requires OnlyDispatches(a, b, now) && OnlyDispatches(b, c, now)
    ensures OnlyDispatches(a, c, now)
  {
    if c != b {
      OnlyDispatchesTrans(a, b, c.past, now);
    }
  }

  // Every id given out is either still queued or left the queue in exactly one way.
  ghost predicate IdsAgree(queue: set<nat>, exits: map<nat, Exit>, nextId: nat, issued: set<nat>) {
    && (forall id: nat :: id < nextId <==> id in queue || id in exits)
    && queue !! exits.Keys
    && (forall id: nat :: id in issued <==> id in exits && exits[id].Served?)
  }

  lemma {:induction false} NewIdKeeps(queue: set<nat>, exits: map<nat, Exit>, nextId: nat, issued: set<nat>)
    requires IdsAgree(queue, exits, nextId, issued)
    ensures IdsAgree(queue + {nextId}, exits, nextId + 1, issued)
  {
  }

  lemma {:induction false} ExitKeeps(
    queue: set<nat>, exits: map<nat, Exit>, nextId: nat, issued: set<nat>, id: nat, exit: Exit)
    requires IdsAgree(queue, exits, nextId, issued) && id in queue && !exit.Served?
    ensures id !in exits && IdsAgree(queue - {id}, exits[id := exit], nextId, issued)
    ensures exits[id := exit].Keys == exits.Keys + {id}
  {
  }

  lemma {:induction false} ServedKeeps(queue: set<nat>, exits: map<nat, Exit>, nextId: nat, issued: set<nat>, id: nat)
    requires IdsAgree(queue, exits, nextId, issued) && id in exits
    ensures IdsAgree(queue, exits[id := Served], nextId, issued + {id})
  {
  }

  // What decides who may leave the queue, and in which order.
  datatype Rules = Rules(policy: SchedulingPolicy, classify: ScheduleRequest -> Complexity)

  // `p` arrived before `q`, and nothing but the time of arrival tells them apart.
  ghost predicate Ahead(rules: Rules, p: Pending, idP: nat, q: Pending, idQ: nat) {
    && SameClass(rules.policy, p.request, rules.classify(p.request), q.request, rules.classify(q.request))
    && p.input == q.input && p.output == q.output
    && (p.enqueuedAt < q.enqueuedAt || (p.enqueuedAt == q.enqueuedAt && idP < idQ))
  }

  ghost predicate NobodyAhead(rules: Rules, queue: map<nat, Pending>, listening: set<nat>, q: Pending, id: nat) {
    forall other | other in queue && other in listening :: !Ahead(rules, queue[other], other, q, id)
  }

  /** Entries only left the queue, each once and for a reason: served in its turn, too big for a matching rule, or not
      listened to. Nobody was served while an earlier one of its class still waits and listens. */
  ghost predicate Drained(
    rules: Rules, before: map<nat, Pending>, after: map<nat, Pending>,
    exitsBefore: map<nat, Exit>, exits: map<nat, Exit>, listening: set<nat>)
  {
    && (forall id | id in after :: id in before && after[id] == before[id])
    && (forall id | id in exitsBefore :: id in exits && exits[id] == exitsBefore[id])
    && forall id | id in before && id !in after ::
         && id in exits && id !in exitsBefore
         && LeftWith(rules, before[id], id, exits[id], after, listening)
  }

  ghost predicate LeftWith(
    rules: Rules, p: Pending, id: nat, exit: Exit, after: map<nat, Pending>, listening: set<nat>)
  {
    match exit
    case Served => NobodyAhead(rules, after, listening, p, id)
    case Rejected => Oversized(rules.policy.limits, p.request.who, p.input, p.output)
    case Cancelled => id !in listening
    case TimedOut => false
  }

  lemma {:induction false} StillLeft(
    rules: Rules, p: Pending, id: nat, exit: Exit, after: map<nat, Pending>, listening: set<nat>,
    later: map<nat, Pending>, fewer: set<nat>)
    requires LeftWith(rules, p, id, exit, after, listening) && fewer <= listening
    requires forall other | other in later :: other in after && later[other] == after[other]
    ensures LeftWith(rules, p, id, exit, later, fewer)
  {
    hide Ahead, Oversized;
  }

  lemma {:induction false} DrainedNothing(
    rules: Rules, pending: map<nat, Pending>, exits: map<nat, Exit>, listening: set<nat>)
    ensures Drained(rules, pending, pending, exits, exits, listening)
  {
  }

  lemma {:induction false} DrainedTrans(
    rules: Rules, a: map<nat, Pending>, b: map<nat, Pending>, c: map<nat, Pending>,
    exitsA: map<nat, Exit>, exitsB: map<nat, Exit>, exitsC: map<nat, Exit>, listening: set<nat>, fewer: set<nat>)
    requires Drained(rules, a, b, exitsA, exitsB, listening) && Drained(rules, b, c, exitsB, exitsC, fewer)
    requires fewer <= listening
    ensures Drained(rules, a, c, exitsA, exitsC, fewer)
  {
    hide LeftWith;
    forall id | id in a && id !in b ensures LeftWith(rules, a[id], id, exitsC[id], c, fewer) {
      StillLeft(rules, a[id], id, exitsB[id], b, listening, c, fewer);
    }
  }

  lemma {:induction false} DrainedOne(
    rules: Rules, pending: map<nat, Pending>, exits: map<nat, Exit>, listening: set<nat>, id: nat, exit: Exit)
    requires id in pending && id !in exits && LeftWith(rules, pending[id], id, exit, pending - {id}, listening)
    ensures Drained(rules, pending, pending - {id}, exits, exits[id := exit], listening)
  {
    hide LeftWith;
  }

  lemma {:induction false} DrainedKeeps(
    rules: Rules, before: map<nat, Pending>, after: map<nat, Pending>,
    exitsBefore: map<nat, Exit>, exits: map<nat, Exit>, listening: set<nat>)
    requires Drained(rules, before, after, exitsBefore, exits, listening)
    ensures forall id | id in after :: id in before && after[id] == before[id]
    ensures forall id | id in exitsBefore :: id in exits && exits[id] == exitsBefore[id]
  {
  }

  /** Draining is in order over any number of passes: an identifier that was dispatched meanwhile was queued before, and
      nobody of its class that arrived earlier still waits and listens. */
  lemma {:induction false} IssuedInTurn(
    rules: Rules, before: map<nat, Pending>, after: map<nat, Pending>,
    exitsBefore: map<nat, Exit>, exits: map<nat, Exit>, listening: set<nat>,
    nextId: nat, issuedBefore: set<nat>, issued: set<nat>, a: nat, b: nat)
    requires IdsAgree(before.Keys, exitsBefore, nextId, issuedBefore) && IdsAgree(after.Keys, exits, nextId, issued)
    requires Drained(rules, before, after, exitsBefore, exits, listening)
    requires b in issued && b !in issuedBefore && a in after && a in listening
    ensures a in before && b in before && !Ahead(rules, before[a], a, before[b], b)
  {
    hide Ahead;
  }

  // Each of `refused` is gone, or asks for more than some matching rule can ever give.
  ghost predicate Refusable(
    limits: seq<QuotaLimit>, pending: map<nat, Pending>, listening: set<nat>, refused: set<nat>) {
    forall id | id in refused ::
      && id in pending
      && (id in listening ==> Oversized(limits, pending[id].request.who, pending[id].input, pending[id].output))
  }

  // No listener asks for more than a matching rule can ever give.
  ghost predicate NoneOversized(limits: seq<QuotaLimit>, pending: map<nat, Pending>, listening: set<nat>) {
    forall id | id in pending && id in listening ::
      !Oversized(limits, pending[id].request.who, pending[id].input, pending[id].output)
  }

  lemma {:induction false} FewerNoneOversized(
    limits: seq<QuotaLimit>, pending: map<nat, Pending>, gone: set<nat>, listening: set<nat>, fewer: set<nat>)
    requires NoneOversized(limits, pending, listening) && fewer <= listening
    ensures NoneOversized(limits, pending, fewer) && NoneOversized(limits, pending - gone, fewer)
  {
  }

  lemma {:induction false} RefusedNext(
    rules: Rules, before: map<nat, Pending>, mid: map<nat, Pending>, listeners: set<nat>, refused: set<nat>,
    exitsBefore: map<nat, Exit>, exits: map<nat, Exit>, listening: set<nat>, fewer: set<nat>, id: nat)
    requires Refusable(rules.policy.limits, before, listeners, refused) && id in refused
    requires Drained(rules, before, mid, exitsBefore, exits, listening) && fewer <= listening <= listeners
    requires id in mid && id !in exits
    ensures var exit := if id in fewer then Rejected else Cancelled;
            Drained(rules, before, mid - {id}, exitsBefore, exits[id := exit], fewer)
  {
    var exit := if id in fewer then Rejected else Cancelled;
    DrainedKeeps(rules, before, mid, exitsBefore, exits, listening);
    DrainedOne(rules, mid, exits, fewer, id, exit);
    hide Drained;
    DrainedTrans(rules, before, mid, mid - {id}, exitsBefore, exits, exits[id := exit], listening, fewer);
  }

  // Nobody in `queue` who is in `seen` and listens can be dispatched before `due`, with the queue opening at `opens`.
  ghost predicate AllDormant(
    limits: seq<QuotaLimit>, events: seq<UsageEvent>, pacing: map<PacingKey, Instant>, active: map<nat, Scope>,
    queue: map<nat, Pending>, opens: Option<Instant>, seen: set<nat>, listeners: set<nat>, due: Option<Instant>,
    now: Instant)
  {
    forall id, t: Instant |
      id in queue && id in seen && id in listeners && now <= t && (opens.Some? ==> t >= opens.value) &&
      Dispatchable(limits, events, pacing, active, queue[id].request.who, queue[id].input, queue[id].output, t) ::
      due.Some? && t >= due.value
  }

  // Fewer entries and listeners stay dormant.
  lemma {:induction false} StillDormant(
    limits: seq<QuotaLimit>, events: seq<UsageEvent>, pacing: map<PacingKey, Instant>, active: map<nat, Scope>,
    queue: map<nat, Pending>, fewerQueued: map<nat, Pending>, opens: Option<Instant>, listeners: set<nat>,
    fewer: set<nat>,
    due: Option<Instant>, now: Instant)
    requires AllDormant(limits, events, pacing, active, queue, opens, queue.Keys, listeners, due, now)
    requires fewer <= listeners
    requires forall id | id in fewerQueued :: id in queue && fewerQueued[id] == queue[id]
    ensures AllDormant(limits, events, pacing, active, fewerQueued, opens, fewerQueued.Keys, fewer, due, now)
  {
  }

  lemma {:induction false} MinusNext<K, V>(m: map<K, V>, gone: set<K>, k: K)
    ensures m - (gone + {k}) == m - gone - {k}
  {
  }

  lemma {:induction false} MinusKeys(m: map<nat, Pending>, id: nat)
    ensures (m - {id}).Keys == m.Keys - {id} && |m - {id}| == |m| - (if id in m then 1 else 0)
    ensures id !in m ==> m - {id} == m
  {
    assert (m - {id}).Keys == m.Keys - {id};
    assert |m.Keys| == |m| && |(m - {id}).Keys| == |m - {id}|;
  }

  lemma {:induction false} PutTwice<K, V>(m: map<K, V>, k: K, a: V, b: V)
    ensures m[k := a][k := b] == m[k := b]
  {
  }
}
