/** What tasks hold outside the scheduler's lock: receivers, unread outcomes, permits, and the clean-up tasks that
    dropped permits and cancelled waiters spawn (src/scheduling.rs: oneshot channels, PermitLease, PendingGuard). */
module Waiters {
  import opened Basics
  import opened Ledger
  import opened Priority

  // A permit's lease is armed while its id is unread, held or releasing in `Tasks`.
  datatype Permit = Permit(
    reservation: Option<nat>, who: Scope, sessionId: Option<string>, interaction: InteractionKind,
    input: nat, output: nat, waited: Duration)

  datatype Outcome =
    | Dispatched(permit: Permit)
    | RecommendBatch(reason: Reason, retryAfter: Option<Duration>)
    | RetryExhausted(reason: Reason, retryAfter: Option<Duration>)

  // The outcome is a permit for exactly what the event charges.
  predicate Carries(outcome: Outcome, e: UsageEvent) {
    && outcome.Dispatched? && outcome.permit.reservation == Some(e.id)
    && outcome.permit.who == e.who && outcome.permit.input == e.input && outcome.permit.output == e.output
  }

  datatype Tasks = Tasks(
    listening: set<nat>,           // waiters whose receiver is alive
    mailbox: map<nat, Outcome>,    // outcomes sent and not yet received
    held: set<nat>,                // permits in callers' hands
    releasing: set<nat>,           // release tasks spawned by dropped permits
    cancelling: set<nat>           // clean-up tasks spawned by cancelled waiters
  ) {
    predicate IsUnread(id: nat) {
      id in mailbox && mailbox[id].Dispatched?
    }

    // The receivers of `gone` disappear: their unread permits are dropped and, unless `disarmed`, clean-up is spawned.
    function Lose(gone: set<nat>, disarmed: bool): Tasks {
      Tasks(listening - gone, mailbox - gone, held,
            releasing + (set id | id in gone && IsUnread(id)),
            if disarmed then cancelling else cancelling + gone)
    }

    function Send(id: nat, outcome: Outcome): Tasks {
      this.(mailbox := mailbox[id := outcome])
    }

    // The waiter reads its outcome; a permit is now in the caller's hands.
    function Receive(id: nat): Tasks
      requires id in mailbox
    {
      Tasks(listening - {id}, mailbox - {id}, if IsUnread(id) then held + {id} else held, releasing, cancelling)
    }

    // A permit in the caller's hands is dropped with its lease armed.
    function DropPermit(id: nat): Tasks {
      this.(held := held - {id}, releasing := releasing + {id})
    }
  }

  const NO_TASKS := Tasks({}, map[], {}, {}, {})

  /** Each permit in flight is in one place; a waiter is queued or has mail; a queued entry nobody listens to has a
      clean-up task; and nothing outside the queue is known by an id the queue still holds. */
  ghost predicate TasksOk(t: Tasks, queue: set<nat>, inFlight: set<nat>, known: set<nat>) {
    && (forall id | id in inFlight :: id in known && (t.IsUnread(id) || id in t.held || id in t.releasing))
    && (forall id | id in t.held :: id in inFlight && id !in t.releasing && id !in t.mailbox)
    && (forall id | id in t.releasing :: id in known && id !in t.mailbox)
    && (forall id | id in t.mailbox :: id in known && id in t.listening)
    && (forall id | t.IsUnread(id) :: id in inFlight && t.mailbox[id].permit.reservation == Some(id))
    && (forall id | id in t.listening :: id in queue || id in t.mailbox)
    && (forall id | id in queue :: id !in known && (id in t.listening || id in t.cancelling))
    && (forall id | id in t.cancelling :: id !in t.listening && (id in queue || id in known))
  }

  lemma {:induction false} LoseKeeps(t: Tasks, queue: set<nat>, inFlight: set<nat>, known: set<nat>, gone: set<nat>)
    requires TasksOk(t, queue, inFlight, known) && gone <= t.listening
    ensures TasksOk(t.Lose(gone, false), queue, inFlight, known)
  {
  }

  lemma {:induction false} LoseTwice(t: Tasks, gone: set<nat>, more: set<nat>)
    requires gone !! more
    ensures t.Lose(gone, false).Lose(more, false) == t.Lose(gone + more, false)
  {
    var a, b := t.Lose(gone, false).Lose(more, false), t.Lose(gone + more, false);
    assert a.listening == b.listening && a.mailbox == b.mailbox;
    assert a.releasing == b.releasing && a.cancelling == b.cancelling;
  }

  // The same tasks once only `listening` are still there.
  function Later(t: Tasks, listening: set<nat>): Tasks {
    t.Lose(t.listening - listening, false)
  }

  lemma {:induction false} LaterRefl(t: Tasks)
    ensures Later(t, t.listening) == t
  {
    var l := Later(t, t.listening);
    assert l.listening == t.listening && l.mailbox == t.mailbox && l.releasing == t.releasing;
    assert l.cancelling == t.cancelling;
  }

  lemma {:induction false} LaterTrans(t: Tasks, some: set<nat>, fewer: set<nat>)
    requires fewer <= some <= t.listening
    ensures Later(Later(t, some), fewer) == Later(t, fewer)
  {
    assert t.listening - (t.listening - some) == some;
    LoseTwice(t, t.listening - some, some - fewer);
    assert (t.listening - some) + (some - fewer) == t.listening - fewer;
  }

  // The waiters in `told` have `news` in their mailboxes, unless they are gone; other mail is as it was.
  ghost predicate Told(from: Tasks, to: Tasks, told: set<nat>, news: map<nat, Outcome>) {
    && to.listening <= from.listening
    && (forall id :: id in to.mailbox <==> id in to.listening && (id in from.mailbox || id in told))
    && forall id | id in to.mailbox ::
         if id in told then id in news && to.mailbox[id] == news[id] else to.mailbox[id] == from.mailbox[id]
  }

  lemma {:induction false} ToldNext(a: Tasks, b: Tasks, c: Tasks, told: set<nat>, news: map<nat, Outcome>, id: nat)
    requires Told(a, b, told, news) && c.listening <= b.listening && id in news
    requires c == var t := Later(b, c.listening); if id in c.listening then t.Send(id, news[id]) else t
    ensures Told(a, c, told + {id}, news)
  {
  }

  // A waiter leaves on its own, having disarmed its guard; its entry is out of the queue by then.
  lemma {:induction false} LeaveKeeps(t: Tasks, queue: set<nat>, inFlight: set<nat>, known: set<nat>, id: nat)
    requires TasksOk(t, queue, inFlight, known) && id !in queue && id in known
    ensures TasksOk(t.Lose({id}, true), queue, inFlight, known)
  {
  }

  // The same when the waiter takes its own entry out of the queue.
  lemma {:induction false} WithdrawKeeps(t: Tasks, queue: set<nat>, inFlight: set<nat>, known: set<nat>, id: nat)
    requires TasksOk(t, queue, inFlight, known) && id in t.listening
    ensures TasksOk(t.Lose({id}, true), queue - {id}, inFlight, known + {id})
  {
  }

  lemma {:induction false} SendKeeps(
    t: Tasks, queue: set<nat>, inFlight: set<nat>, known: set<nat>, id: nat, outcome: Outcome)
    requires TasksOk(t, queue, inFlight, known) && id in queue && id in t.listening
    requires outcome.Dispatched? ==> outcome.permit.reservation == Some(id)
    ensures var inFlight' := if outcome.Dispatched? then inFlight + {id} else inFlight;
            TasksOk(t.Send(id, outcome), queue - {id}, inFlight', known + {id})
  {
  }

  lemma {:induction false} ClosedKeeps(t: Tasks, queue: set<nat>, inFlight: set<nat>, known: set<nat>, id: nat)
    requires TasksOk(t, queue, inFlight, known) && id in queue && id !in t.listening
    ensures TasksOk(t, queue - {id}, inFlight, known + {id})
    ensures TasksOk(t.(releasing := t.releasing + {id}), queue - {id}, inFlight, known + {id})
  {
  }

  lemma {:induction false} EnqueueKeeps(t: Tasks, queue: set<nat>, inFlight: set<nat>, known: set<nat>, id: nat)
    requires TasksOk(t, queue, inFlight, known) && id !in queue && id !in known
    ensures TasksOk(t.(listening := t.listening + {id}), queue + {id}, inFlight, known)
  {
  }

  lemma {:induction false} ReceiveKeeps(t: Tasks, queue: set<nat>, inFlight: set<nat>, known: set<nat>, id: nat)
    requires TasksOk(t, queue, inFlight, known) && id in t.mailbox
    ensures TasksOk(t.Receive(id), queue, inFlight, known)
  {
  }

  lemma {:induction false} DropPermitKeeps(t: Tasks, queue: set<nat>, inFlight: set<nat>, known: set<nat>, id: nat)
    requires TasksOk(t, queue, inFlight, known) && id in t.held
    ensures TasksOk(t.DropPermit(id), queue, inFlight, known)
  {
  }

  // `complete` and `abort` disarm the lease of a held permit and take it out of flight.
  lemma {:induction false} SettleKeeps(t: Tasks, queue: set<nat>, inFlight: set<nat>, known: set<nat>, id: nat)
    requires TasksOk(t, queue, inFlight, known) && id in t.held
    ensures TasksOk(t.(held := t.held - {id}), queue, inFlight - {id}, known)
  {
  }

  lemma {:induction false} ReleaseKeeps(t: Tasks, queue: set<nat>, inFlight: set<nat>, known: set<nat>, id: nat)
    requires TasksOk(t, queue, inFlight, known) && id in t.releasing
    ensures TasksOk(t.(releasing := t.releasing - {id}), queue, inFlight - {id}, known)
  {
  }

  lemma {:induction false} CleanUpKeeps(t: Tasks, queue: set<nat>, inFlight: set<nat>, known: set<nat>, id: nat)
    requires TasksOk(t, queue, inFlight, known) && id in t.cancelling
    ensures var known' := if id in queue then known + {id} else known;
            TasksOk(t.(cancelling := t.cancelling - {id}), queue - {id}, inFlight, known')
  {
  }
}
