/** What the scheduler has done so far, and the never-forgetting ledger, pacing slots and in-flight set it implies.
    A history is legal when every dispatch passed admission at its own instant; the lemmas are about every legal
    history, and the `Scheduler` class keeps a legal one (src/scheduling.rs: dispatch_ready, complete, abort). */
module History {
  import opened Basics
  import opened Policy
  import opened Ledger
  import opened Pacing
  import opened Admission

  datatype Step =
    | Dispatch(event: UsageEvent)                                  // quota charged, slot taken
    | Settle(id: nat, input: Option<nat>, output: Option<nat>)     // `complete`: usage reported, slot freed
    | Undo(id: nat)                                                // `abort`: charge and slot taken back
    | Release(id: nat)                                             // dropped permit: slot freed, charge kept

  datatype History = Start | Then(past: History, step: Step)

  // ---- Ledger edits ----

  function Remove(log: seq<UsageEvent>, id: nat): seq<UsageEvent> {
    if log == [] then []
    else if log[0].id == id then Remove(log[1..], id)
    else [log[0]] + Remove(log[1..], id)
  }

  function Reported(e: UsageEvent, input: Option<nat>, output: Option<nat>): UsageEvent {
    e.(input := input.GetOr(e.input), output := output.GetOr(e.output))
  }

  // Overwrite the tokens of the first event with this id.
  function Reconcile(log: seq<UsageEvent>, id: nat, input: Option<nat>, output: Option<nat>): seq<UsageEvent> {
    if log == [] then []
    else if log[0].id == id then [Reported(log[0], input, output)] + log[1..]
    else [log[0]] + Reconcile(log[1..], id, input, output)
  }

  // ---- What a history implies ----

  // Every dispatch not aborted, with its tokens as last reported.
  function Log(h: History): seq<UsageEvent> {
    match h
    case Start => []
    case Then(past, step) =>
      match step
      case Dispatch(e) => Log(past) + [e]
      case Settle(id, input, output) => Reconcile(Log(past), id, input, output)
      case Undo(id) => Remove(Log(past), id)
      case Release(_) => Log(past)
  }

  // The pacing slot `k`, charged by every dispatch and replayed from the whole log after an abort.
  function Pace(limits: seq<QuotaLimit>, h: History, k: PacingKey): Instant {
    match h
    case Start => 0
    case Then(past, step) =>
      match step
      case Dispatch(e) => Charged(Pace(limits, past, k), e.at, BillOf(limits, k, e))
      case Undo(_) => Replay(limits, Log(h), k, 0)
      case _ => Pace(limits, past, k)
  }

  // The requests in flight.
  function Active(h: History): map<nat, Scope> {
    match h
    case Start => map[]
    case Then(past, step) =>
      match step
      case Dispatch(e) => Active(past)[e.id := e.who]
      case Settle(id, _, _) => Active(past) - {id}
      case Undo(id) => Active(past) - {id}
      case Release(id) => Active(past) - {id}
  }

  // Every id ever dispatched.
  function Issued(h: History): set<nat> {
    match h
    case Start => {}
    case Then(past, step) => if step.Dispatch? then Issued(past) + {step.event.id} else Issued(past)
  }

  // The instant of the latest dispatch.
  function Time(h: History): Instant {
    match h
    case Start => 0
    case Then(past, step) => if step.Dispatch? then step.event.at else Time(past)
  }

  predicate NoAborts(h: History) {
    h.Then? ==> !h.step.Undo? && NoAborts(h.past)
  }

  // No completion reported more tokens than the ledger held for it.
  predicate NoOverReport(h: History) {
    h.Then? ==>
      && NoOverReport(h.past)
      && (h.step.Settle? ==>
            forall e | e in Log(h.past) && e.id == h.step.id ::
              Reported(e, h.step.input, h.step.output).input <= e.input &&
              Reported(e, h.step.input, h.step.output).output <= e.output)
  }

  // No completion changed the tokens the ledger held for it.
  predicate NeverReconciled(h: History) {
    h.Then? ==>
      && NeverReconciled(h.past)
      && (h.step.Settle? ==>
            forall e | e in Log(h.past) && e.id == h.step.id :: Reported(e, h.step.input, h.step.output) == e)
  }

  // No abort came after a completion that reported more than the ledger held for it.
  predicate NoAbortAfterOverReport(h: History) {
    h.Then? ==> NoAbortAfterOverReport(h.past) && (h.step.Undo? ==> NoOverReport(h.past))
  }

  lemma {:induction false} EitherIsEnough(h: History)
    requires NoOverReport(h) || NoAborts(h)
    ensures NoAbortAfterOverReport(h)
  {
    if h.Then? {
      EitherIsEnough(h.past);
    }
  }

  // No completion reported more than the slot `k` had been charged for.
  predicate NeverDearer(limits: seq<QuotaLimit>, h: History, k: PacingKey) {
    h.Then? ==>
      && NeverDearer(limits, h.past, k)
      && (h.step.Settle? ==>
            forall e | e in Log(h.past) && e.id == h.step.id ::
              Cheaper(BillOf(limits, k, Reported(e, h.step.input, h.step.output)), BillOf(limits, k, e)))
  }

  // The slot `k` of a pruned scheduler can be relied on: no abort replayed it after a report that made it dearer.
  predicate Trusted(limits: seq<QuotaLimit>, h: History, k: PacingKey) {
    h.Then? ==> Trusted(limits, h.past, k) && (h.step.Undo? ==> NeverDearer(limits, h.past, k))
  }

  function TrustedSlots(limits: seq<QuotaLimit>, h: History): PacingKey -> Instant {
    k => if Trusted(limits, h, k) then Pace(limits, h, k) else 0
  }

  lemma {:induction false} BillMonotone(limits: seq<QuotaLimit>, k: PacingKey, e: UsageEvent, reported: UsageEvent)
    requires reported.who == e.who
    requires k.metric.Requests? || (reported.input <= e.input && reported.output <= e.output)
    ensures Cheaper(BillOf(limits, k, reported), BillOf(limits, k, e))
  {
    if k.rule < |limits| {
      CostMonotone(limits[k.rule], k.metric, e.input, e.output, reported.input, reported.output);
    }
  }

  // Request slots are never dearer, and no slot is unless some completion over-reports.
  lemma {:induction false} NotDearer(limits: seq<QuotaLimit>, h: History, k: PacingKey)
    requires k.metric.Requests? || NoOverReport(h)
    ensures NeverDearer(limits, h, k)
  {
    if h.Then? {
      NotDearer(limits, h.past, k);
      if h.step.Settle? {
        forall e | e in Log(h.past) && e.id == h.step.id
          ensures Cheaper(BillOf(limits, k, Reported(e, h.step.input, h.step.output)), BillOf(limits, k, e))
        {
          BillMonotone(limits, k, e, Reported(e, h.step.input, h.step.output));
        }
      }
    }
  }

  // A slot that no report made dearer is trusted whatever is aborted, and without aborts every slot is.
  lemma {:induction false} CheapIsTrusted(limits: seq<QuotaLimit>, h: History, k: PacingKey)
    requires NeverDearer(limits, h, k) || NoAborts(h)
    ensures Trusted(limits, h, k)
  {
    if h.Then? {
      CheapIsTrusted(limits, h.past, k);
    }
  }

  // As long as no abort comes after an over-report, all slots are trusted; request slots always are.
  lemma {:induction false} AllTrusted(limits: seq<QuotaLimit>, h: History, k: PacingKey)
    requires k.metric.Requests? || NoAbortAfterOverReport(h)
    ensures Trusted(limits, h, k)
  {
    if h.Then? {
      AllTrusted(limits, h.past, k);
      if h.step.Undo? {
        NotDearer(limits, h.past, k);
      }
    }
  }

  ghost predicate Admitted(limits: seq<QuotaLimit>, h: History, e: UsageEvent) {
    && Admits(limits, Log(h), TrustedSlots(limits, h), e.who, e.input, e.output, e.at)
    && SlotFree(limits, Active(h), e.who)
  }

  ghost predicate LegalStep(limits: seq<QuotaLimit>, h: History, step: Step) {
    match step
    case Dispatch(e) => e.id !in Issued(h) && Time(h) <= e.at && Admitted(limits, h, e)
    case Settle(id, _, _) => id in Active(h)
    case Undo(id) => id in Active(h)
    case Release(id) => id in Active(h)
  }

  ghost predicate Legal(limits: seq<QuotaLimit>, h: History) {
    h.Then? ==> Legal(limits, h.past) && LegalStep(limits, h.past, h.step)
  }

  // ---- Shape of the log ----

  predicate Sorted(log: seq<UsageEvent>) {
    forall i, j | 0 <= i < j < |log| :: log[i].at <= log[j].at
  }

  predicate DistinctIds(log: seq<UsageEvent>) {
    forall i, j | 0 <= i < j < |log| :: log[i].id != log[j].id
  }

  lemma {:induction false} RemoveMembers(log: seq<UsageEvent>, id: nat)
    ensures forall e :: e in Remove(log, id) <==> e in log && e.id != id
  {
    if log != [] {
      RemoveMembers(log[1..], id);
      assert log == [log[0]] + log[1..];
    }
  }

  lemma {:induction false} RemoveKeepsOrder(log: seq<UsageEvent>, id: nat)
    requires Sorted(log)
    ensures Sorted(Remove(log, id))
  {
    if log != [] {
      RemoveKeepsOrder(log[1..], id);
      RemoveMembers(log[1..], id);
      var rest := Remove(log[1..], id);
      assert forall j | 0 <= j < |rest| :: rest[j] in log[1..];
    }
  }

  lemma {:induction false} RemoveKeepsIds(log: seq<UsageEvent>, id: nat)
    requires DistinctIds(log)
    ensures DistinctIds(Remove(log, id))
  {
    if log != [] {
      RemoveKeepsIds(log[1..], id);
      RemoveMembers(log[1..], id);
      var rest := Remove(log[1..], id);
      assert forall j | 0 <= j < |rest| :: rest[j] in log[1..];
    }
  }

  lemma {:induction false} ReconcileShape(log: seq<UsageEvent>, id: nat, input: Option<nat>, output: Option<nat>)
    ensures |Reconcile(log, id, input, output)| == |log|
    ensures forall i | 0 <= i < |log| ::
              Reconcile(log, id, input, output)[i] == log[i] ||
              (log[i].id == id && Reconcile(log, id, input, output)[i] == Reported(log[i], input, output))
  {
    if log != [] && log[0].id != id {
      ReconcileShape(log[1..], id, input, output);
    }
  }

  lemma {:induction false} LogShape(limits: seq<QuotaLimit>, h: History)
    requires Legal(limits, h)
    ensures Sorted(Log(h)) && DistinctIds(Log(h))
    ensures forall e | e in Log(h) :: e.id in Issued(h) && e.at <= Time(h)
    ensures Active(h).Keys <= Issued(h)
  {
    hide Admitted, Pace, Trusted;
    if h.Then? {
      LogShape(limits, h.past);
      match h.step
      case Dispatch(e) =>
      case Settle(id, input, output) => ReconcileShape(Log(h.past), id, input, output);
      case Undo(id) =>
        RemoveMembers(Log(h.past), id);
        RemoveKeepsOrder(Log(h.past), id);
        RemoveKeepsIds(Log(h.past), id);
      case Release(id) =>
    }
  }
}
