/** The jobs table and the provider as every process sees them: a trace of atomic operations by any number of workers,
    stale or not, that may stop anywhere (src/db.rs: the compare-and-set updates; src/driver.rs: advance). */
module World {
  import opened Basics
  import opened Json
  import opened Jobs
  import opened Provider
  import opened BatchOutput

  type WorkerId = nat

  datatype Operation =
    | Insert(id: JobId, model: string)
    | MarkUploaded(id: JobId, file: FileId)
    | BeginSubmission(worker: WorkerId, id: JobId, file: FileId, at: Timestamp)
    | MarkUncertain(id: JobId)
    | MarkSubmitted(id: JobId, expected: JobState, batch: BatchId)
    | StoreOutcome(id: JobId, expected: JobState, outcome: StoredOutcome)
    | CreateBatch(worker: WorkerId, id: JobId, accepted: Option<BatchId>)   // accepted or not, the reply may be lost
    | HearBatch(id: JobId, batch: BatchId, answer: BatchObject)             // what the provider says of a batch
    | HearFile(id: JobId, file: FileId, content: Content)                   // what the provider says is in a file

  datatype Trace = Start | Then(past: Trace, op: Operation)

  type Table = map<JobId, RawJob>

  // ---- The effect of an operation on the table ----

  // The row the operation's WHERE clause selects.
  predicate Selects(rows: Table, op: Operation) {
    && op.id in rows
    && match op
       case MarkUploaded(id, _) => rows[id].status == IsQueued
       case BeginSubmission(_, id, file, _) => rows[id].status == IsUploaded && rows[id].inputFileId == Some(file)
       case MarkUncertain(id) => rows[id].status == IsSubmitting
       case MarkSubmitted(id, expected, _) => rows[id].status == StatusOf(expected)
       case StoreOutcome(id, expected, _) => rows[id].status == StatusOf(expected)
       case _ => false
  }

  function Updated(row: RawJob, op: Operation): RawJob {
    match op
    case MarkUploaded(_, file) => row.(status := IsUploaded, inputFileId := Some(file))
    case BeginSubmission(_, _, _, at) => row.(status := IsSubmitting, submissionStartedAt := Some(at))
    case MarkUncertain(_) => row.(status := IsSubmissionUncertain)
    case MarkSubmitted(_, _, batch) =>
      row.(status := IsSubmitted, inputFileId := None, submissionStartedAt := None, batchId := Some(batch))
    case StoreOutcome(_, _, outcome) =>
      row.(status := OutcomeStatus(outcome), inputFileId := None, batchId := None, submissionStartedAt := None,
           outcomeJson := Some(Printed(outcome.value)))
    case _ => row
  }

  function Effect(rows: Table, op: Operation): Table {
    if op.Insert? then (if op.id in rows then rows else rows[op.id := Encode(Job(op.id, op.model, Queued))])
    else if Selects(rows, op) then rows[op.id := Updated(rows[op.id], op)]
    else rows
  }

  function Rows(t: Trace): Table {
    match t
    case Start => map[]
    case Then(past, op) => Effect(Rows(past), op)
  }

  // What the table says about a job.
  function StateOf(rows: Table, id: JobId): Option<JobState> {
    if id in rows && Decode(rows[id]).Success? then Some(Decode(rows[id]).value.state) else None
  }

  // The table once said `state` about this job.
  predicate Seen(t: Trace, id: JobId, state: JobState) {
    StateOf(Rows(t), id) == Some(state) || (t.Then? && Seen(t.past, id, state))
  }

  // ---- What the provider has been asked ----

  function Creates(t: Trace, id: JobId): nat {
    match t
    case Start => 0
    case Then(past, op) => Creates(past, id) + (if op.CreateBatch? && op.id == id then 1 else 0)
  }

  // The batches the provider accepted, each with the job its metadata names.
  function Accepted(t: Trace): map<BatchId, JobId> {
    match t
    case Start => map[]
    case Then(past, op) =>
      if op.CreateBatch? && op.accepted.Some? then Accepted(past)[op.accepted.value := op.id] else Accepted(past)
  }

  // ---- What the provider has said ----

  // The provider said at some time that the batch had this status.
  predicate Said(t: Trace, batch: BatchId, status: string) {
    t.Then? &&
    ((t.op.HearBatch? && t.op.batch == batch && t.op.answer.status == status) || Said(t.past, batch, status))
  }

  // The output file of each batch, as far as the provider has named it.
  function Outputs(t: Trace): map<BatchId, FileId> {
    match t
    case Start => map[]
    case Then(past, op) =>
      if op.HearBatch? && op.answer.outputFileId.Some? then Outputs(past)[op.batch := op.answer.outputFileId.value]
      else Outputs(past)
  }

  // The contents of the files that were read.
  function Contents(t: Trace): map<FileId, Content> {
    match t
    case Start => map[]
    case Then(past, op) => if op.HearFile? then Contents(past)[op.file := op.content] else Contents(past)
  }

  // The provider said at some time that the batch had completed with nothing but an error file.
  predicate OnlyErrors(t: Trace, batch: BatchId) {
    t.Then? &&
    ((t.op.HearBatch? && t.op.batch == batch && t.op.answer.status == "completed"
      && t.op.answer.outputFileId.None? && t.op.answer.errorFileId.Some?) ||
     OnlyErrors(t.past, batch))
  }

  // The batch's output file was read.
  predicate OutputKnown(t: Trace, batch: BatchId) {
    batch in Outputs(t) && Outputs(t)[batch] in Contents(t)
  }

  // The outcome comes from this batch. An expired or cancelled one was said to have ended so. A completed or incomplete
  // one is the body of the job's first record in the output file of a completed batch. A failed one is such a body too,
  // or the batch was said to have failed or to have completed with an error file only, or the job's first record has an
  // error or a status that is not 2xx.
  predicate ComesFrom(t: Trace, id: JobId, outcome: StoredOutcome, batch: BatchId) {
    match outcome
    case Expired(_) => Said(t, batch, "expired")
    case Cancelled(_) => Said(t, batch, "cancelled")
    case Completed(_) => BodyFrom(t, id, outcome, batch)
    case Incomplete(_) => BodyFrom(t, id, outcome, batch)
    case Failed(_) =>
      || Said(t, batch, "failed") || OnlyErrors(t, batch) || BodyFrom(t, id, outcome, batch)
      || (Said(t, batch, "completed") && OutputKnown(t, batch) &&
            OutputRefused(Contents(t)[Outputs(t)[batch]], CustomIdOf(id)))
  }

  predicate BodyFrom(t: Trace, id: JobId, outcome: StoredOutcome, batch: BatchId) {
    && Said(t, batch, "completed") && OutputKnown(t, batch)
    && OutputSays(Contents(t)[Outputs(t)[batch]], CustomIdOf(id), outcome)
  }

  // The worker's own `begin_submission` succeeded, and it has not called the provider since.
  predicate Licensed(t: Trace, worker: WorkerId, id: JobId) {
    t.Then? &&
    if t.op.BeginSubmission? && t.op.worker == worker && t.op.id == id && Selects(Rows(t.past), t.op) then true
    else if t.op.CreateBatch? && t.op.worker == worker && t.op.id == id then false
    else Licensed(t.past, worker, id)
  }

  // ---- What a worker may do ----

  predicate LegalOp(t: Trace, op: Operation) {
    match op
    case MarkSubmitted(id, expected, batch) =>
      && (expected.Submitting? || expected.SubmissionUncertain?) && Seen(t, id, expected)
      && batch in Accepted(t) && Accepted(t)[batch] == id
    case StoreOutcome(id, expected, outcome) =>
      && !expected.Terminal? && Seen(t, id, expected)
      && (!IsOwnFailure(outcome) ==> expected.Submitted? && ComesFrom(t, id, outcome, expected.batch))
    case HearBatch(_, batch, answer) =>
      answer.outputFileId.Some? && batch in Outputs(t) ==> Outputs(t)[batch] == answer.outputFileId.value
    case HearFile(_, file, content) => file in Contents(t) ==> Contents(t)[file] == content
    case CreateBatch(worker, id, accepted) =>
      && Licensed(t, worker, id)
      && (accepted.Some? ==> accepted.value !in Accepted(t))
    case _ => true
  }

  predicate Legal(t: Trace) {
    t.Then? ==> Legal(t.past) && LegalOp(t.past, t.op)
  }

  // ---- The table stays well formed and only moves forward ----

  /** A row that satisfies the CHECK constraint satisfies it after every operation a worker may perform, reads back as
      the state that operation stands for, and is further along than it was. */
  lemma {:induction false} UpdatedRow(row: RawJob, op: Operation, rows: Table, t: Trace)
    requires op.id in rows && rows[op.id] == row && RowOk(row) && Selects(rows, op) && LegalOp(t, op)
    ensures RowOk(Updated(row, op)) && Updated(row, op).id == row.id && Updated(row, op).model == row.model
    ensures var was, now := Decode(row).value.state, Decode(Updated(row, op)).value.state;
            && Rank(was) < Rank(now)
            && match op
               case MarkUploaded(_, file) => now == Uploaded(file)
               case BeginSubmission(_, _, file, at) => was == Uploaded(file) && now == Submitting(file, at)
               case MarkUncertain(_) => was.Submitting? && now == SubmissionUncertain(was.file, was.startedAt)
               case MarkSubmitted(_, _, batch) => now == Submitted(batch)
               case StoreOutcome(_, _, outcome) => now == Terminal(outcome)
               case _ => false
  {
    hide ComesFrom, Seen, Accepted, Licensed, IsOwnFailure;
    RowsAreJobs(Job("", "", Queued), row);
    match op
    case StoreOutcome(_, expected, outcome) =>
      assert !row.status.Final();
    case MarkSubmitted(_, expected, _) =>
    case _ =>
  }

  lemma {:induction false} RowsStayOk(t: Trace)
    requires Legal(t)
    ensures forall id | id in Rows(t) :: RowOk(Rows(t)[id]) && Rows(t)[id].id == id
  {
    if t.Then? {
      RowsStayOk(t.past);
      if t.op.Insert? {
        RowsAreJobs(Job(t.op.id, t.op.model, Queued), Encode(Job(t.op.id, t.op.model, Queued)));
      } else if Selects(Rows(t.past), t.op) {
        UpdatedRow(Rows(t.past)[t.op.id], t.op, Rows(t.past), t.past);
      }
    }
  }

  // One operation leaves a job's state as it was, creates it, or moves it strictly forward.
  lemma {:induction false} StepForward(t: Trace, id: JobId)
    requires Legal(t) && t.Then? && id in Rows(t.past)
    ensures id in Rows(t) && StateOf(Rows(t.past), id).Some? && StateOf(Rows(t), id).Some?
    ensures var was, now := StateOf(Rows(t.past), id).value, StateOf(Rows(t), id).value;
            now == was || (Rank(was) < Rank(now) && t.op.id == id && Selects(Rows(t.past), t.op))
  {
    RowsStayOk(t.past);
    if Selects(Rows(t.past), t.op) && t.op.id == id {
      UpdatedRow(Rows(t.past)[id], t.op, Rows(t.past), t.past);
    }
  }

  /** Every state a job was ever in is its present state or ranks strictly below it. */
  lemma {:induction false} NeverBack(t: Trace, id: JobId, state: JobState)
    requires Legal(t) && Seen(t, id, state)
    ensures StateOf(Rows(t), id).Some?
    ensures StateOf(Rows(t), id).value == state || Rank(state) < Rank(StateOf(Rows(t), id).value)
  {
    if StateOf(Rows(t), id) != Some(state) {
      NeverBack(t.past, id, state);
      StepForward(t, id);
    }
  }

  /** Comparing only the status is as strong as comparing the whole row: if the job was ever in the state a worker has
      cached and the status still matches, the job is in exactly that state. */
  lemma {:induction false} StatusDecides(t: Trace, id: JobId, cached: JobState)
    requires Legal(t) && Seen(t, id, cached) && !cached.Terminal?
    ensures id in Rows(t)
    ensures Rows(t)[id].status == StatusOf(cached) <==> StateOf(Rows(t), id) == Some(cached)
  {
    NeverBack(t, id, cached);
    RowsStayOk(t);
    RowsAreJobs(Job(id, "", Queued), Rows(t)[id]);
  }

  /** Terminal rows never change. */
  lemma {:induction false} TerminalForever(t: Trace, later: Trace, id: JobId)
    requires Legal(later) && Extends(t, later)
    requires StateOf(Rows(t), id).Some? && StateOf(Rows(t), id).value.Terminal?
    ensures id in Rows(t) && id in Rows(later) && Rows(later)[id] == Rows(t)[id]
  {
    if later != t {
      TerminalForever(t, later.past, id);
      StepForward(later, id);
    }
  }

  ghost predicate Extends(t: Trace, later: Trace) {
    later == t || (later.Then? && Extends(t, later.past))
  }

  // ---- At most one batch ----

  predicate NotBegun(rows: Table, id: JobId) {
    id in rows ==> rows[id].status.IsQueued? || rows[id].status.IsUploaded?
  }

  /** `create_batch` is called at most once for a job, over every trace: by any number of workers with stale caches,
      with replies lost, and with workers that stop anywhere. Nobody is licensed before the job is being submitted, at
      most one worker ever is, and its licence ends with its call. */
  lemma {:induction false} AtMostOneCreate(t: Trace, id: JobId, w: WorkerId, v: WorkerId)
    requires Legal(t)
    ensures Creates(t, id) <= 1
    ensures NotBegun(Rows(t), id) ==> Creates(t, id) == 0 && !Licensed(t, w, id)
    ensures Licensed(t, w, id) ==> Creates(t, id) == 0 && (Licensed(t, v, id) ==> v == w)
  {
    if t.Then? {
      AtMostOneCreate(t.past, id, w, v);
      AtMostOneCreate(t.past, id, v, w);
      if t.op.id == id {
        RowsStayOk(t.past);
        if t.op.CreateBatch? {
          AtMostOneCreate(t.past, id, t.op.worker, w);
          AtMostOneCreate(t.past, id, t.op.worker, v);
        } else if !t.op.Insert? && Selects(Rows(t.past), t.op) {
          UpdatedRow(Rows(t.past)[id], t.op, Rows(t.past), t.past);
        }
      }
    }
  }

  // Accepted batches for a job come from its creates.
  lemma {:induction false} AcceptedWereCreated(t: Trace, id: JobId, a: BatchId, b: BatchId)
    requires Legal(t)
    requires a in Accepted(t) && Accepted(t)[a] == id && b in Accepted(t) && Accepted(t)[b] == id
    ensures Creates(t, id) >= if a == b then 1 else 2
  {
    if t.op.CreateBatch? && t.op.accepted.Some? && t.op.accepted.value in {a, b} {
      var other := if t.op.accepted.value == a then b else a;
      if a != b {
        AcceptedWereCreated(t.past, id, other, other);
      }
    } else {
      AcceptedWereCreated(t.past, id, a, b);
    }
  }

  /** The batch in a submitted row is the one batch that carries this job's metadata. */
  lemma {:induction false} SubmittedBatchIsUnique(t: Trace, id: JobId, batch: BatchId, other: BatchId)
    requires Legal(t) && Seen(t, id, Submitted(batch))
    ensures batch in Accepted(t) && Accepted(t)[batch] == id
    ensures other in Accepted(t) && Accepted(t)[other] == id ==> other == batch
    ensures Creates(t, id) == 1
  {
    SubmittedWasAccepted(t, id, batch);
    AtMostOneCreate(t, id, 0, 0);
    AcceptedWereCreated(t, id, batch, batch);
    if other in Accepted(t) && Accepted(t)[other] == id {
      AcceptedWereCreated(t, id, batch, other);
    }
  }

  lemma {:induction false} SubmittedWasAccepted(t: Trace, id: JobId, batch: BatchId)
    requires Legal(t) && Seen(t, id, Submitted(batch))
    ensures batch in Accepted(t) && Accepted(t)[batch] == id
  {
    RowsStayOk(t);
    if t.Then? {
      if Seen(t.past, id, Submitted(batch)) {
        SubmittedWasAccepted(t.past, id, batch);
      } else if id in Rows(t.past) {
        StepForward(t, id);
        RowsStayOk(t.past);
        UpdatedRow(Rows(t.past)[id], t.op, Rows(t.past), t.past);
      }
    }
  }

  // What the provider said it keeps to.
  lemma {:induction false} StillComesFrom(t: Trace, later: Trace, id: JobId, outcome: StoredOutcome, batch: BatchId)
    requires Legal(later) && Extends(t, later) && ComesFrom(t, id, outcome, batch)
    ensures ComesFrom(later, id, outcome, batch)
  {
    hide OutputSays, OutputRefused;
    if later != t {
      StillComesFrom(t, later.past, id, outcome, batch);
    }
  }

  lemma {:induction false} ExtendsPast(t: Trace)
    requires t.Then?
    ensures Extends(t.past, t)
  {
  }

  lemma {:induction false} RowsBeginQueued(t: Trace, id: JobId, state: JobState)
    requires Legal(t) && StateOf(Rows(t), id) == Some(state) && !state.Queued?
    ensures t.Then? && id in Rows(t.past)
  {
    if t.Then? && id !in Rows(t.past) {
      RowsAreJobs(Job(id, if t.op.Insert? then t.op.model else "", Queued), Rows(t)[id]);
    }
  }

  /** What a terminal row holds: unless it is a failure of the proxy's own making, it comes from the one batch the
      provider ever accepted for the job. A completed or incomplete one is the body of the job's first record in that
      batch's output file, which has no error and a 2xx status; an expired or cancelled one names how the batch ended;
      and a failed one was a failure there. */
  lemma {:induction false} OutcomeIsOfTheBatch(t: Trace, id: JobId, outcome: StoredOutcome) returns (batch: BatchId)
    requires Legal(t) && StateOf(Rows(t), id) == Some(Terminal(outcome)) && !IsOwnFailure(outcome)
    ensures Seen(t, id, Submitted(batch)) && ComesFrom(t, id, outcome, batch)
    ensures Creates(t, id) == 1 && batch in Accepted(t) && Accepted(t)[batch] == id
    ensures forall other | other in Accepted(t) && Accepted(t)[other] == id :: other == batch
  {
    hide ComesFrom, IsOwnFailure;
    RowsStayOk(t);
    RowsBeginQueued(t, id, Terminal(outcome));
    StepForward(t, id);
    RowsStayOk(t.past);
    if StateOf(Rows(t.past), id) == StateOf(Rows(t), id) {
      batch := OutcomeIsOfTheBatch(t.past, id, outcome);
    } else {
      UpdatedRow(Rows(t.past)[id], t.op, Rows(t.past), t.past);
      RowsAreJobs(Job(id, "", Queued), Rows(t.past)[id]);
      batch := t.op.expected.batch;
      StatusDecides(t.past, id, t.op.expected);
    }
    ExtendsPast(t);
    StillComesFrom(t.past, t, id, outcome, batch);
    SubmittedBatchIsUnique(t, id, batch, batch);
    forall other: BatchId
      ensures other in Accepted(t) && Accepted(t)[other] == id ==> other == batch
    {
      SubmittedBatchIsUnique(t, id, batch, other);
    }
  }
}
