/** The worker that drives one job to its end, among others that may do anything legal between any two of its steps
    (src/driver.rs: run, advance, WorkerRegistry; src/db.rs: transition). */
module Driver {
  import opened Basics
  import opened Json
  import opened Jobs
  import opened World
  import opened Provider
  import opened BatchOutput

  datatype PersistenceError = Unavailable | TransitionConflict | NotFound

  function ClassifyPersistence(error: PersistenceError): (r: DriverError)
    ensures r.Conflict? <==> error.TransitionConflict?
    ensures !r.Permanent?
  {
    if error.TransitionConflict? then Conflict else Retryable("database")
  }

  // The operation's WHERE clause names the status of this state.
  predicate Expects(op: Operation, state: JobState) {
    match op
    case MarkUploaded(_, _) => state.Queued?
    case BeginSubmission(_, _, file, _) => state == Uploaded(file)
    case MarkUncertain(_) => state.Submitting?
    case MarkSubmitted(_, expected, _) => state == expected
    case StoreOutcome(_, expected, _) => state == expected
    case _ => false
  }

  // The state the operation turns it into.
  function Next(op: Operation, state: JobState): JobState
    requires Expects(op, state)
  {
    match op
    case MarkUploaded(_, file) => Uploaded(file)
    case BeginSubmission(_, _, file, at) => Submitting(file, at)
    case MarkUncertain(_) => SubmissionUncertain(state.file, state.startedAt)
    case MarkSubmitted(_, _, batch) => Submitted(batch)
    case StoreOutcome(_, _, outcome) => Terminal(outcome)
  }

  /** An operation attempted from a state the job was once in either finds the job in exactly that state and takes it to
      the next one, or finds it further along and leaves it there. */
  lemma {:induction false} CompareAndSet(t: Trace, op: Operation, cached: JobState)
    requires Legal(Then(t, op)) && Seen(t, op.id, cached) && !cached.Terminal? && Expects(op, cached)
    ensures Selects(Rows(t), op) ==>
              && StateOf(Rows(t), op.id) == Some(cached)
              && StateOf(Rows(Then(t, op)), op.id) == Some(Next(op, cached)) && Rank(cached) < Rank(Next(op, cached))
    ensures !Selects(Rows(t), op) ==>
              && Rows(Then(t, op)) == Rows(t)
              && StateOf(Rows(t), op.id).Some? && Rank(cached) < Rank(StateOf(Rows(t), op.id).value)
  {
    hide Legal, Seen, Decode;
    LegalPast(t, op);
    StatusDecides(t, op.id, cached);
    NeverBack(t, op.id, cached);
    RowsStayOk(t);
    RowsAreJobs(Job("", "", Queued), Rows(t)[op.id]);
    UploadedFile(t, op.id, cached);
    if Selects(Rows(t), op) {
      UpdatedRow(Rows(t)[op.id], op, Rows(t), t);
    }
  }

  /** Once the job is ahead of a cached state, storing an outcome from that state conflicts, now and ever after. In
      particular a permanent error from `create_batch`, which leaves the row ahead of the worker's cached `Uploaded`,
      never ends the job as failed: the worker reloads the row and goes on from there. */
  lemma {:induction false} StaleOutcomeConflicts(
    t: Trace, later: Trace, id: JobId, cached: JobState, outcome: StoredOutcome)
    requires Legal(later) && Extends(t, later) && !cached.Terminal?
    requires Seen(t, id, cached) && StateOf(Rows(t), id).Some? && Rank(cached) < Rank(StateOf(Rows(t), id).value)
    ensures !Selects(Rows(later), StoreOutcome(id, cached, outcome))
  {
    var ahead := StateOf(Rows(t), id).value;
    SeenNow(t, id, ahead);
    SeenLater(t, later, id, ahead, "");
    SeenLater(t, later, id, cached, "");
    NeverBack(later, id, ahead);
    StatusDecides(later, id, cached);
  }

  lemma {:induction false} LegalPast(t: Trace, op: Operation)
    requires Legal(Then(t, op))
    ensures Legal(t) && LegalOp(t, op)
  {
  }

  lemma {:induction false} UploadedFile(t: Trace, id: JobId, cached: JobState)
    requires id in Rows(t) && RowOk(Rows(t)[id])
    ensures StateOf(Rows(t), id) == Some(cached) && cached.Uploaded? ==> Rows(t)[id].inputFileId == Some(cached.file)
  {
  }

  // ---- The database ----

  class Database {
    var rows: Table
    var trace: Trace

    ghost predicate Valid()
      reads this
    {
      Legal(trace) && rows == Rows(trace)
    }

    constructor ()
      ensures Valid() && rows == map[]
    {
      rows, trace := map[], Start;
    }

    // One update of a row, which reads the row back. When the database is unavailable it may or may not have taken
    // effect.
    method Transition(op: Operation, ghost cached: JobState) returns (r: Result<JobState, PersistenceError>)
      requires Valid() && LegalOp(trace, op)
      requires Seen(trace, op.id, cached) && !cached.Terminal? && Expects(op, cached)
      modifies this
      ensures Valid() && (trace == Then(old(trace), op) || (trace == old(trace) && r == Failure(Unavailable)))
      ensures r.Success? ==>
                && Selects(old(rows), op) && StateOf(old(rows), op.id) == Some(cached)
                && r.value == Next(op, cached) && StateOf(rows, op.id) == Some(r.value) && Rank(cached) < Rank(r.value)
      ensures r == Failure(TransitionConflict) ==>
                && rows == old(rows)
                && StateOf(rows, op.id).Some? && Rank(cached) < Rank(StateOf(rows, op.id).value)
      ensures r.Failure? ==> !r.error.NotFound?
    {
      hide Seen, Decode, Updated;
      var applied: bool, broken: bool := *, *;
      if broken && !applied {
        return Failure(Unavailable);
      }
      CompareAndSet(trace, op, cached);
      var hit := Selects(rows, op);
      rows, trace := Effect(rows, op), Then(trace, op);
      if broken {
        return Failure(Unavailable);
      }
      if !hit {
        return Failure(TransitionConflict);
      }
      var job := Decode(rows[op.id]);
      return Success(job.value.state);
    }

    /** In every reachable state the provider was asked to create at most one batch for a job, the batch a submitted row
        names is the only one there is, and a terminal row comes from that batch, unless it is a failure of the proxy's
        own making. */
    lemma {:induction false} EveryStateIsSound(id: JobId, batch: BatchId, other: BatchId)
      requires Valid()
      ensures Creates(trace, id) <= 1
      ensures StateOf(rows, id) == Some(Submitted(batch)) ==>
                && batch in Accepted(trace) && Accepted(trace)[batch] == id
                && (other in Accepted(trace) && Accepted(trace)[other] == id ==> other == batch)
      ensures StateOf(rows, id).Some? && StateOf(rows, id).value.Terminal? ==>
                var outcome := StateOf(rows, id).value.outcome;
                IsOwnFailure(outcome) ||
                exists source :: source in Accepted(trace) && Accepted(trace)[source] == id && Creates(trace, id) == 1
                                 && ComesFrom(trace, id, outcome, source)
    {
      hide *;
      LegalTrace();
      AtMostOneCreate(trace, id, 0, 0);
      if StateOf(rows, id) == Some(Submitted(batch)) {
        SeenNow(trace, id, Submitted(batch));
        SubmittedBatchIsUnique(trace, id, batch, other);
      }
      if StateOf(rows, id).Some? && StateOf(rows, id).value.Terminal? {
        var outcome := StateOf(rows, id).value.outcome;
        if !IsOwnFailure(outcome) {
          var source := OutcomeIsOfTheBatch(trace, id, outcome);
        }
      }
    }

    lemma {:induction false} LegalTrace()
      requires Valid()
      ensures Legal(trace) && rows == Rows(trace)
    {
    }

    method Get(id: JobId) returns (r: Result<Job, PersistenceError>)
      requires Valid()
      ensures r.Success? ==> StateOf(rows, id) == Some(r.value.state) && r.value.id == id
      ensures r == Failure(NotFound) ==> id !in rows
      ensures r.Failure? ==> !r.error.TransitionConflict?
    {
      var broken: bool := *;
      if broken {
        return Failure(Unavailable);
      }
      if id !in rows {
        return Failure(NotFound);
      }
      RowsStayOk(trace);
      RowsAreJobs(Job("", "", Queued), rows[id]);
      return Success(Decode(rows[id]).value);
    }
  }

  // Where one successful step leads.
  predicate MayFollow(from: JobState, to: JobState) {
    match from
    case Queued => to.Uploaded?
    case Uploaded(_) => to.Submitted? || to.SubmissionUncertain?
    case Submitting(_, _) => to == SubmissionUncertain(from.file, from.startedAt)
    case SubmissionUncertain(_, _) => to == from || to.Submitted?
    case Submitted(_) => to == from || to.Terminal?
    case Terminal(_) => to == from
  }

  // ---- Other workers ----

  // Everything since `t` was done by others than this worker.
  predicate ByOthers(t: Trace, later: Trace, worker: WorkerId) {
    later == t ||
    (later.Then? && ByOthers(t, later.past, worker) &&
       !((later.op.BeginSubmission? || later.op.CreateBatch?) && later.op.worker == worker))
  }

  lemma {:induction false} OthersKeep(t: Trace, later: Trace, worker: WorkerId, id: JobId)
    requires ByOthers(t, later, worker)
    ensures Extends(t, later) && (Licensed(t, worker, id) ==> Licensed(later, worker, id))
  {
    if later != t {
      OthersKeep(t, later.past, worker, id);
    }
  }

  lemma {:induction false} ExtendsTrans(a: Trace, b: Trace, c: Trace)
    requires Extends(a, b) && Extends(b, c)
    ensures Extends(a, c)
  {
    if c != b {
      ExtendsTrans(a, b, c.past);
    }
  }

  // What was seen stays seen, and what was accepted stays accepted.
  lemma {:induction false} SeenLater(t: Trace, later: Trace, id: JobId, state: JobState, batch: BatchId)
    requires Extends(t, later) && Legal(later)
    ensures Seen(t, id, state) ==> Seen(later, id, state)
    ensures batch in Accepted(t) ==> batch in Accepted(later) && Accepted(later)[batch] == Accepted(t)[batch]
  {
    if later != t {
      SeenLater(t, later.past, id, state, batch);
    }
  }

  // What was said of a batch and its output file stays said.
  lemma {:induction false} StillSaid(t: Trace, later: Trace, batch: BatchId, status: string)
    requires Extends(t, later) && Legal(later)
    ensures Said(t, batch, status) ==> Said(later, batch, status)
    ensures batch in Outputs(t) ==> batch in Outputs(later) && Outputs(later)[batch] == Outputs(t)[batch]
  {
    if later != t {
      StillSaid(t, later.past, batch, status);
    }
  }

  lemma {:induction false} SeenNow(t: Trace, id: JobId, state: JobState)
    requires StateOf(Rows(t), id) == Some(state)
    ensures Seen(t, id, state)
  {
  }

  // What a worker may do on the strength of what it has seen it may still do later.
  lemma {:induction false} StillLegal(t: Trace, later: Trace, op: Operation)
    requires Extends(t, later) && Legal(later) && LegalOp(t, op) && IsUpdate(op)
    ensures LegalOp(later, op)
  {
    hide Seen, ComesFrom, Legal, Accepted, IsOwnFailure;
    match op
    case MarkSubmitted(id, expected, batch) => SeenLater(t, later, id, expected, batch);
    case StoreOutcome(id, expected, outcome) =>
      SeenLater(t, later, id, expected, "");
      if !IsOwnFailure(outcome) {
        StillComesFrom(t, later, id, outcome, expected.batch);
      }
    case _ =>
  }

  // An update of a row after the licence was taken, or before it matters.
  predicate IsUpdate(op: Operation) {
    op.MarkUploaded? || op.MarkUncertain? || op.MarkSubmitted? || op.StoreOutcome?
  }

  // Every batch listed for the job was accepted for it.
  ghost predicate Truthful(t: Trace, pages: Pages, id: JobId) {
    forall cursor, batch | pages(cursor).Success? && batch in pages(cursor).value.data && batch.IsFor(id) ::
      batch.id in Accepted(t) && Accepted(t)[batch.id] == id
  }

  predicate Honest(t: Trace, replies: map<Option<BatchId>, Result<BatchList, ProviderError>>, id: JobId) {
    forall cursor | cursor in replies && replies[cursor].Success? ::
      forall batch | batch in replies[cursor].value.data && batch.IsFor(id) ::
        batch.id in Accepted(t) && Accepted(t)[batch.id] == id
  }

  // ---- The worker ----

  // What subscribers of a job see: the last state published, and all of them.
  class Watch {
    var value: JobState
    ghost var sent: seq<JobState>

    constructor (state: JobState)
      ensures value == state && sent == [state]
    {
      value, sent := state, [state];
    }

    method Publish(state: JobState)
      modifies this
      ensures value == state && sent == old(sent) + [state]
    {
      value, sent := state, sent + [state];
    }

    // Published states were all durable, only move forward, and end with the value.
    ghost predicate Follows(t: Trace, id: JobId)
      reads this
    {
      && sent != [] && sent[|sent| - 1] == value
      && (forall i, j | 0 <= i < j < |sent| :: Rank(sent[i]) < Rank(sent[j]))
      && (forall i | 0 <= i < |sent| :: Seen(t, id, sent[i]))
    }
  }

  class JobDriver {
    const db: Database
    const worker: WorkerId
    const show: Printer

    constructor (db: Database, worker: WorkerId, show: Printer)
      ensures this.db == db && this.worker == worker
    {
      this.db, this.worker, this.show := db, worker, show;
    }

    // Other workers, in this process and others, do whatever they may.
    method Interfere(ghost id: JobId)
      requires db.Valid()
      modifies db
      ensures db.Valid() && ByOthers(old(db.trace), db.trace, worker)
      ensures Extends(old(db.trace), db.trace)
      ensures Licensed(old(db.trace), worker, id) ==> Licensed(db.trace, worker, id)
    {
      var later: Trace := *;
      if !Legal(later) || !ByOthers(db.trace, later, worker) {
        later := db.trace;
      }
      OthersKeep(db.trace, later, worker, id);
      db.rows, db.trace := Rows(later), later;
    }

    // One POST to the provider. It may accept the batch or not, and its reply may be lost or unusable either way.
    method CreateBatch(id: JobId, file: FileId) returns (r: Result<BatchObject, ProviderError>)
      requires db.Valid() && Licensed(db.trace, worker, id)
      modifies db
      ensures db.Valid() && db.rows == old(db.rows) && Extends(old(db.trace), db.trace)
      ensures Creates(db.trace, id) == Creates(old(db.trace), id) + 1
      ensures r.Success? ==> r.value.id in Accepted(db.trace) && Accepted(db.trace)[r.value.id] == id
    {
      var batch: BatchObject, error: ProviderError := *, *;
      var accepts: bool, replies: bool := *, *;
      accepts := accepts && batch.id !in Accepted(db.trace);
      db.trace := Then(db.trace, World.CreateBatch(worker, id, if accepts then Some(batch.id) else None));
      return if accepts && replies then Success(batch) else Failure(error);
    }

    // The provider's list as it happens to be visible: it may lag behind, fail, stop early or go round in circles.
    method ListBatches(id: JobId) returns (pages: Pages)
      requires db.Valid()
      ensures Truthful(db.trace, pages, id)
    {
      var replies: map<Option<BatchId>, Result<BatchList, ProviderError>> := *;
      pages := cursor => if cursor in replies then replies[cursor] else Failure(Transport);
      if !Honest(db.trace, replies, id) {
        pages := _ => Failure(Transport);
      }
    }

    // One GET of a batch. What the provider says may be lost; it never names two output files for one batch.
    method GetBatch(id: JobId, batch: BatchId) returns (r: Result<BatchObject, ProviderError>)
      requires db.Valid()
      modifies db
      ensures db.Valid() && db.rows == old(db.rows) && Extends(old(db.trace), db.trace)
      ensures r.Success? ==>
                && Said(db.trace, batch, r.value.status)
                && (r.value.outputFileId.Some? ==>
                      batch in Outputs(db.trace) && Outputs(db.trace)[batch] == r.value.outputFileId.value)
                && (r.value.status == "completed" && r.value.outputFileId.None? && r.value.errorFileId.Some? ==>
                      OnlyErrors(db.trace, batch))
    {
      var answer: BatchObject, error: ProviderError := *, *;
      var replies: bool := *;
      if !replies || !LegalOp(db.trace, HearBatch(id, batch, answer)) {
        return Failure(error);
      }
      db.trace := Then(db.trace, HearBatch(id, batch, answer));
      return Success(answer);
    }

    // One GET of a file. What is in a file never changes.
    method GetFile(id: JobId, file: FileId) returns (r: Result<Content, ProviderError>)
      requires db.Valid()
      modifies db
      ensures db.Valid() && db.rows == old(db.rows) && Extends(old(db.trace), db.trace)
      ensures r.Success? ==> file in Contents(db.trace) && Contents(db.trace)[file] == r.value
    {
      var content: Content, error: ProviderError := *, *;
      var replies: bool := *;
      if !replies || !LegalOp(db.trace, HearFile(id, file, content)) {
        return Failure(error);
      }
      db.trace := Then(db.trace, HearFile(id, file, content));
      return Success(content);
    }

    /** One step of the job: at most one call that changes something at the provider and one update of the row for each
        state. The result is a state the job really reached, no earlier than the cached one; a conflict means that the
        job has moved on; and the provider is asked to create a batch only under this worker's own licence. */
    method Advance(job: Job) returns (r: Result<JobState, DriverError>)
      requires db.Valid() && Seen(db.trace, job.id, job.state)
      modifies db
      ensures db.Valid() && Extends(old(db.trace), db.trace)
      ensures r.Success? ==>
                && Seen(db.trace, job.id, r.value)
                && (r.value == job.state ||
                    (Rank(job.state) < Rank(r.value) && StateOf(db.rows, job.id) == Some(r.value)))
      ensures r == Failure(Conflict) ==>
                StateOf(db.rows, job.id).Some? && Rank(job.state) < Rank(StateOf(db.rows, job.id).value)
      ensures r.Success? ==> MayFollow(job.state, r.value)
      ensures r.Failure? ==> !job.state.Terminal?
      ensures r.Failure? && r.error.Permanent? && job.state.Uploaded? ==>
                StateOf(db.rows, job.id).Some? && Rank(job.state) < Rank(StateOf(db.rows, job.id).value)
      ensures r.Success? && r.value.Terminal? && job.state.Submitted? ==>
                ComesFrom(db.trace, job.id, r.value.outcome, job.state.batch)
    {
      hide Seen, Legal, Rows, StateOf, EndsAs, ComesFrom, Heard, Hopeless, Accepted;
      match job.state
      case Queued =>
        ghost var reply;
        r, reply := Upload(job);
      case Uploaded(file) =>
        ghost var reply;
        r, reply := Submit(job, file);
      case Submitting(_, _) => r := Swap(MarkUncertain(job.id), job.state);
      case SubmissionUncertain(_, _) =>
        ghost var found;
        r, found := Reconcile(job);
      case Submitted(batch) =>
        ghost var answer, file;
        r, answer, file := Poll(job, batch);
      case Terminal(_) => r := Success(job.state);
    }

    lemma {:induction false} StillAhead(t: Trace, later: Trace, id: JobId)
      requires Legal(later) && Extends(t, later) && StateOf(Rows(t), id).Some?
      ensures StateOf(Rows(later), id).Some?
      ensures Rank(StateOf(Rows(t), id).value) <= Rank(StateOf(Rows(later), id).value)
    {
      hide *;
      var state := StateOf(Rows(t), id).value;
      SeenNow(t, id, state);
      SeenLater(t, later, id, state, "");
      NeverBack(later, id, state);
    }

    // An update of the row, after whatever others did since. It fails if the job had moved on before.
    method Swap(op: Operation, cached: JobState) returns (r: Result<JobState, DriverError>)
      requires db.Valid() && Seen(db.trace, op.id, cached) && !cached.Terminal? && Expects(op, cached)
      requires LegalOp(db.trace, op) && IsUpdate(op)
      modifies db
      ensures db.Valid() && Extends(old(db.trace), db.trace)
      ensures r.Success? ==>
                && r.value == Next(op, cached) && Rank(cached) < Rank(r.value)
                && StateOf(db.rows, op.id) == Some(r.value) && Seen(db.trace, op.id, r.value)
      ensures r == Failure(Conflict) ==>
                StateOf(db.rows, op.id).Some? && Rank(cached) < Rank(StateOf(db.rows, op.id).value)
      ensures r.Failure? ==> !r.error.Permanent?
      ensures StateOf(old(db.rows), op.id).Some? && Rank(cached) < Rank(StateOf(old(db.rows), op.id).value) ==>
                r.Failure?
    {
      hide Seen, Legal, Rows, StateOf;
      Interfere(op.id);
      ghost var before := db.trace;
      SeenLater(old(db.trace), before, op.id, cached, "");
      StillLegal(old(db.trace), before, op);
      if StateOf(old(db.rows), op.id).Some? {
        StillAhead(old(db.trace), before, op.id);
      }
      var swapped := db.Transition(op, cached);
      ExtendsTrans(old(db.trace), before, db.trace);
      if swapped.Failure? {
        return Failure(ClassifyPersistence(swapped.error));
      }
      SeenNow(db.trace, op.id, swapped.value);
      return Success(swapped.value);
    }

    method Upload(job: Job) returns (r: Result<JobState, DriverError>, ghost reply: Result<FileId, ProviderError>)
      requires db.Valid() && Seen(db.trace, job.id, job.state) && job.state.Queued?
      modifies db
      ensures db.Valid() && Extends(old(db.trace), db.trace)
      ensures r.Success? ==>
                && reply.Success? && r.value == Uploaded(reply.value)
                && Seen(db.trace, job.id, r.value) && StateOf(db.rows, job.id) == Some(r.value)
      ensures r.Failure? && r.error.Permanent? <==> reply.Failure? && !reply.error.IsRetryable()
      ensures r == Failure(Conflict) ==>
                StateOf(db.rows, job.id).Some? && Rank(job.state) < Rank(StateOf(db.rows, job.id).value)
    {
      hide Seen, Legal, Rows, StateOf;
      var uploaded: Result<FileId, ProviderError> := *;
      reply := uploaded;
      match uploaded
      case Failure(error) => r := Failure(ClassifyProvider(error));
      case Success(file) => r := Swap(MarkUploaded(job.id, file), job.state);
    }

    // Take the licence, use it, and record what came of it: the batch if the provider's reply names one, and otherwise
    // that it is uncertain whether there is one, unless the error is permanent. That leaves the row ahead of the cached
    // state.
    method Submit(job: Job, file: FileId)
      returns (r: Result<JobState, DriverError>, ghost reply: Option<Result<BatchObject, ProviderError>>)
      requires db.Valid() && Seen(db.trace, job.id, job.state) && job.state == Uploaded(file)
      modifies db
      ensures db.Valid() && Extends(old(db.trace), db.trace)
      ensures r.Success? ==>
                && Rank(job.state) < Rank(r.value)
                && Seen(db.trace, job.id, r.value) && StateOf(db.rows, job.id) == Some(r.value)
      ensures r.Success? ==>
                && reply.Some?
                && if reply.value.Success? then r.value == Submitted(reply.value.value.id)
                   else reply.value.error.IsRetryable() && r.value.SubmissionUncertain? && r.value.file == file
      ensures r.Failure? && r.error.Permanent? <==>
                reply.Some? && reply.value.Failure? && !reply.value.error.IsRetryable()
      ensures reply.Some? && reply.value.Success? ==>
                && reply.value.value.id in Accepted(db.trace)
                && Accepted(db.trace)[reply.value.value.id] == job.id
      ensures r.Failure? && !r.error.Retryable? ==>
                StateOf(db.rows, job.id).Some? && Rank(job.state) < Rank(StateOf(db.rows, job.id).value)
    {
      hide Seen, Legal, Rows, StateOf, Extends;
      reply := None;
      var begun := Begin(job, file);
      if begun.Failure? {
        return Failure(begun.error), reply;
      }
      ghost var start := db.trace;
      Interfere(job.id);
      ghost var before := db.trace;
      var created := CreateBatch(job.id, file);
      reply := Some(created);
      ExtendsTrans(start, before, db.trace);
      SeenLater(start, db.trace, job.id, begun.value, "");
      ExtendsTrans(old(db.trace), start, db.trace);
      ghost var after := db.trace;
      if created.Success? {
        r := Swap(MarkSubmitted(job.id, begun.value, created.value.id), begun.value);
      } else if created.error.IsRetryable() {
        r := Swap(MarkUncertain(job.id), begun.value);
      } else {
        NeverBack(db.trace, job.id, begun.value);
        return Failure(Permanent("create_batch")), reply;
      }
      ExtendsTrans(old(db.trace), after, db.trace);
      if created.Success? {
        SeenLater(after, db.trace, job.id, begun.value, created.value.id);
      }
    }

    method Begin(job: Job, file: FileId) returns (r: Result<JobState, DriverError>)
      requires db.Valid() && Seen(db.trace, job.id, job.state) && job.state == Uploaded(file)
      modifies db
      ensures db.Valid() && Extends(old(db.trace), db.trace)
      ensures r.Success? ==>
                && r.value.Submitting? && r.value.file == file
                && Seen(db.trace, job.id, r.value) && Licensed(db.trace, worker, job.id)
      ensures r == Failure(Conflict) ==>
                StateOf(db.rows, job.id).Some? && Rank(job.state) < Rank(StateOf(db.rows, job.id).value)
      ensures r.Failure? ==> !r.error.Permanent?
    {
      hide Seen, Legal, Rows, StateOf;
      Interfere(job.id);
      ghost var before := db.trace;
      SeenLater(old(db.trace), before, job.id, job.state, "");
      var at: Timestamp := *;
      var begun := db.Transition(BeginSubmission(worker, job.id, file, at), job.state);
      ExtendsTrans(old(db.trace), before, db.trace);
      if begun.Failure? {
        return Failure(ClassifyPersistence(begun.error));
      }
      SeenNow(db.trace, job.id, begun.value);
      return Success(begun.value);
    }

    // Look for the batch that an uncertain submission may have left at the provider, and take over the one found.
    method Reconcile(job: Job)
      returns (r: Result<JobState, DriverError>,
               ghost found: Option<Result<Option<BatchObject>, ProviderError>>)
      requires db.Valid() && Seen(db.trace, job.id, job.state) && job.state.SubmissionUncertain?
      modifies db
      ensures db.Valid() && Extends(old(db.trace), db.trace)
      ensures r.Success? ==>
                && Seen(db.trace, job.id, r.value)
                && if found.Some? && found.value.Success? && found.value.value.Some? then
                     r.value == Submitted(found.value.value.value.id) && StateOf(db.rows, job.id) == Some(r.value)
                   else r.value == job.state && (found.Some? ==> found.value == Success(None))
      ensures r.Failure? && r.error.Permanent? <==>
                found.Some? && found.value.Failure? && !found.value.error.IsRetryable()
      ensures r == Failure(Conflict) ==>
                StateOf(db.rows, job.id).Some? && Rank(job.state) < Rank(StateOf(db.rows, job.id).value)
    {
      hide Seen, Legal, Rows, StateOf;
      Interfere(job.id);
      ghost var before := db.trace;
      SeenLater(old(db.trace), before, job.id, job.state, "");
      var pages := ListBatches(job.id);
      var requests: nat := *;
      var searched := FindBatch(pages, job.id, requests);
      found := searched;
      // A search that has not ended yet leaves the job as it is.
      if searched.None? {
        return Success(job.state), found;
      }
      if searched.value.Failure? {
        return Failure(ClassifyProvider(searched.value.error)), found;
      }
      if searched.value.value.None? {
        return Success(job.state), found;
      }
      r := Swap(MarkSubmitted(job.id, job.state, searched.value.value.value.id), job.state);
      ExtendsTrans(old(db.trace), before, db.trace);
    }

    /** Ask how the batch the row names is doing, and store the outcome when it has ended: exactly what the provider's
        answer and the file that takes make of the job. The job stays as it is exactly if the answer names no end, and
        an error is permanent only if the provider's was or the batch ended in a way that makes nothing of the job. */
    method Poll(job: Job, batchId: BatchId)
      returns (r: Result<JobState, DriverError>,
               ghost answer: Result<BatchObject, ProviderError>, ghost file: Result<Content, ProviderError>)
      requires db.Valid() && Seen(db.trace, job.id, job.state) && job.state == Submitted(batchId)
      modifies db
      ensures db.Valid() && Extends(old(db.trace), db.trace)
      ensures r.Success? ==>
                && Seen(db.trace, job.id, r.value)
                && (r.value == job.state || (r.value.Terminal? && StateOf(db.rows, job.id) == Some(r.value)))
      ensures r.Success? && r.value == job.state ==>
                answer.Success? && answer.value.status !in {"completed", "failed", "expired", "cancelled"}
      ensures r.Success? && r.value.Terminal? ==>
                && answer.Success? && EndsAs(answer.value, file, job, show, r.value.outcome)
                && ComesFrom(db.trace, job.id, r.value.outcome, batchId)
      ensures r.Failure? && r.error.Permanent? ==> Hopeless(job, answer, file)
      ensures Heard(db.trace, batchId, answer, file)
      ensures r == Failure(Conflict) ==>
                StateOf(db.rows, job.id).Some? && Rank(job.state) < Rank(StateOf(db.rows, job.id).value)
    {
      hide Seen, Legal, Rows, StateOf, ComesFrom, LegalOp, EndsAs, Hopeless, Heard;
      var ended;
      ended, answer, file := AskOutcome(job, batchId);
      ghost var before := db.trace;
      SeenLater(old(db.trace), before, job.id, job.state, "");
      if ended.Failure? {
        return Failure(ended.error), answer, file;
      }
      if ended.value.None? {
        return Success(job.state), answer, file;
      }
      MayStore(before, job.id, job.state, ended.value.value);
      r := Swap(StoreOutcome(job.id, job.state, ended.value.value), job.state);
      ExtendsTrans(old(db.trace), before, db.trace);
      StillComesFrom(before, db.trace, job.id, ended.value.value, batchId);
      StillHeard(before, db.trace, batchId, answer, file);
    }

    lemma {:induction false} MayStore(t: Trace, id: JobId, cached: JobState, outcome: StoredOutcome)
      requires Seen(t, id, cached) && !cached.Terminal?
      requires !IsOwnFailure(outcome) ==> cached.Submitted? && ComesFrom(t, id, outcome, cached.batch)
      ensures LegalOp(t, StoreOutcome(id, cached, outcome))
    {
    }

    // The error cannot be repeated away: the provider's own was permanent, or the batch ended in a way that makes
    // nothing of the job.
    ghost predicate Hopeless(job: Job, answer: Result<BatchObject, ProviderError>, file: Result<Content, ProviderError>)
    {
      if answer.Failure? then !answer.error.IsRetryable()
      else if FileNeeded(answer.value).Some? && file.Failure? then !file.error.IsRetryable()
      else forall outcome :: !EndsAs(answer.value, file, job, show, outcome)
    }

    // What the provider says of the batch, and of the one file that takes.
    method AskOutcome(job: Job, batchId: BatchId)
      returns (r: Result<Option<StoredOutcome>, DriverError>,
               ghost heard: Result<BatchObject, ProviderError>, ghost read: Result<Content, ProviderError>)
      requires db.Valid()
      modifies db
      ensures db.Valid() && db.rows == old(db.rows) && Extends(old(db.trace), db.trace)
      ensures Heard(db.trace, batchId, heard, read)
      ensures r == Success(None) <==>
                heard.Success? && heard.value.status !in {"completed", "failed", "expired", "cancelled"}
      ensures r.Success? && r.value.Some? ==>
                && heard.Success? && EndsAs(heard.value, read, job, show, r.value.value)
                && ComesFrom(db.trace, job.id, r.value.value, batchId)
      ensures r.Failure? ==> !r.error.Conflict? && (r.error.Permanent? <==> Hopeless(job, heard, read))
    {
      hide Legal, Rows, OutputSays, OutputRefuses, ReadFrom, Diagnosed, EndsAs;
      heard, read := Failure(Transport), Failure(Transport);
      var answer := GetBatch(job.id, batchId);
      heard := answer;
      if answer.Failure? {
        return Failure(ClassifyProvider(answer.error)), heard, read;
      }
      ghost var before := db.trace;
      var file: Result<Content, ProviderError> := Failure(Transport);
      if FileNeeded(answer.value).Some? {
        file := GetFile(job.id, FileNeeded(answer.value).value);
        read := file;
      }
      StillHeard(before, db.trace, batchId, heard, Failure(Transport));
      ExtendsTrans(old(db.trace), before, db.trace);
      r := BatchOutcome(answer.value, file, job, show);
      if r.Success? && r.value.Some? {
        TellsOutcome(db.trace, answer.value, file, job, r.value.value, batchId);
      }
    }

    // The provider's answer about the batch, and the file read for it, if any, are in the trace.
    ghost predicate Heard(
      t: Trace, batch: BatchId, answer: Result<BatchObject, ProviderError>, file: Result<Content, ProviderError>)
    {
      && (answer.Success? ==>
            && Said(t, batch, answer.value.status)
            && (answer.value.outputFileId.Some? ==>
                  batch in Outputs(t) && Outputs(t)[batch] == answer.value.outputFileId.value)
            && (answer.value.status == "completed" && answer.value.outputFileId.None?
                && answer.value.errorFileId.Some? ==>
                  OnlyErrors(t, batch)))
      && (answer.Success? && FileNeeded(answer.value).Some? && file.Success? ==>
            && FileNeeded(answer.value).value in Contents(t)
            && Contents(t)[FileNeeded(answer.value).value] == file.value)
    }

    lemma {:induction false} StillHeard(
      t: Trace, later: Trace, batch: BatchId, answer: Result<BatchObject, ProviderError>,
      file: Result<Content, ProviderError>)
      requires Extends(t, later) && Legal(later) && Heard(t, batch, answer, file)
      ensures Heard(later, batch, answer, file)
    {
      if later != t {
        StillHeard(t, later.past, batch, answer, file);
      }
    }

    lemma {:induction false} TellsOutcome(
      t: Trace, answer: BatchObject, file: Result<Content, ProviderError>, job: Job, outcome: StoredOutcome,
      batch: BatchId)
      requires Heard(t, batch, Success(answer), file) && EndsAs(answer, file, job, show, outcome)
      ensures ComesFrom(t, job.id, outcome, batch)
    {
      hide Said, Outputs, Contents, OnlyErrors, OutputSays, ReadFrom, IsFirstRecord, Diagnosed, Tells;
      if answer.status == "completed" && answer.outputFileId.Some? {
        OutputIsKnown(file.value, job, outcome);
      }
    }

    lemma {:induction false} OutputIsKnown(content: Content, job: Job, outcome: StoredOutcome)
      requires ReadFrom(content, job, show, outcome)
      ensures OutputSays(content, CustomIdOf(job.id), outcome) ||
              (outcome.Failed? && OutputRefused(content, CustomIdOf(job.id)))
      ensures !outcome.Expired? && !outcome.Cancelled?
    {
    }

    /** The worker's loop, for as many rounds as it is given. Whatever others do meanwhile, every state it publishes was
        durable and further along than the one before; and it stops by itself only when the job's row is terminal and
        that state is published. */
    method Run(start: Job, watch: Watch, rounds: nat) returns (done: bool)
      requires db.Valid() && Seen(db.trace, start.id, start.state) && !start.state.Terminal?
      requires watch.value == start.state && watch.sent == [start.state]
      modifies db, watch
      ensures db.Valid() && Extends(old(db.trace), db.trace)
      ensures watch.Follows(db.trace, start.id)
      ensures done <==> watch.value.Terminal?
      ensures done ==> StateOf(db.rows, start.id) == Some(watch.value)
    {
      hide Seen, Legal, Rows, StateOf;
      var job := start;
      done := false;
      var round := 0;
      while round < rounds && !done
        invariant db.Valid() && Extends(old(db.trace), db.trace)
        invariant job.id == start.id && watch.value == job.state && watch.Follows(db.trace, job.id)
        invariant done <==> job.state.Terminal?
        invariant done ==> StateOf(db.rows, job.id) == Some(job.state)
        decreases rounds - round, !done
      {
        ghost var before := db.trace;
        ghost var result, stored, reloaded;
        done, job, result, stored, reloaded := Round(job, watch);
        ExtendsTrans(old(db.trace), before, db.trace);
        round := round + 1;
      }
    }

    method Announce(job: Job, state: JobState, watch: Watch) returns (next: Job)
      requires watch.value == job.state && watch.Follows(db.trace, job.id)
      requires Seen(db.trace, job.id, state) && Rank(job.state) < Rank(state)
      modifies watch
      ensures next == job.(state := state) && watch.value == state && watch.Follows(db.trace, job.id)
    {
      hide Seen;
      watch.Publish(state);
      return job.(state := state);
    }

    // After a conflict, take over the state the row has come to meanwhile.
    method Reload(job: Job, watch: Watch)
      returns (done: bool, next: Job, ghost read: Result<Job, PersistenceError>)
      requires db.Valid() && !job.state.Terminal? && watch.value == job.state && watch.Follows(db.trace, job.id)
      requires StateOf(db.rows, job.id).Some? && Rank(job.state) < Rank(StateOf(db.rows, job.id).value)
      modifies db, watch
      ensures db.Valid() && Extends(old(db.trace), db.trace)
      ensures next.id == job.id && watch.value == next.state && watch.Follows(db.trace, job.id)
      ensures done <==> next.state.Terminal?
      ensures done ==> StateOf(db.rows, job.id) == Some(next.state)
      ensures if read.Success? then next.state == read.value.state && Rank(job.state) < Rank(next.state)
              else next == job
    {
      hide Seen, Legal, Rows, StateOf, Extends;
      ghost var conflicting := StateOf(db.rows, job.id).value;
      SeenNow(db.trace, job.id, conflicting);
      Interfere(job.id);
      SeenLater(old(db.trace), db.trace, job.id, conflicting, "");
      NeverBack(db.trace, job.id, conflicting);
      FollowsLater(watch, old(db.trace), db.trace, job.id);
      var reloaded := db.Get(job.id);
      read := reloaded;
      if reloaded.Failure? {
        return false, job, read;
      }
      SeenNow(db.trace, job.id, reloaded.value.state);
      next := Announce(job, reloaded.value.state, watch);
      done := next.state.Terminal?;
    }

    lemma {:induction false} FollowsLater(watch: Watch, t: Trace, later: Trace, id: JobId)
      requires watch.Follows(t, id) && Extends(t, later) && Legal(later)
      ensures watch.Follows(later, id)
    {
      forall i | 0 <= i < |watch.sent| ensures Seen(later, id, watch.sent[i]) {
        SeenLater(t, later, id, watch.sent[i], "");
      }
    }

    // Once round the loop: take over what the step reached, reload after a conflict, fail the job after a permanent
    // error unless it has moved on, and otherwise try again. It always has moved on after a permanent error from
    // `create_batch`: storing the failure from the cached `Uploaded` fails, so that the error never ends the job.
    method Round(job: Job, watch: Watch)
      returns (done: bool, next: Job, ghost result: Result<JobState, DriverError>,
               ghost stored: Option<Result<JobState, DriverError>>,
               ghost reloaded: Option<Result<Job, PersistenceError>>)
      requires db.Valid() && !job.state.Terminal? && watch.value == job.state && watch.Follows(db.trace, job.id)
      modifies db, watch
      ensures db.Valid() && Extends(old(db.trace), db.trace)
      ensures next.id == job.id && watch.value == next.state && watch.Follows(db.trace, job.id)
      ensures done <==> next.state.Terminal?
      ensures done ==> StateOf(db.rows, job.id) == Some(next.state)
      ensures next.state == job.state || Rank(job.state) < Rank(next.state)
      ensures result.Success? ==> next.state == result.value
      ensures result.Failure? && result.error.Retryable? ==> next == job
      ensures stored.Some? <==> result.Failure? && result.error.Permanent?
      ensures reloaded.Some? <==> result == Failure(Conflict) || stored == Some(Failure(Conflict))
      ensures reloaded.Some? && reloaded.value.Success? ==>
                next.state == reloaded.value.value.state && Rank(job.state) < Rank(next.state)
      ensures reloaded.Some? && reloaded.value.Failure? ==> next == job
      ensures stored.Some? && stored.value.Success? ==> next.state == stored.value.value && next.state.Terminal?
      ensures stored.Some? && job.state.Uploaded? ==> stored.value.Failure? && !stored.value.error.Permanent?
      ensures stored.Some? && stored.value.Failure? && !stored.value.error.Conflict? ==> next == job
    {
      hide Seen, Legal, Rows, StateOf, FailedResponse, IsOwnFailure, Tells;
      next, done, stored, reloaded := job, false, None, None;
      ghost var read;
      var step := Advance(job);
      result := step;
      FollowsLater(watch, old(db.trace), db.trace, job.id);
      ghost var before := db.trace;
      match step {
        case Success(state) =>
          if state != job.state {
            next := Announce(job, state, watch);
            done := state.Terminal?;
          }
        case Failure(Conflict) =>
          done, next, read := Reload(job, watch);
          reloaded := Some(read);
        case Failure(Retryable(_)) =>
        case Failure(Permanent(reason)) =>
          FailedTells(job.model, reason);
          MayStore(before, job.id, job.state, Failed(FailedResponse(job.model, reason)));
          var swapped := Swap(StoreOutcome(job.id, job.state, Failed(FailedResponse(job.model, reason))), job.state);
          stored := Some(swapped);
          FollowsLater(watch, before, db.trace, job.id);
          match swapped {
            case Success(state) =>
              next := Announce(job, state, watch);
              done := true;
            case Failure(Conflict) =>
              ghost var conflicting := db.trace;
              done, next, read := Reload(job, watch);
              reloaded := Some(read);
              ExtendsTrans(before, conflicting, db.trace);
            case Failure(_) =>
          }
      }
      ExtendsTrans(old(db.trace), before, db.trace);
    }
  }

  // ---- The registry ----

  /** The workers of one process: at most one runs for a job at a time, and whoever asks for the job meanwhile watches
      that one, however stale the job they hold. */
  class WorkerRegistry {
    var workers: map<JobId, Watch>
    var nextWorker: WorkerId
    ghost var running: map<WorkerId, JobId>

    ghost predicate Valid()
      reads this
    {
      && (forall w | w in running :: w < nextWorker && running[w] in workers)
      && (forall id | id in workers :: exists w :: w in running && running[w] == id)
      && (forall v, w | v in running && w in running && running[v] == running[w] :: v == w)
    }

    constructor ()
      ensures Valid() && workers == map[]
    {
      workers, nextWorker, running := map[], 0, map[];
    }

    method Subscribe(job: Job) returns (watch: Watch, started: Option<WorkerId>)
      requires Valid()
      modifies this
      ensures Valid()
      ensures started.Some? <==> !job.state.Terminal? && job.id !in old(workers)
      ensures started.None? ==> workers == old(workers) && running == old(running)
      ensures job.state.Terminal? ==> fresh(watch) && watch.value == job.state
      ensures !job.state.Terminal? && job.id in old(workers) ==> watch == old(workers)[job.id]
      ensures started.Some? ==>
                && fresh(watch) && watch.value == job.state && watch.sent == [job.state]
                && started.value !in old(running) && running == old(running)[started.value := job.id]
                && workers == old(workers)[job.id := watch]
    {
      if job.state.Terminal? {
        watch := new Watch(job.state);
        return watch, None;
      }
      if job.id in workers {
        return workers[job.id], None;
      }
      watch := new Watch(job.state);
      var worker := nextWorker;
      assert forall w | w in running :: running[w] != job.id;
      workers := workers[job.id := watch];
      nextWorker := nextWorker + 1;
      ghost var before := running;
      running := running[worker := job.id];
      forall id | id in workers ensures exists w :: w in running && running[w] == id {
        if id == job.id {
          assert running[worker] == id;
        } else {
          var w :| w in before && before[w] == id;
          assert running[w] == id;
        }
      }
      return watch, Some(worker);
    }

    // A worker's run has returned.
    method Stopped(worker: WorkerId, id: JobId)
      requires Valid() && worker in running && running[worker] == id
      modifies this
      ensures Valid() && workers == old(workers) - {id} && running == old(running) - {worker}
    {
      ghost var before := running;
      workers := workers - {id};
      running := running - {worker};
      forall other | other in workers ensures exists w :: w in running && running[w] == other {
        var w :| w in before && before[w] == other;
        assert running[w] == other;
      }
    }
  }
}
