/** Job states, the rows that store them, and the translation between the two
    (src/domain.rs; TryFrom<RawJob>, status_of, encode_outcome in src/db.rs; migrations/0003_typed_job_state.sql). */
module Jobs {
  import opened Basics
  import opened Json

  type JobId = string
  type FileId = string
  type BatchId = string
  type Timestamp = string

  datatype StoredOutcome =
    | Completed(value: Value)
    | Failed(value: Value)
    | Incomplete(value: Value)
    | Expired(value: Value)
    | Cancelled(value: Value)

  datatype JobState =
    | Queued
    | Uploaded(file: FileId)
    | Submitting(file: FileId, startedAt: Timestamp)
    | SubmissionUncertain(file: FileId, startedAt: Timestamp)
    | Submitted(batch: BatchId)
    | Terminal(outcome: StoredOutcome)

  // The name of a job's record in batch files.
  function CustomIdOf(id: JobId): string {
    "kaiion-" + id
  }

  datatype Job = Job(id: JobId, model: string, state: JobState) {
    function CustomId(): string {
      CustomIdOf(id)
    }
  }

  // How far along a state is.
  function Rank(state: JobState): nat {
    match state
    case Queued => 0
    case Uploaded(_) => 1
    case Submitting(_, _) => 2
    case SubmissionUncertain(_, _) => 3
    case Submitted(_) => 4
    case Terminal(_) => 5
  }

  // The text in the status column.
  datatype Status =
    | IsQueued
    | IsUploaded
    | IsSubmitting
    | IsSubmissionUncertain
    | IsSubmitted
    | IsCompleted
    | IsFailed
    | IsIncomplete
    | IsExpired
    | IsCancelled
    | IsUnknown(text: string)
  {
    predicate Final() {
      IsCompleted? || IsFailed? || IsIncomplete? || IsExpired? || IsCancelled?
    }
  }

  datatype RawJob = RawJob(
    id: JobId, model: string, status: Status,
    inputFileId: Option<FileId>, batchId: Option<BatchId>, submissionStartedAt: Option<Timestamp>,
    outcomeJson: Option<JsonText>
  )

  datatype Column = InputFileId | BatchIdColumn | SubmissionStartedAt | OutcomeJson

  datatype RowError =
    | Unexpected(column: Column)
    | Missing(column: Column)
    | InvalidOutcome
    | UnknownStatus(text: string)

  // The CHECK constraint of the jobs table.
  predicate RowOk(row: RawJob) {
    || (row.status.IsQueued? &&
          row.inputFileId.None? && row.batchId.None? && row.submissionStartedAt.None? && row.outcomeJson.None?)
    || (row.status.IsUploaded? &&
          row.inputFileId.Some? && row.batchId.None? && row.submissionStartedAt.None? && row.outcomeJson.None?)
    || ((row.status.IsSubmitting? || row.status.IsSubmissionUncertain?) &&
          row.inputFileId.Some? && row.batchId.None? && row.submissionStartedAt.Some? && row.outcomeJson.None?)
    || (row.status.IsSubmitted? &&
          row.inputFileId.None? && row.batchId.Some? && row.submissionStartedAt.None? && row.outcomeJson.None?)
    || (row.status.Final() &&
          row.inputFileId.None? && row.batchId.None? && row.submissionStartedAt.None? &&
          row.outcomeJson.Some? && row.outcomeJson.value.Printed?)
  }

  // The first of some columns that is present although the status does not use it.
  function Reject(present: bool, column: Column, rest: Option<RowError>): Option<RowError> {
    if present then Some(Unexpected(column)) else rest
  }

  function OutcomeOf(status: Status, value: Value): StoredOutcome
    requires status.Final()
  {
    match status
    case IsCompleted => Completed(value)
    case IsFailed => Failed(value)
    case IsIncomplete => Incomplete(value)
    case IsExpired => Expired(value)
    case IsCancelled => Cancelled(value)
  }

  // Read a row back as a job, rejecting the columns its status does not use and missing the ones it does.
  function Decode(row: RawJob): (r: Result<Job, RowError>)
    ensures r.Success? <==> RowOk(row)
  {
    var file, batch := row.inputFileId.Some?, row.batchId.Some?;
    var started, outcome := row.submissionStartedAt.Some?, row.outcomeJson.Some?;
    if row.status.IsUnknown? then Failure(UnknownStatus(row.status.text))
    else if row.status.IsQueued? then
      var late := Reject(started, SubmissionStartedAt, Reject(outcome, OutcomeJson, None));
      var bad := Reject(file, InputFileId, Reject(batch, BatchIdColumn, late));
      if bad.Some? then Failure(bad.value) else Success(Job(row.id, row.model, Queued))
    else if row.status.IsUploaded? then
      var bad := Reject(batch, BatchIdColumn, Reject(started, SubmissionStartedAt, Reject(outcome, OutcomeJson, None)));
      if bad.Some? then Failure(bad.value)
      else if row.inputFileId.None? then Failure(Missing(InputFileId))
      else Success(Job(row.id, row.model, Uploaded(row.inputFileId.value)))
    else if row.status.IsSubmitting? || row.status.IsSubmissionUncertain? then
      var bad := Reject(batch, BatchIdColumn, Reject(outcome, OutcomeJson, None));
      if bad.Some? then Failure(bad.value)
      else if row.inputFileId.None? then Failure(Missing(InputFileId))
      else if row.submissionStartedAt.None? then Failure(Missing(SubmissionStartedAt))
      else
        var id, at := row.inputFileId.value, row.submissionStartedAt.value;
        var state := if row.status.IsSubmitting? then Submitting(id, at) else SubmissionUncertain(id, at);
        Success(Job(row.id, row.model, state))
    else if row.status.IsSubmitted? then
      var bad := Reject(file, InputFileId, Reject(started, SubmissionStartedAt, Reject(outcome, OutcomeJson, None)));
      if bad.Some? then Failure(bad.value)
      else if row.batchId.None? then Failure(Missing(BatchIdColumn))
      else Success(Job(row.id, row.model, Submitted(row.batchId.value)))
    else
      var bad := Reject(file, InputFileId, Reject(batch, BatchIdColumn, Reject(started, SubmissionStartedAt, None)));
      if bad.Some? then Failure(bad.value)
      else if row.outcomeJson.None? then Failure(Missing(OutcomeJson))
      else if row.outcomeJson.value.Malformed? then Failure(InvalidOutcome)
      else Success(Job(row.id, row.model, Terminal(OutcomeOf(row.status, row.outcomeJson.value.value))))
  }

  function OutcomeStatus(outcome: StoredOutcome): Status {
    match outcome
    case Completed(_) => IsCompleted
    case Failed(_) => IsFailed
    case Incomplete(_) => IsIncomplete
    case Expired(_) => IsExpired
    case Cancelled(_) => IsCancelled
  }

  function StatusOf(state: JobState): Status {
    match state
    case Queued => IsQueued
    case Uploaded(_) => IsUploaded
    case Submitting(_, _) => IsSubmitting
    case SubmissionUncertain(_, _) => IsSubmissionUncertain
    case Submitted(_) => IsSubmitted
    case Terminal(outcome) => OutcomeStatus(outcome)
  }

  // The row that stores a job.
  function Encode(job: Job): RawJob {
    var blank := RawJob(job.id, job.model, StatusOf(job.state), None, None, None, None);
    match job.state
    case Queued => blank
    case Uploaded(file) => blank.(inputFileId := Some(file))
    case Submitting(file, at) => blank.(inputFileId := Some(file), submissionStartedAt := Some(at))
    case SubmissionUncertain(file, at) => blank.(inputFileId := Some(file), submissionStartedAt := Some(at))
    case Submitted(batch) => blank.(batchId := Some(batch))
    case Terminal(outcome) => blank.(outcomeJson := Some(Printed(outcome.value)))
  }

  /** Rows that satisfy the CHECK constraint and jobs are the same thing: each reads back as what was stored. */
  lemma {:induction false} RowsAreJobs(job: Job, row: RawJob)
    ensures RowOk(Encode(job)) && Decode(Encode(job)) == Success(job)
    ensures RowOk(row) ==> Decode(row).Success? && Encode(Decode(row).value) == row
    ensures RowOk(row) ==> StatusOf(Decode(row).value.state) == row.status
  {
  }
}
