/** Reading a finished batch's files (src/driver.rs: parse_batch_output, normalize_batch_error, failed_response). */
module BatchOutput {
  import opened Basics
  import opened Json
  import opened Jobs
  import opened Provider

  datatype DriverError = Conflict | Retryable(reason: string) | Permanent(reason: string)

  // A file of lines, each blank or one JSON text, and the file as raw text.
  datatype Line = Blank | Record(text: JsonText)
  datatype Content = Content(lines: seq<Line>, raw: string)

  // How JSON values are printed inside messages.
  type Printer = Value -> string

  function FailedResponse(model: string, message: string): Value {
    Object(map["object" := Text("response"), "status" := Text("failed"), "model" := Text(model), "output" := Array([]),
               "error" := Object(map["code" := Text("kaiion_batch_failed"), "message" := Text(message),
                                     "type" := Text("server_error")])])
  }

  function FailedWith(model: string, error: Value): Value {
    Object(map["object" := Text("response"), "status" := Text("failed"), "model" := Text(model), "output" := Array([]),
               "error" := error])
  }

  // The record's error member, unless it is null.
  function ErrorOf(record: Value): Option<Value> {
    var error := record.Get("error");
    if error.Some? && !error.value.Null? then error else None
  }

  predicate IsFor(record: Value, customId: string) {
    TextAt(record, "custom_id") == Some(customId)
  }

  // A line at which reading stops: not JSON, or a record for this job.
  predicate Decisive(line: Line, customId: string) {
    line.Record? && (line.text.Malformed? || IsFor(line.text.value, customId))
  }

  // The response in a record for this job.
  function ReadRecord(record: Value, model: string, show: Printer): Result<Value, DriverError> {
    if ErrorOf(record).Some? then Success(FailedResponse(model, show(ErrorOf(record).value)))
    else
      var response := record.Get("response");
      if response.None? then Failure(Permanent("batch output record is missing response"))
      else
        var status := response.value.Get("status_code");
        if status.None? || status.value.AsU64().None? then
          Failure(Permanent("batch output response is missing status_code"))
        else
          var body := response.value.Get("body");
          if body.None? then Failure(Permanent("batch output response is missing body"))
          else if !IsSuccess(status.value.number) then Success(FailedResponse(model, show(body.value)))
          else if !body.value.Object? then Failure(Permanent("batch response body is not a JSON object"))
          else Success(body.value)
  }

  /** The first line that decides is the one that is read; without one the output is empty or misses the job. */
  method ParseBatchOutput(content: Content, customId: string, model: string, show: Printer)
    returns (r: Result<Value, DriverError>)
    ensures forall k | 0 <= k < |content.lines| && Decisive(content.lines[k], customId)
                       && (forall i | 0 <= i < k :: !Decisive(content.lines[i], customId)) ::
              var text := content.lines[k].text;
              if text.Malformed? then r.Failure? && r.error.Permanent? else r == ReadRecord(text.value, model, show)
    ensures (forall i | 0 <= i < |content.lines| :: !Decisive(content.lines[i], customId)) ==>
              r.Failure? && r.error.Permanent?
    ensures r.Failure? ==> r.error.Permanent?
  {
    var sawRecord := false;
    for i := 0 to |content.lines|
      invariant forall j | 0 <= j < i :: !Decisive(content.lines[j], customId)
    {
      var line := content.lines[i];
      if line.Record? {
        sawRecord := true;
        if line.text.Malformed? {
          return Failure(Permanent("provider returned malformed batch JSONL"));
        }
        if IsFor(line.text.value, customId) {
          return ReadRecord(line.text.value, model, show);
        }
      }
    }
    return Failure(Permanent(if sawRecord then "batch output does not contain custom_id" else "batch output is empty"));
  }

  // The object at /response/body.
  function BodyOf(record: Value): Option<Value> {
    var response := record.Get("response");
    if response.None? then None
    else
      var body := response.value.Get("body");
      if body.Some? && body.value.Object? then body else None
  }

  // A record for the job that says what went wrong: it has an error, or a response body that is an object.
  predicate Explains(line: Line, customId: string) {
    && line.Record? && line.text.Printed?
    && var record := line.text.value;
       && record.Get("custom_id") == Some(Text(customId))
       && ((record.Get("error").Some? && record.Get("error").value != Null) ||
           (record.Get("response").Some? && record.Get("response").value.Get("body").Some? &&
            record.Get("response").value.Get("body").value.Object?))
  }

  // A response that says it failed, without output.
  predicate SaysFailed(v: Value, model: string) {
    && v.Get("object") == Some(Text("response")) && v.Get("status") == Some(Text("failed"))
    && v.Get("model") == Some(Text(model)) && v.Get("output") == Some(Array([])) && v.Get("error").Some?
  }

  // It says why in a message.
  predicate Tells(v: Value, model: string, message: string) {
    SaysFailed(v, model) && v.Get("error").value.Get("message") == Some(Text(message))
  }

  // The value is the error or else the body of the first record that explains itself; without one it quotes the file.
  ghost predicate Diagnosed(content: Content, customId: string, model: string, v: Value) {
    var lines := content.lines;
    if exists k :: 0 <= k < |lines| && Explains(lines[k], customId) then
      exists k ::
        && 0 <= k < |lines| && Explains(lines[k], customId)
        && (forall i | 0 <= i < k :: !Explains(lines[i], customId))
        && var record := lines[k].text.value;
           if record.Get("error").Some? && record.Get("error").value != Null then
             SaysFailed(v, model) && v.Get("error") == record.Get("error")
           else record.Get("response").value.Get("body") == Some(v)
    else Tells(v, model, content.raw)
  }

  /** The first record of the job that explains itself is what counts, however many records come before or after it. */
  method NormalizeBatchError(content: Content, customId: string, model: string) returns (v: Value)
    ensures Diagnosed(content, customId, model, v)
  {
    for i := 0 to |content.lines|
      invariant forall j | 0 <= j < i :: !Explains(content.lines[j], customId)
    {
      var line := content.lines[i];
      if line.Record? && line.text.Printed? && IsFor(line.text.value, customId) {
        var error := ErrorOf(line.text.value);
        if error.Some? {
          assert Explains(line, customId);
          return FailedWith(model, error.value);
        }
        var body := BodyOf(line.text.value);
        if body.Some? {
          assert Explains(line, customId);
          return body.value;
        }
      }
    }
    return FailedResponse(model, content.raw);
  }

  // ---- From a batch's status to the job's outcome ----

  // What a response says it became.
  function OutcomeOfResponse(response: Value): Result<StoredOutcome, DriverError> {
    match TextAt(response, "status")
    case Some(status) =>
      if status == "completed" then Success(Completed(response))
      else if status == "failed" then Success(Failed(response))
      else if status == "incomplete" then Success(Incomplete(response))
      else Failure(Permanent("batch response has unsupported terminal status"))
    case None => Failure(Permanent("batch response is missing status"))
  }

  function OutcomeOfEnd(status: string, value: Value): StoredOutcome {
    if status == "expired" then Expired(value)
    else if status == "cancelled" then StoredOutcome.Cancelled(value)
    else Failed(value)
  }

  function ClassifyProvider(error: ProviderError): DriverError {
    if error.IsRetryable() then Retryable("provider") else Permanent("provider")
  }

  // A record for the job, with no malformed line and no other record for it before.
  predicate IsFirstRecord(lines: seq<Line>, k: nat, customId: string) {
    && k < |lines| && lines[k].Record? && lines[k].text.Printed?
    && lines[k].text.value.Get("custom_id") == Some(Text(customId))
    && forall i | 0 <= i < k && lines[i].Record? ::
         lines[i].text.Printed? && lines[i].text.value.Get("custom_id") != Some(Text(customId))
  }

  // The record has no error and a 2xx status, and the value is its body.
  predicate Genuine(record: Value, value: Value) {
    && record.Get("error") in {None, Some(Null)} && record.Get("response").Some?
    && var response := record.Get("response").value;
       && response.Get("status_code").Some? && response.Get("status_code").value.Integer?
       && 200 <= response.Get("status_code").value.number < 300
       && response.Get("body") == Some(value)
  }

  // The record has an error or a status that is not 2xx.
  predicate Refused(record: Value) {
    || record.Get("error") !in {None, Some(Null)}
    || (record.Get("response").Some? &&
          var response := record.Get("response").value;
          && response.Get("status_code").Some? && response.Get("status_code").value.Integer?
          && 0 <= response.Get("status_code").value.number <= U64_MAX
          && !(200 <= response.Get("status_code").value.number < 300)
          && response.Get("body").Some?)
  }

  // This is what it says of it: the error, or else the body.
  predicate Refuses(record: Value, reason: Value) {
    && Refused(record)
    && Some(reason) ==
       if record.Get("error") !in {None, Some(Null)} then record.Get("error")
       else record.Get("response").value.Get("body")
  }

  // The status an outcome of a response has in its body.
  function NameOf(outcome: StoredOutcome): Option<string> {
    match outcome
    case Completed(_) => Some("completed")
    case Failed(_) => Some("failed")
    case Incomplete(_) => Some("incomplete")
    case Expired(_) => None
    case Cancelled(_) => None
  }

  // The outcome is the body of the job's first record, which has no error and a 2xx status, and says so itself.
  predicate OutputSays(content: Content, customId: string, outcome: StoredOutcome) {
    && outcome.value.Object? && NameOf(outcome).Some?
    && outcome.value.Get("status") == Some(Text(NameOf(outcome).value))
    && exists k: nat | k < |content.lines| ::
         IsFirstRecord(content.lines, k, customId) && Genuine(content.lines[k].text.value, outcome.value)
  }

  // The job's first record has an error or a status that is not 2xx, and this is what it says of it.
  predicate OutputRefuses(content: Content, customId: string, reason: Value) {
    exists k: nat | k < |content.lines| ::
      IsFirstRecord(content.lines, k, customId) && Refuses(content.lines[k].text.value, reason)
  }

  predicate OutputRefused(content: Content, customId: string) {
    exists k: nat | k < |content.lines| ::
      IsFirstRecord(content.lines, k, customId) && Refused(content.lines[k].text.value)
  }

  // What an output file makes of the job: the body of its first record, or a failure that quotes why there is none.
  ghost predicate ReadFrom(content: Content, job: Job, show: Printer, outcome: StoredOutcome) {
    || OutputSays(content, job.CustomId(), outcome)
    || (outcome.Failed? &&
          exists reason: Value ::
            OutputRefuses(content, job.CustomId(), reason) && Tells(outcome.value, job.model, show(reason)))
  }

  // Reading a record and its response's status makes of it what it says.
  lemma {:induction false} RecordSays(record: Value, model: string, show: Printer, outcome: StoredOutcome)
    requires ReadRecord(record, model, show).Success?
    requires OutcomeOfResponse(ReadRecord(record, model, show).value) == Success(outcome)
    ensures || (Genuine(record, outcome.value) && outcome.value.Object? && NameOf(outcome).Some? &&
                  outcome.value.Get("status") == Some(Text(NameOf(outcome).value)))
            || (outcome.Failed? &&
                  exists reason: Value :: Refuses(record, reason) && Tells(outcome.value, model, show(reason)))
  {
    if ErrorOf(record).Some? {
      assert Refuses(record, ErrorOf(record).value);
      FailedTells(model, show(ErrorOf(record).value));
    } else {
      var response := record.Get("response").value;
      var body := response.Get("body").value;
      if !IsSuccess(response.Get("status_code").value.number) {
        assert Refuses(record, body);
        FailedTells(model, show(body));
      }
    }
  }

  // A record that says something is read as that.
  lemma {:induction false} SaidIsRead(
    record: Value, model: string, show: Printer, outcome: StoredOutcome, reason: Value)
    ensures Genuine(record, outcome.value) && outcome.value.Object? && NameOf(outcome).Some? &&
            outcome.value.Get("status") == Some(Text(NameOf(outcome).value)) ==>
              && ReadRecord(record, model, show) == Success(outcome.value)
              && OutcomeOfResponse(outcome.value) == Success(outcome)
    ensures Refuses(record, reason) ==>
              && ReadRecord(record, model, show) == Success(FailedResponse(model, show(reason)))
              && OutcomeOfResponse(FailedResponse(model, show(reason))) ==
                 Success(Failed(FailedResponse(model, show(reason))))
  {
    FailedTells(model, show(reason));
    hide FailedResponse;
  }

  // A failure of the proxy's own making, not the provider's.
  predicate IsOwnFailure(outcome: StoredOutcome) {
    && outcome.Failed? && outcome.value.Get("status") == Some(Text("failed")) && outcome.value.Get("error").Some?
    && outcome.value.Get("error").value.Get("code") == Some(Text("kaiion_batch_failed"))
  }

  lemma {:induction false} FailedTells(model: string, message: string)
    ensures Tells(FailedResponse(model, message), model, message)
    ensures IsOwnFailure(Failed(FailedResponse(model, message)))
    ensures TextAt(FailedResponse(model, message), "status") == Some("failed")
  {
  }

  /** A completed or incomplete outcome that was read from an output file is the body of the job's first record there,
      which has no error and a 2xx status. */
  lemma {:induction false} CompletedIsGenuine(content: Content, job: Job, show: Printer, outcome: StoredOutcome)
    requires ReadFrom(content, job, show, outcome) && !outcome.Failed?
    ensures OutputSays(content, job.CustomId(), outcome) && (outcome.Completed? || outcome.Incomplete?)
  {
  }

  // The one file that has to be fetched to tell the outcome of a batch.
  function FileNeeded(batch: BatchObject): Option<FileId> {
    if batch.status == "completed" then (if batch.outputFileId.Some? then batch.outputFileId else batch.errorFileId)
    else if batch.status in {"failed", "expired", "cancelled"} then batch.errorFileId
    else None
  }

  /** What a batch's status and the file it takes make of the job: of a completed batch, what the job's first output
      record says, or a failure with the diagnosis when there is only an error file; of any other end, the outcome of
      the same name with the diagnosis, or with the status when there is no file. */
  ghost predicate EndsAs(
    batch: BatchObject, file: Result<Content, ProviderError>, job: Job, show: Printer, outcome: StoredOutcome)
  {
    if batch.status == "completed" then
      && file.Success?
      && if batch.outputFileId.Some? then ReadFrom(file.value, job, show, outcome)
         else
           && batch.errorFileId.Some? && outcome.Failed?
           && Diagnosed(file.value, job.CustomId(), job.model, outcome.value)
    else
      && (batch.status == "failed" || batch.status == "expired" || batch.status == "cancelled")
      && (outcome.Failed? <==> batch.status == "failed") && (outcome.Expired? <==> batch.status == "expired")
      && (outcome.Cancelled? <==> batch.status == "cancelled")
      && if batch.errorFileId.Some? then
           file.Success? && Diagnosed(file.value, job.CustomId(), job.model, outcome.value)
         else Tells(outcome.value, job.model, "batch " + batch.id + " ended with status " + batch.status)
  }

  /** The outcome a batch's status calls for, if it has ended, given the file it takes. It is what the batch ended as;
      there is none yet exactly if the status is none of an end's; and a permanent error means that the batch ended in a
      way that makes nothing of the job. */
  method BatchOutcome(batch: BatchObject, file: Result<Content, ProviderError>, job: Job, show: Printer)
    returns (r: Result<Option<StoredOutcome>, DriverError>)
    ensures r == Success(None) <==> batch.status !in {"completed", "failed", "expired", "cancelled"}
    ensures r.Success? && r.value.Some? ==> EndsAs(batch, file, job, show, r.value.value)
    ensures FileNeeded(batch).Some? && file.Failure? ==> r == Failure(ClassifyProvider(file.error))
    ensures r.Failure? && (FileNeeded(batch).None? || file.Success?) ==>
              r.error.Permanent? && forall outcome :: !EndsAs(batch, file, job, show, outcome)
    ensures r.Failure? ==> !r.error.Conflict?
  {
    hide ReadFrom, Diagnosed, Tells, SaysFailed, FailedResponse;
    if FileNeeded(batch).Some? && file.Failure? {
      return Failure(ClassifyProvider(file.error));
    }
    if batch.status == "completed" {
      if batch.outputFileId.Some? {
        r := OutputOutcome(file.value, job, show);
      } else if batch.errorFileId.Some? {
        var value := NormalizeBatchError(file.value, job.CustomId(), job.model);
        r := Success(Some(Failed(value)));
      } else {
        r := Failure(Permanent("completed batch has neither output_file_id nor error_file_id"));
      }
    } else if batch.status in {"failed", "expired", "cancelled"} {
      var value;
      if batch.errorFileId.Some? {
        value := NormalizeBatchError(file.value, job.CustomId(), job.model);
      } else {
        value := FailedResponse(job.model, EndedMessage(batch));
        FailedTells(job.model, EndedMessage(batch));
      }
      r := Success(Some(OutcomeOfEnd(batch.status, value)));
    } else {
      r := Success(None);
    }
  }

  function EndedMessage(batch: BatchObject): string {
    "batch " + batch.id + " ended with status " + batch.status
  }

  method OutputOutcome(
    content: Content, job: Job, show: Printer)
    returns (r: Result<Option<StoredOutcome>, DriverError>)
    ensures r.Success? ==> r.value.Some? && ReadFrom(content, job, show, r.value.value)
    ensures r.Failure? ==> r.error.Permanent? && forall outcome :: !ReadFrom(content, job, show, outcome)
  {
    hide ReadRecord, Genuine, Refuses, Tells, ReadFrom;
    var response := ParseBatchOutput(content, job.CustomId(), job.model, show);
    if response.Failure? {
      NothingToRead(content, job, show, response);
      return Failure(response.error);
    }
    var outcome := OutcomeOfResponse(response.value);
    if outcome.Failure? {
      NothingToRead(content, job, show, response);
      return Failure(outcome.error);
    }
    SomethingToRead(content, job, show, response, outcome.value);
    return Success(Some(outcome.value));
  }

  // What parsing an output file promises.
  ghost predicate Parsed(content: Content, job: Job, show: Printer, r: Result<Value, DriverError>) {
    && (forall k | 0 <= k < |content.lines| && Decisive(content.lines[k], job.CustomId())
                   && (forall i | 0 <= i < k :: !Decisive(content.lines[i], job.CustomId())) ::
          var text := content.lines[k].text;
          if text.Malformed? then r.Failure? else r == ReadRecord(text.value, job.model, show))
    && ((forall i | 0 <= i < |content.lines| :: !Decisive(content.lines[i], job.CustomId())) ==> r.Failure?)
  }

  lemma {:induction false} SomethingToRead(
    content: Content, job: Job, show: Printer, r: Result<Value, DriverError>, outcome: StoredOutcome)
    requires Parsed(content, job, show, r) && r.Success? && OutcomeOfResponse(r.value) == Success(outcome)
    ensures ReadFrom(content, job, show, outcome)
  {
    hide ReadRecord, OutcomeOfResponse, Genuine, Refuses, Tells;
    var k := FirstRecord(content.lines, job.CustomId());
    RecordSays(content.lines[k].text.value, job.model, show, outcome);
  }

  lemma {:induction false} NothingToRead(content: Content, job: Job, show: Printer, r: Result<Value, DriverError>)
    requires Parsed(content, job, show, r) && (r.Failure? || OutcomeOfResponse(r.value).Failure?)
    ensures forall outcome :: !ReadFrom(content, job, show, outcome)
  {
    hide ReadRecord, OutcomeOfResponse, Genuine, Refuses, Tells;
    forall outcome ensures !ReadFrom(content, job, show, outcome) {
      if ReadFrom(content, job, show, outcome) {
        if OutputSays(content, job.CustomId(), outcome) {
          var k: nat :| k < |content.lines| && IsFirstRecord(content.lines, k, job.CustomId())
                        && Genuine(content.lines[k].text.value, outcome.value);
          FirstDecides(content.lines, k, job.CustomId());
          SaidIsRead(content.lines[k].text.value, job.model, show, outcome, Null);
        } else {
          var reason :| OutputRefuses(content, job.CustomId(), reason);
          var k: nat :| k < |content.lines| && IsFirstRecord(content.lines, k, job.CustomId())
                        && Refuses(content.lines[k].text.value, reason);
          FirstDecides(content.lines, k, job.CustomId());
          SaidIsRead(content.lines[k].text.value, job.model, show, outcome, reason);
        }
      }
    }
  }

  lemma {:induction false} FirstDecides(lines: seq<Line>, k: nat, customId: string)
    requires IsFirstRecord(lines, k, customId)
    ensures Decisive(lines[k], customId) && forall i | 0 <= i < k :: !Decisive(lines[i], customId)
  {
  }

  // Output that can be read has a first deciding line.
  lemma {:induction false} FirstRecord(lines: seq<Line>, customId: string) returns (k: nat)
    requires exists i :: 0 <= i < |lines| && Decisive(lines[i], customId)
    ensures k < |lines| && Decisive(lines[k], customId) && forall i | 0 <= i < k :: !Decisive(lines[i], customId)
    ensures lines[k].text.Printed? ==> IsFirstRecord(lines, k, customId)
  {
    var decisive :| 0 <= decisive < |lines| && Decisive(lines[decisive], customId);
    k := 0;
    while !Decisive(lines[k], customId)
      invariant k <= decisive && forall i | 0 <= i < k :: !Decisive(lines[i], customId)
      decreases decisive - k
    {
      k := k + 1;
    }
  }
}
