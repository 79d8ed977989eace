/** What the provider answers and how its answers are classified and searched (src/openai.rs). */
module Provider {
  import opened Basics
  import opened Json
  import opened Jobs

  datatype ProviderError =
    | Transport
    | RetryableHttp(status: nat, body: string)
    | PermanentHttp(status: nat, body: string)
    | Protocol(message: string)
    | OutputNotVisible(status: nat, body: string)
  {
    predicate IsRetryable() {
      Transport? || RetryableHttp? || OutputNotVisible?
    }
  }

  const TOO_MANY_REQUESTS: nat := 429
  const NOT_FOUND: nat := 404
  const CONFLICT: nat := 409

  // A reply that may be lost, with a status and a body.
  datatype Reply<T> = Lost | Reply(status: nat, body: T)

  predicate IsSuccess(status: nat) {
    200 <= status < 300
  }

  predicate IsServerError(status: nat) {
    500 <= status < 600
  }

  function ClassifyStatus(status: nat, body: string): ProviderError {
    if IsSuccess(status) then Protocol("successful response could not be decoded")
    else if status == TOO_MANY_REQUESTS || IsServerError(status) then RetryableHttp(status, body)
    else PermanentHttp(status, body)
  }

  // A control request's reply: its JSON body, or why there is none.
  function ReadJson(reply: Reply<JsonText>, lossy: JsonText -> string): Result<Value, ProviderError> {
    match reply
    case Lost => Failure(Transport)
    case Reply(status, body) =>
      if !IsSuccess(status) then Failure(ClassifyStatus(status, lossy(body)))
      else if body.Malformed? then Failure(Protocol("invalid JSON payload"))
      else Success(body.value)
  }

  // A file's content; a body that is not UTF-8 is None.
  function ReadFile<T>(reply: Reply<Option<T>>, lossy: T -> string): Result<T, ProviderError> {
    match reply
    case Lost => Failure(Transport)
    case Reply(status, body) =>
      if body.None? then Failure(Protocol("non-UTF-8 file content"))
      else if status == NOT_FOUND || status == CONFLICT then Failure(OutputNotVisible(status, lossy(body.value)))
      else if IsSuccess(status) then Success(body.value)
      else Failure(ClassifyStatus(status, lossy(body.value)))
  }

  /** A control request is worth repeating exactly when its reply was lost or said to slow down (429) or that the server
      failed (5xx); reading a file also when the file is not there yet (404 or 409). */
  lemma {:induction false} WhenToRetry<T>(
    reply: Reply<JsonText>, display: JsonText -> string, file: Reply<Option<T>>, show: T -> string)
    ensures ReadJson(reply, display).Failure? && ReadJson(reply, display).error.IsRetryable() <==>
            reply.Lost? || reply.status == 429 || 500 <= reply.status < 600
    ensures ReadFile(file, show).Failure? && ReadFile(file, show).error.IsRetryable() <==>
            || file.Lost?
            || (file.body.Some? && (file.status in {404, 409, 429} || 500 <= file.status < 600))
  {
  }

  // ---- Searching the list of batches ----

  datatype BatchObject = BatchObject(
    id: BatchId, status: string, outputFileId: Option<FileId>, errorFileId: Option<FileId>, metadata: Option<Value>)
  {
    // The batch was created for this job.
    predicate IsFor(id: JobId) {
      metadata.Some? && TextAt(metadata.value, "kaiion_job_id") == Some(id)
    }
  }

  datatype BatchList = BatchList(data: seq<BatchObject>, hasMore: bool, lastId: Option<BatchId>)

  // What the provider answers to a request for the page after a cursor.
  type Pages = Option<BatchId> -> Result<BatchList, ProviderError>

  function FirstFor(batches: seq<BatchObject>, id: JobId): (r: Option<BatchObject>)
    ensures r.Some? ==> r.value in batches && r.value.IsFor(id)
    ensures r.None? <==> forall b | b in batches :: !b.IsFor(id)
  {
    if batches == [] then None
    else if batches[0].IsFor(id) then Some(batches[0])
    else FirstFor(batches[1..], id)
  }

  // The cursor of the page to ask for next, if the search goes on.
  function NextCursor(list: BatchList, after: Option<BatchId>): Option<BatchId> {
    if list.lastId.None? || list.lastId.value == "" || !list.hasMore || after == list.lastId then None else list.lastId
  }

  // The cursor of the next request, if the search goes on after this one.
  function Follow(pages: Pages, id: JobId, after: Option<BatchId>): Option<Option<BatchId>> {
    var page := pages(after);
    if page.Success? && FirstFor(page.value.data, id).None? && NextCursor(page.value, after).Some? then
      Some(NextCursor(page.value, after))
    else None
  }

  // The search from a cursor stops within `n` requests.
  predicate Stops(pages: Pages, id: JobId, after: Option<BatchId>, n: nat)
    decreases n
  {
    n > 0 &&
    (Follow(pages, id, after).Some? ==> Stops(pages, id, Follow(pages, id, after).value, n - 1))
  }

  function Search(pages: Pages, id: JobId, after: Option<BatchId>, n: nat): Result<Option<BatchObject>, ProviderError>
    requires Stops(pages, id, after, n)
    decreases n
  {
    var page := pages(after);
    if page.Failure? then Failure(page.error)
    else if FirstFor(page.value.data, id).Some? then Success(FirstFor(page.value.data, id))
    else if NextCursor(page.value, after).None? then Success(None)
    else Search(pages, id, NextCursor(page.value, after), n - 1)
  }

  /** The search, for as many requests as it is given. It answers exactly if it stops within them, and a batch it
      returns is listed and was created for the job. */
  method FindBatch(
    pages: Pages, id: JobId, requests: nat)
    returns (r: Option<Result<Option<BatchObject>, ProviderError>>)
    ensures r.Some? <==> Stops(pages, id, None, requests)
    ensures r.Some? ==> r.value == Search(pages, id, None, requests)
    ensures r.Some? && r.value.Success? && r.value.value.Some? ==>
              && r.value.value.value.IsFor(id)
              && exists after :: pages(after).Success? && r.value.value.value in pages(after).value.data
  {
    var after: Option<BatchId> := None;
    var left: nat := requests;
    while left > 0
      invariant left <= requests && (Stops(pages, id, after, left) <==> Stops(pages, id, None, requests))
      invariant Stops(pages, id, after, left) ==> Search(pages, id, after, left) == Search(pages, id, None, requests)
    {
      var page := pages(after);
      if page.Failure? {
        return Some(Failure(page.error));
      }
      var batch := FirstFor(page.value.data, id);
      if batch.Some? {
        return Some(Success(batch));
      }
      var next := NextCursor(page.value, after);
      if next.None? {
        return Some(Success(None));
      }
      after := next;
      left := left - 1;
    }
    return None;
  }

  // ---- When the search stops ----

  // The cursor of the k-th request, counted from zero, if there is one.
  function RequestAt(pages: Pages, id: JobId, k: nat): Option<Option<BatchId>> {
    if k == 0 then Some(None)
    else
      var before := RequestAt(pages, id, k - 1);
      if before.Some? then Follow(pages, id, before.value) else None
  }

  lemma {:induction false} StopsAt(pages: Pages, id: JobId, i: nat, n: nat)
    requires RequestAt(pages, id, i).Some?
    ensures Stops(pages, id, RequestAt(pages, id, i).value, n) <==> n > 0 && RequestAt(pages, id, i + n).None?
    decreases n
  {
    if n > 0 {
      if RequestAt(pages, id, i + 1).Some? {
        StopsAt(pages, id, i + 1, n - 1);
        assert (i + 1) + (n - 1) == i + n;
      } else {
        NoMoreRequests(pages, id, i + 1, i + n);
      }
    }
  }

  lemma {:induction false} NoMoreRequests(pages: Pages, id: JobId, i: nat, j: nat)
    requires i <= j && RequestAt(pages, id, i).None?
    ensures RequestAt(pages, id, j).None?
  {
    if i < j {
      NoMoreRequests(pages, id, i, j - 1);
    }
  }

  // The search asks twice for the page after the same cursor.
  ghost predicate AsksAgain(pages: Pages, id: JobId, i: nat, j: nat) {
    i < j && RequestAt(pages, id, i).Some? && RequestAt(pages, id, j) == RequestAt(pages, id, i)
  }

  // From two equal requests on everything repeats.
  lemma {:induction false} AsksForEver(pages: Pages, id: JobId, i: nat, j: nat, k: nat)
    requires AsksAgain(pages, id, i, j)
    ensures RequestAt(pages, id, k).Some?
    decreases k
  {
    hide RequestAt;
    if k > j {
      AsksForEver(pages, id, i, j, k - (j - i));
      Repeats(pages, id, i, j, k - j);
      assert i + (k - j) == k - (j - i) && j + (k - j) == k;
    } else if RequestAt(pages, id, k).None? {
      NoMoreRequests(pages, id, k, j);
    }
  }

  lemma {:induction false} Repeats(pages: Pages, id: JobId, i: nat, j: nat, d: nat)
    requires RequestAt(pages, id, i) == RequestAt(pages, id, j)
    ensures RequestAt(pages, id, i + d) == RequestAt(pages, id, j + d)
  {
    if d > 0 {
      Repeats(pages, id, i, j, d - 1);
      assert i + d - 1 == i + (d - 1) && j + d - 1 == j + (d - 1);
    }
  }

  // One of the requests up to the k-th was for the page after this cursor.
  ghost predicate AskedBy(pages: Pages, id: JobId, k: nat, cursor: Option<BatchId>) {
    exists i: nat :: i <= k && RequestAt(pages, id, i) == Some(cursor)
  }

  // Requests that never repeat use up the cursors.
  lemma {:induction false} DistinctRequests(pages: Pages, id: JobId, k: nat, cursors: set<Option<BatchId>>)
    returns (used: set<Option<BatchId>>)
    requires forall j: nat | RequestAt(pages, id, j).Some? :: RequestAt(pages, id, j).value in cursors
    requires RequestAt(pages, id, k).Some? && forall i: nat, j: nat :: !AsksAgain(pages, id, i, j)
    ensures |used| == k + 1 && used <= cursors
    ensures forall c | c in used :: AskedBy(pages, id, k, c)
  {
    hide Follow;
    var here := RequestAt(pages, id, k).value;
    assert AskedBy(pages, id, k, here);
    if k == 0 {
      used := {here};
    } else {
      EarlierRequest(pages, id, k);
      var before := DistinctRequests(pages, id, k - 1, cursors);
      forall c | c in before ensures c != here && AskedBy(pages, id, k, c) {
        var i: nat :| i <= k - 1 && RequestAt(pages, id, i) == Some(c);
        assert !AsksAgain(pages, id, i, k);
      }
      used := before + {here};
    }
  }

  lemma {:induction false} EarlierRequest(pages: Pages, id: JobId, k: nat)
    requires k > 0 && RequestAt(pages, id, k).Some?
    ensures RequestAt(pages, id, k - 1).Some?
  {
  }

  lemma {:induction false} NoMoreThan<T>(some: set<T>, all: set<T>)
    requires some <= all
    ensures |some| <= |all|
  {
    if some != {} {
      var x :| x in some;
      NoMoreThan(some - {x}, all - {x});
    }
  }

  /** The search stops if and only if it never asks for the page after the same cursor twice, whatever the provider
      answers, as long as its cursors come from a finite set. */
  lemma {:induction false} StopsUnlessItAsksAgain(pages: Pages, id: JobId, cursors: set<Option<BatchId>>)
    requires forall k: nat | RequestAt(pages, id, k).Some? :: RequestAt(pages, id, k).value in cursors
    ensures (exists n: nat :: Stops(pages, id, None, n)) <==> forall i: nat, j: nat :: !AsksAgain(pages, id, i, j)
  {
    if forall i: nat, j: nat :: !AsksAgain(pages, id, i, j) {
      var n := |cursors|;
      if RequestAt(pages, id, n).Some? {
        var used := DistinctRequests(pages, id, n, cursors);
        NoMoreThan(used, cursors);
        assert false;
      }
      StopsAt(pages, id, 0, n);
      assert Stops(pages, id, None, n);
    } else {
      var i: nat, j: nat :| AsksAgain(pages, id, i, j);
      forall n: nat ensures !Stops(pages, id, None, n) {
        AsksForEver(pages, id, i, j, n);
        StopsAt(pages, id, 0, n);
      }
    }
  }

  // ---- A finite list served in pages ----

  // The cursor that stands for "after the first k batches".
  function CursorAt(all: seq<BatchObject>, k: nat): Option<BatchId>
    requires k <= |all|
  {
    if k == 0 then None else Some(all[k - 1].id)
  }

  // The page after the first k batches holds at least one more, if there is one, and says where it ends.
  ghost predicate PageAfter(pages: Pages, all: seq<BatchObject>, k: nat)
    requires k <= |all|
  {
    exists end | k <= end <= |all| ::
      && (k < |all| ==> k < end)
      && pages(CursorAt(all, k)) ==
           Success(BatchList(all[k..end], end < |all|, if end == k then None else Some(all[end - 1].id)))
  }

  ghost predicate WellPaged(pages: Pages, all: seq<BatchObject>) {
    && (forall i, j | 0 <= i < j < |all| :: all[i].id != all[j].id)
    && (forall i | 0 <= i < |all| :: all[i].id != "")
    && (forall k | 0 <= k <= |all| :: PageAfter(pages, all, k))
  }

  lemma {:induction false} FirstForConcat(a: seq<BatchObject>, b: seq<BatchObject>, id: JobId)
    ensures FirstFor(a + b, id) == if FirstFor(a, id).Some? then FirstFor(a, id) else FirstFor(b, id)
  {
    hide BatchObject.IsFor;
    if a == [] {
      assert a + b == b;
    } else {
      FirstForConcat(a[1..], b, id);
      assert (a + b)[1..] == a[1..] + b && (a + b)[0] == a[0];
    }
  }

  /** Over a finite list served in pages of any sizes the search ends within one request for each batch plus one, and
      finds the first batch for the job, if there is one at all. */
  lemma {:induction false} SearchIsExact(pages: Pages, all: seq<BatchObject>, id: JobId, k: nat)
    requires WellPaged(pages, all) && k <= |all|
    ensures Stops(pages, id, CursorAt(all, k), |all| - k + 1)
    ensures Search(pages, id, CursorAt(all, k), |all| - k + 1) == Success(FirstFor(all[k..], id))
    decreases |all| - k
  {
    hide WellPaged, FirstFor, NextCursor;
    var end := PageEnd(pages, all, k);
    var after, list := CursorAt(all, k), pages(CursorAt(all, k)).value;
    assert all[k..] == all[k..end] + all[end..];
    FirstForConcat(all[k..end], all[end..], id);
    if end < |all| {
      var n: nat := |all| - k;
      SearchIsExact(pages, all, id, end);
      StopsLater(pages, id, CursorAt(all, end), |all| - end + 1, n);
    } else {
      assert all[end..] == [];
    }
  }

  // Where the page after the first k batches ends, and the cursor that leads on from it.
  lemma {:induction false} PageEnd(pages: Pages, all: seq<BatchObject>, k: nat) returns (end: nat)
    requires WellPaged(pages, all) && k <= |all|
    ensures k <= end <= |all| && (k < |all| ==> k < end)
    ensures pages(CursorAt(all, k)).Success?
    ensures var list := pages(CursorAt(all, k)).value;
            && list.data == all[k..end]
            && NextCursor(list, CursorAt(all, k)) == if end < |all| then CursorAt(all, end) else None
  {
    assert PageAfter(pages, all, k);
    end :| k <= end <= |all| && (k < |all| ==> k < end) && pages(CursorAt(all, k)) ==
      Success(BatchList(all[k..end], end < |all|, if end == k then None else Some(all[end - 1].id)));
  }

  lemma {:induction false} StopsLater(pages: Pages, id: JobId, after: Option<BatchId>, n: nat, m: nat)
    requires Stops(pages, id, after, n) && n <= m
    ensures Stops(pages, id, after, m) && Search(pages, id, after, m) == Search(pages, id, after, n)
    decreases n
  {
    if Follow(pages, id, after).Some? {
      StopsLater(pages, id, Follow(pages, id, after).value, n - 1, m - 1);
    }
  }

  // A list whose cursors alternate between two ids, and holds no batch for the job.
  function Alternating(after: Option<BatchId>): Result<BatchList, ProviderError> {
    Success(BatchList([], true, Some(if after == Some("a") then "b" else "a")))
  }

  /** Only a page that repeats the cursor it was asked for ends the search: cursors that go round in a longer circle
      keep it going for any number of requests. */
  lemma {:induction false} SearchCanCycle(id: JobId, after: Option<BatchId>, n: nat)
    requires after in {None, Some("a"), Some("b")}
    ensures !Stops(Alternating, id, after, n)
    decreases n
  {
    if n > 0 {
      SearchCanCycle(id, NextCursor(Alternating(after).value, after), n - 1);
    }
  }
}
