/** The two tables of the job store and the transaction that enters a request (src/job_store.rs; migrations/). */
module JobStores {
  import opened Basics
  import opened Json
  import opened Jobs
  import opened Identity
  import World

  datatype NormalizedRequest = NormalizedRequest(identity: RequestIdentity, model: string, body: Value)

  datatype JobRow = JobRow(auth: Bytes, requestHash: Bytes, raw: RawJob)
  datatype RequestRow = RequestRow(provider: Bytes, auth: Bytes, idempotencyHash: Option<Bytes>, body: Value)

  datatype Tables = Tables(jobs: map<JobId, JobRow>, requests: map<JobId, RequestRow>)

  datatype StoreError = IdempotencyConflict | NotFound | RowNotFound

  predicate IsJobOf(t: Tables, id: JobId, auth: Bytes, requestHash: Bytes) {
    id in t.jobs && t.jobs[id].auth == auth && t.jobs[id].requestHash == requestHash
  }

  predicate OwnsKey(t: Tables, id: JobId, auth: Bytes, key: Bytes) {
    id in t.requests && t.requests[id].auth == auth && t.requests[id].idempotencyHash == Some(key)
  }

  ghost predicate HasJob(t: Tables, auth: Bytes, requestHash: Bytes) {
    exists id :: IsJobOf(t, id, auth, requestHash)
  }

  ghost predicate KeyUsed(t: Tables, auth: Bytes, key: Bytes) {
    exists id :: OwnsKey(t, id, auth, key)
  }

  // ---- What the tables always satisfy ----

  // PRIMARY KEY, UNIQUE, REFERENCES and CHECK; NULL idempotency hashes never equal each other.
  ghost predicate ConstraintsHold(t: Tables) {
    && UniqueJobs(t) && UniqueKeys(t)
    && (forall id | id in t.requests :: id in t.jobs)
    && (forall id | id in t.jobs :: RowOk(t.jobs[id].raw) && t.jobs[id].raw.id == id)
  }

  // A request row belongs to the owner of its job, and its idempotency hash is the one that goes with the request hash.
  ghost predicate Linked(t: Tables) {
    forall id | id in t.requests ::
      && id in t.jobs && t.requests[id].auth == t.jobs[id].auth
      && forall r: RequestIdentity | Proper(r) && RequestHash(r) == t.jobs[id].requestHash ::
           t.requests[id].idempotencyHash == IdempotencyHash(r)
  }

  ghost predicate TablesOk(t: Tables) {
    ConstraintsHold(t) && Linked(t)
  }

  // The owner's idempotency key is already bound to a job for another request.
  ghost predicate KeyTaken(t: Tables, auth: Bytes, identity: RequestIdentity) {
    exists id :: KeyTakenBy(t, id, auth, identity)
  }

  predicate KeyTakenBy(t: Tables, id: JobId, auth: Bytes, identity: RequestIdentity) {
    && IdempotencyHash(identity).Some? && OwnsKey(t, id, auth, IdempotencyHash(identity).value)
    && id in t.jobs && t.jobs[id].requestHash != RequestHash(identity)
  }

  // ---- Entering a request ----

  /** What one `enqueue` may do. It succeeds only if the owner's key is not taken: then the request gets the job it
      already has, or a new queued one, and its row unless the job has one. It conflicts only if the key is taken. That
      and a clash of the new job's id, which is found only when the request has no job yet, change nothing. */
  ghost predicate Entered(
    t: Tables, u: Tables, auth: Bytes, provider: Bytes, request: NormalizedRequest, r: Result<Job, StoreError>)
  {
    var hash := RequestHash(request.identity);
    match r
    case Failure(error) =>
      && u == t
      && (if error == IdempotencyConflict then KeyTaken(t, auth, request.identity)
          else error == RowNotFound && !HasJob(t, auth, hash))
    case Success(job) =>
      && !KeyTaken(t, auth, request.identity)
      && u.requests == (if job.id in t.requests then t.requests
                        else
                          var key := IdempotencyHash(request.identity);
                          t.requests[job.id := RequestRow(provider, auth, key, request.body)])
      && (if IsJobOf(t, job.id, auth, hash) then u.jobs == t.jobs
          else
            && job.id !in t.jobs && !HasJob(t, auth, hash)
            && u.jobs == t.jobs[job.id := JobRow(auth, hash, Encode(Job(job.id, request.model, Queued)))])
      && Decode(u.jobs[job.id].raw) == Success(job)
  }

  // The owner lookup never misses, and finds the request's own job exactly when the key is not taken.
  lemma {:induction false} OwnerIsFound(
    t: Tables, u: Tables, id: JobId, auth: Bytes, request: NormalizedRequest, row: RequestRow)
    requires TablesOk(t) && Proper(request.identity) && IdempotencyHash(request.identity).Some?
    requires IsJobOf(t, id, auth, RequestHash(request.identity))
    requires row.auth == auth && row.idempotencyHash == IdempotencyHash(request.identity)
    requires u == if id in t.requests || KeyUsed(t, auth, row.idempotencyHash.value) then t
                  else t.(requests := t.requests[id := row])
    ensures KeyUsed(u, auth, row.idempotencyHash.value)
    ensures forall owner | OwnsKey(u, owner, auth, row.idempotencyHash.value) ::
              owner != id <==> KeyTaken(t, auth, request.identity)
    ensures !KeyTaken(t, auth, request.identity) ==>
              u.requests == if id in t.requests then t.requests else t.requests[id := row]
  {
    var key := row.idempotencyHash.value;
    if id in t.requests {
      assert OwnsKey(t, id, auth, key);
    } else if KeyUsed(t, auth, key) {
      var j :| OwnsKey(t, j, auth, key);
      assert t.jobs[j].requestHash != RequestHash(request.identity) by {
        assert !IsJobOf(t, j, auth, RequestHash(request.identity));
      }
      assert KeyTakenBy(t, j, auth, request.identity);
    } else {
      assert OwnsKey(u, id, auth, key);
      NewKeyIsUnique(t, u, id, row);
    }
  }

  ghost predicate UniqueJobs(t: Tables) {
    forall i, j, auth, hash | IsJobOf(t, i, auth, hash) && IsJobOf(t, j, auth, hash) :: i == j
  }

  ghost predicate UniqueKeys(t: Tables) {
    forall i, j, auth, key | OwnsKey(t, i, auth, key) && OwnsKey(t, j, auth, key) :: i == j
  }

  lemma {:induction false} NewJobIsUnique(t: Tables, u: Tables, id: JobId, row: JobRow)
    requires UniqueJobs(t) && u.jobs == t.jobs[id := row]
    requires forall other | other != id :: !IsJobOf(t, other, row.auth, row.requestHash)
    ensures UniqueJobs(u)
  {
    forall i, j, auth, hash | IsJobOf(u, i, auth, hash) && IsJobOf(u, j, auth, hash) ensures i == j {
      assert i == id || IsJobOf(t, i, auth, hash);
      assert j == id || IsJobOf(t, j, auth, hash);
    }
  }

  lemma {:induction false} NewKeyIsUnique(t: Tables, u: Tables, id: JobId, row: RequestRow)
    requires UniqueKeys(t) && u.requests == t.requests[id := row]
    requires row.idempotencyHash.Some? ==>
               forall other | other != id :: !OwnsKey(t, other, row.auth, row.idempotencyHash.value)
    ensures UniqueKeys(u)
  {
    forall i, j, auth, key | OwnsKey(u, i, auth, key) && OwnsKey(u, j, auth, key) ensures i == j {
      assert i == id || OwnsKey(t, i, auth, key);
      assert j == id || OwnsKey(t, j, auth, key);
    }
  }

  // A key that is not taken is owned by the request's own job, if by any.
  lemma {:induction false} KeyIsOwn(t: Tables, id: JobId, auth: Bytes, identity: RequestIdentity, owner: JobId)
    requires TablesOk(t) && !KeyTaken(t, auth, identity) && IdempotencyHash(identity).Some?
    requires OwnsKey(t, owner, auth, IdempotencyHash(identity).value)
    ensures IsJobOf(t, owner, auth, RequestHash(identity))
  {
    assert !KeyTakenBy(t, owner, auth, identity);
  }

  /** Entering a request keeps every constraint. */
  lemma {:induction false} EnteredKeeps(
    t: Tables, u: Tables, auth: Bytes, provider: Bytes, request: NormalizedRequest, r: Result<Job, StoreError>)
    requires TablesOk(t) && Proper(request.identity) && Entered(t, u, auth, provider, request, r)
    ensures TablesOk(u)
  {
    if r.Success? {
      var id, hash, key := r.value.id, RequestHash(request.identity), IdempotencyHash(request.identity);
      RowsAreJobs(Job(id, request.model, Queued), Encode(Job(id, request.model, Queued)));
      forall s: RequestIdentity | Proper(s) && RequestHash(s) == hash ensures IdempotencyHash(s) == key {
        HashesIdentify(s, request.identity);
      }
      if key.Some? {
        forall other | OwnsKey(t, other, auth, key.value) ensures other == id {
          KeyIsOwn(t, id, auth, request.identity, other);
        }
      }
      if u.jobs != t.jobs {
        NewJobIsUnique(t, u, id, JobRow(auth, hash, Encode(Job(id, request.model, Queued))));
      }
      if u.requests != t.requests {
        NewKeyIsUnique(t, u, id, RequestRow(provider, auth, key, request.body));
      }
      SameKeysUnique(t, u);
    }
  }

  lemma {:induction false} SameKeysUnique(t: Tables, u: Tables)
    ensures u.jobs == t.jobs && UniqueJobs(t) ==> UniqueJobs(u)
    ensures u.requests == t.requests && UniqueKeys(t) ==> UniqueKeys(u)
  {
    if u.jobs == t.jobs {
      assert forall i, auth, hash :: IsJobOf(u, i, auth, hash) == IsJobOf(t, i, auth, hash);
    }
    if u.requests == t.requests {
      assert forall i, auth, key :: OwnsKey(u, i, auth, key) == OwnsKey(t, i, auth, key);
    }
  }

  lemma {:induction false} DecodedId(row: RawJob)
    requires RowOk(row)
    ensures Decode(row).Success? && Decode(row).value.id == row.id
  {
  }

  // A job without a request row takes no key.
  lemma {:induction false} SameTaken(t: Tables, u: Tables, auth: Bytes, identity: RequestIdentity)
    requires TablesOk(t) && u.requests == t.requests
    requires forall id | id in t.jobs :: id in u.jobs && u.jobs[id] == t.jobs[id]
    ensures KeyTaken(t, auth, identity) <==> KeyTaken(u, auth, identity)
  {
    assert forall id :: KeyTakenBy(t, id, auth, identity) <==> KeyTakenBy(u, id, auth, identity);
  }

  // ---- Over any run ----

  // What happens to the tables: requests are entered, and jobs are driven on.
  datatype Event =
    | Entry(auth: Bytes, provider: Bytes, request: NormalizedRequest, result: Result<Job, StoreError>)
    | Driven

  // Driving jobs changes only the columns of their states.
  ghost predicate DrivenOn(t: Tables, u: Tables) {
    && u.requests == t.requests && u.jobs.Keys == t.jobs.Keys
    && forall id | id in t.jobs ::
         && u.jobs[id].auth == t.jobs[id].auth && u.jobs[id].requestHash == t.jobs[id].requestHash
         && RowOk(u.jobs[id].raw) && u.jobs[id].raw.id == id
  }

  function Raws(t: Tables): map<JobId, RawJob> {
    map id | id in t.jobs :: t.jobs[id].raw
  }

  // The tables after a worker's update of one job.
  function AfterUpdate(t: Tables, op: World.Operation): Tables
    requires op.id in t.jobs
  {
    t.(jobs := t.jobs[op.id := t.jobs[op.id].(raw := World.Updated(t.jobs[op.id].raw, op))])
  }

  lemma {:induction false} UpdateKeepsRow(t: Tables, trace: World.Trace, op: World.Operation)
    requires TablesOk(t) && World.Selects(Raws(t), op) && World.LegalOp(trace, op)
    ensures op.id in t.jobs
    ensures var updated := World.Updated(t.jobs[op.id].raw, op);
            RowOk(updated) && updated.id == op.id
    ensures forall id | id in t.jobs :: RowOk(t.jobs[id].raw) && t.jobs[id].raw.id == id
  {
    hide World.Updated, World.LegalOp, UniqueJobs, UniqueKeys, Linked, RowOk, Decode;
    World.UpdatedRow(t.jobs[op.id].raw, op, Raws(t), trace);
  }

  lemma {:induction false} RowReplaced(t: Tables, id: JobId, raw: RawJob)
    requires id in t.jobs && RowOk(raw) && raw.id == id
    requires forall other | other in t.jobs :: RowOk(t.jobs[other].raw) && t.jobs[other].raw.id == other
    ensures var u := t.(jobs := t.jobs[id := t.jobs[id].(raw := raw)]);
            DrivenOn(t, u) && Raws(u) == Raws(t)[id := raw]
  {
    hide RowOk;
  }

  /** Whatever workers may do to a job's row leaves the rest of the store as it was. */
  lemma {:induction false} WorkersDrive(t: Tables, trace: World.Trace, op: World.Operation)
    requires TablesOk(t) && World.Selects(Raws(t), op) && World.LegalOp(trace, op)
    ensures DrivenOn(t, AfterUpdate(t, op)) && Raws(AfterUpdate(t, op)) == World.Effect(Raws(t), op)
  {
    hide World.Updated, World.LegalOp, TablesOk, RowOk, DrivenOn;
    UpdateKeepsRow(t, trace, op);
    RowReplaced(t, op.id, World.Updated(t.jobs[op.id].raw, op));
  }

  ghost predicate Happens(t: Tables, u: Tables, e: Event) {
    match e
    case Entry(auth, provider, request, result) =>
      Proper(request.identity) && Entered(t, u, auth, provider, request, result)
    case Driven => DrivenOn(t, u)
  }

  ghost predicate IsRun(ts: seq<Tables>, es: seq<Event>) {
    && |ts| == |es| + 1 && TablesOk(ts[0])
    && forall i | 0 <= i < |es| :: Happens(ts[i], ts[i + 1], es[i])
  }

  lemma {:induction false} HappensKeeps(t: Tables, u: Tables, e: Event)
    requires TablesOk(t) && Happens(t, u, e)
    ensures TablesOk(u)
    ensures forall id, auth, key | OwnsKey(t, id, auth, key) :: OwnsKey(u, id, auth, key)
    ensures forall id, auth, hash | IsJobOf(t, id, auth, hash) :: IsJobOf(u, id, auth, hash)
  {
    match e
    case Entry(auth, provider, request, result) => EnteredKeeps(t, u, auth, provider, request, result);
    case Driven =>
      assert forall i, auth, hash :: IsJobOf(u, i, auth, hash) == IsJobOf(t, i, auth, hash);
      assert forall i, auth, key :: OwnsKey(u, i, auth, key) == OwnsKey(t, i, auth, key);
  }

  lemma {:induction false} RunKeeps(ts: seq<Tables>, es: seq<Event>, i: nat, j: nat, id: JobId, auth: Bytes)
    requires IsRun(ts, es) && i <= j < |ts|
    ensures TablesOk(ts[i]) && TablesOk(ts[j])
    ensures forall key | OwnsKey(ts[i], id, auth, key) :: OwnsKey(ts[j], id, auth, key)
    ensures forall hash | IsJobOf(ts[i], id, auth, hash) :: IsJobOf(ts[j], id, auth, hash)
    decreases j
  {
    hide TablesOk, Happens, OwnsKey, IsJobOf;
    if i < j {
      RunKeeps(ts, es, i, j - 1, id, auth);
      assert Happens(ts[j - 1], ts[j], es[j - 1]);
      HappensKeeps(ts[j - 1], ts[j], es[j - 1]);
    } else if i > 0 {
      RunKeeps(ts, es, i - 1, j - 1, id, auth);
      assert Happens(ts[j - 1], ts[j], es[j - 1]);
      HappensKeeps(ts[j - 1], ts[j], es[j - 1]);
    }
  }

  /** An idempotency key stays bound to the job it was first used for: over any run, two requests of one owner entered
      with the same key got the same job and were the same request, and one for a different request conflicted. */
  lemma {:induction false} KeyIsBoundForever(ts: seq<Tables>, es: seq<Event>, i: nat, j: nat)
    requires IsRun(ts, es) && i < j < |es|
    requires es[i].Entry? && es[j].Entry? && es[i].auth == es[j].auth && es[i].result.Success?
    requires IdempotencyHash(es[i].request.identity).Some?
    requires IdempotencyHash(es[i].request.identity) == IdempotencyHash(es[j].request.identity)
    ensures es[j].result.Success? ==> RequestHash(es[i].request.identity) == RequestHash(es[j].request.identity)
    ensures es[j].result == Failure(IdempotencyConflict) ==>
              RequestHash(es[i].request.identity) != RequestHash(es[j].request.identity)
    ensures es[j].result.Success? ==> es[j].result.value.id == es[i].result.value.id
  {
    var auth, a, b := es[i].auth, es[i].request.identity, es[j].request.identity;
    var id, key := es[i].result.value.id, IdempotencyHash(a).value;
    assert Happens(ts[i], ts[i + 1], es[i]) && Happens(ts[j], ts[j + 1], es[j]);
    RunKeeps(ts, es, i, i + 1, id, auth);
    EnteredOwns(ts[i], ts[i + 1], auth, es[i].provider, es[i].request, es[i].result);
    RunKeeps(ts, es, i + 1, j, id, auth);
    if RequestHash(a) != RequestHash(b) {
      assert KeyTakenBy(ts[j], id, auth, b);
    } else {
      forall other ensures !KeyTakenBy(ts[j], other, auth, b) {
        assert OwnsKey(ts[j], other, auth, key) ==> other == id;
      }
    }
    if es[j].result.Success? {
      KeyIsOwn(ts[j], es[j].result.value.id, auth, b, id);
      RunKeeps(ts, es, j, j + 1, id, auth);
      EnteredOwns(ts[j], ts[j + 1], auth, es[j].provider, es[j].request, es[j].result);
    }
  }

  // A request that was entered with a key owns it.
  lemma {:induction false} EnteredOwns(
    t: Tables, u: Tables, auth: Bytes, provider: Bytes, request: NormalizedRequest, r: Result<Job, StoreError>)
    requires TablesOk(t) && Proper(request.identity) && Entered(t, u, auth, provider, request, r) && r.Success?
    ensures IsJobOf(u, r.value.id, auth, RequestHash(request.identity))
    ensures IdempotencyHash(request.identity).Some? ==>
              OwnsKey(u, r.value.id, auth, IdempotencyHash(request.identity).value)
  {
    EnteredKeeps(t, u, auth, provider, request, r);
    RowsAreJobs(Job(r.value.id, request.model, Queued), u.jobs[r.value.id].raw);
    assert u.requests[r.value.id].idempotencyHash == IdempotencyHash(request.identity);
  }

  // ---- The store ----

  class JobStore {
    var jobs: map<JobId, JobRow>
    var requests: map<JobId, RequestRow>

    function State(): Tables
      reads this
    {
      Tables(jobs, requests)
    }

    ghost predicate Valid()
      reads this
    {
      TablesOk(State())
    }

    constructor ()
      ensures Valid() && jobs == map[] && requests == map[]
    {
      jobs, requests := map[], map[];
    }

    // The owner's job for a request, if there is one.
    method FindJob(auth: Bytes, hash: Bytes) returns (r: Option<JobId>)
      ensures r.Some? ==> IsJobOf(State(), r.value, auth, hash)
      ensures r.Some? <==> HasJob(State(), auth, hash)
    {
      if id :| id in jobs && IsJobOf(State(), id, auth, hash) {
        return Some(id);
      }
      return None;
    }

    // The job that the owner's idempotency key is bound to, if it is bound.
    method FindOwner(auth: Bytes, key: Bytes) returns (r: Option<JobId>)
      ensures r.Some? ==> OwnsKey(State(), r.value, auth, key)
      ensures r.Some? <==> KeyUsed(State(), auth, key)
    {
      if id :| id in requests && OwnsKey(State(), id, auth, key) {
        return Some(id);
      }
      return None;
    }

    // Ignored when the id is taken or the owner already has a job for the request.
    method InsertJob(id: JobId, auth: Bytes, hash: Bytes, model: string)
      modifies this`jobs
      ensures jobs == if id in old(jobs) || HasJob(old(State()), auth, hash) then old(jobs)
                      else old(jobs)[id := JobRow(auth, hash, Encode(Job(id, model, Queued)))]
    {
      var existing := FindJob(auth, hash);
      if id !in jobs && existing.None? {
        jobs := jobs[id := JobRow(auth, hash, Encode(Job(id, model, Queued)))];
      }
    }

    // Ignored when the job has a row or the owner has used the key.
    method InsertRequest(id: JobId, row: RequestRow)
      modifies this`requests
      ensures requests ==
                if id in old(requests) ||
                   (row.idempotencyHash.Some? && KeyUsed(old(State()), row.auth, row.idempotencyHash.value))
                then old(requests) else old(requests)[id := row]
    {
      var taken := false;
      if row.idempotencyHash.Some? {
        var owner := FindOwner(row.auth, row.idempotencyHash.value);
        taken := owner.Some?;
      }
      if id !in requests && !taken {
        requests := requests[id := row];
      }
    }

    // The owner's job for a request is entered: the one it has, or a new one under the new id unless that is taken.
    method EnterJob(id: JobId, auth: Bytes, hash: Bytes, model: string) returns (found: Option<JobId>)
      requires Valid()
      modifies this`jobs
      ensures Valid()
      ensures found.None? ==> jobs == old(jobs) && id in jobs && !HasJob(old(State()), auth, hash)
      ensures found.Some? && HasJob(old(State()), auth, hash) ==>
                jobs == old(jobs) && IsJobOf(State(), found.value, auth, hash)
      ensures found.Some? && !HasJob(old(State()), auth, hash) ==>
                && found.value == id && id !in old(jobs)
                && jobs == old(jobs)[id := JobRow(auth, hash, Encode(Job(id, model, Queued)))]
    {
      ghost var before := State();
      InsertJob(id, auth, hash, model);
      found := FindJob(auth, hash);
      if jobs != before.jobs {
        RowsAreJobs(Job(id, model, Queued), Encode(Job(id, model, Queued)));
        NewJobIsUnique(before, State(), id, JobRow(auth, hash, Encode(Job(id, model, Queued))));
        assert IsJobOf(State(), id, auth, hash);
      }
      SameKeysUnique(before, State());
      assert State().requests == before.requests;
    }

    /** One transaction: enter the job and its request, find who owns the idempotency key, and roll everything back when
        that is another job. The source reads the job once more after the commit, when it may have moved on. */
    method Enqueue(
      auth: Bytes, provider: Bytes, request: NormalizedRequest, newId: JobId)
      returns (r: Result<Job, StoreError>)
      requires Valid() && Proper(request.identity)
      modifies this
      ensures Valid() && Entered(old(State()), State(), auth, provider, request, r)
      ensures r == Failure(RowNotFound) <==>
                newId in old(jobs) && !HasJob(old(State()), auth, RequestHash(request.identity))
      ensures r == Failure(IdempotencyConflict) <==>
                r != Failure(RowNotFound) && KeyTaken(old(State()), auth, request.identity)
    {
      hide Linked, RequestHash, IdempotencyHash, Decode, RowOk;
      var savedJobs, savedRequests := jobs, requests;
      var hash, key := RequestHash(request.identity), IdempotencyHash(request.identity);
      var found := EnterJob(newId, auth, hash, request.model);
      SameTaken(old(State()), State(), auth, request.identity);
      if found.None? {
        jobs, requests := savedJobs, savedRequests;
        return Failure(RowNotFound);
      }
      var id := found.value;
      ghost var mid := State();
      var row := RequestRow(provider, auth, key, request.body);
      InsertRequest(id, row);
      if key.Some? {
        OwnerIsFound(mid, State(), id, auth, request, row);
        var owner := FindOwner(auth, key.value);
        // The lookup never misses.
        if owner != Some(id) {
          jobs, requests := savedJobs, savedRequests;
          return Failure(IdempotencyConflict);
        }
      }
      r := Success(Decode(jobs[id].raw).value);
      DecodedId(jobs[id].raw);
      EnteredKeeps(old(State()), State(), auth, provider, request, r);
    }

    // Asked before live requests, without entering anything: is the owner's key bound to another request?
    method CheckIdempotency(auth: Bytes, request: NormalizedRequest) returns (r: Result<(), StoreError>)
      requires Valid()
      ensures r == if KeyTaken(State(), auth, request.identity) then Failure(IdempotencyConflict) else Success(())
    {
      var key := IdempotencyHash(request.identity);
      if key.Some? {
        var owner := FindOwner(auth, key.value);
        if owner.Some? && jobs[owner.value].requestHash != RequestHash(request.identity) {
          assert KeyTakenBy(State(), owner.value, auth, request.identity);
          return Failure(IdempotencyConflict);
        }
      }
      return Success(());
    }

    // The job and body of a request, for its owner at its provider and for nobody else.
    method OwnedRequest(id: JobId, auth: Bytes, provider: Bytes) returns (r: Result<(Job, Value), StoreError>)
      requires Valid()
      ensures r.Success? <==> id in requests && requests[id].auth == auth && requests[id].provider == provider
      ensures r.Success? ==> jobs[id].auth == auth && r.value == (Decode(jobs[id].raw).value, requests[id].body)
      ensures r.Failure? ==> r.error == NotFound
    {
      if id !in requests || requests[id].auth != auth || requests[id].provider != provider {
        return Failure(NotFound);
      }
      return Success((Decode(jobs[id].raw).value, requests[id].body));
    }
  }
}
