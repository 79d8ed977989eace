/** Sending a live request under a permit, with retries, and reporting its usage
    (src/proxy.rs: scheduled_direct_response, scheduled_upstream_response). */
module Proxy {
  import opened Basics
  import opened Json
  import opened Priority
  import opened Waiters
  import Provider
  import opened SseUsage

  // How one attempt to send ended, if its caller stayed to see; a failure to connect is known not to have reached the
  // upstream.
  datatype Answer = ConnectFailed | SendFailed | Replied(status: nat, retryAfter: Option<Duration>) | Unseen

  // What became of the permit: given back, settled, handed on to be settled when the reply has been relayed, or dropped
  // by a caller that went away.
  datatype Ending = Aborted | Completed(input: Option<nat>, output: Option<nat>) | HandedOver | Dropped

  datatype Round = Round(permit: Permit, answer: Answer, ending: Ending)

  // What asking for a permit came to; a caller that goes away while it waits leaves its place in the queue.
  datatype Attempt = TimedOut | Refused | Deserted | Answered(outcome: Outcome)

  datatype Verdict = Live | Batch | Unavailable | Error | Gone

  // Sending again cannot repeat the inference, or the caller said that it may.
  predicate Resendable(answer: Answer, hasKey: bool) {
    match answer
    case ConnectFailed => true
    case SendFailed => false
    case Unseen => false
    case Replied(status, _) => status == 429 || (500 <= status < 600 && hasKey)
  }

  // How a permit is settled when the reply is not passed on: an upstream that turned the request away used nothing.
  function Used(status: nat): Ending {
    if status == Provider.TOO_MANY_REQUESTS then Completed(Some(0), Some(0)) else Completed(None, None)
  }

  // The permit is given back exactly if nothing was sent, charged nothing if the upstream turned the request away, and
  // otherwise keeps its reservation or goes with the reply.
  predicate EndsWell(round: Round) {
    match round.answer
    case ConnectFailed => round.ending == Aborted
    case SendFailed => round.ending == Completed(None, None)
    case Unseen => round.ending == Dropped
    case Replied(status, _) =>
      || round.ending == HandedOver
      || round.ending == (if status == 429 then Completed(Some(0), Some(0)) else Completed(None, None))
  }

  // The upstream asks for a longer pause than is left.
  predicate TooLate(answer: Answer, left: Duration) {
    answer.Replied? && answer.retryAfter.Some? && answer.retryAfter.value > left
  }

  predicate NoPermit(left: Duration, attempt: Attempt) {
    left == 0 || attempt.TimedOut? || (attempt.Answered? && !attempt.outcome.Dispatched?)
  }

  // No permit was had, and batch is recommended instead: by the scheduler's answer, or when it is asked once more.
  predicate Recommends(left: Duration, attempt: Attempt, preview: bool) {
    && NoPermit(left, attempt)
    && (preview || (left > 0 && attempt.Answered? && attempt.outcome.RecommendBatch?))
  }

  // After the k-th attempt, counted from zero, there is another one.
  predicate GoesOn(k: nat, maxRetries: nat, hasKey: bool, answer: Answer, left: Duration) {
    k < maxRetries && Resendable(answer, hasKey) && !TooLate(answer, left)
  }

  /** The retry loop. However the scheduler, the upstream, the caller and the clock behave, it sends at most one more
      time than there are retries, each time under a permit of its own that it ends exactly once, and it sends again
      exactly what can be sent again in time. The reply it passes on is the last one. Batch is the answer exactly where
      the caller allows it and it is recommended: before anything is sent, in place of a permit, or when the upstream
      asks for a longer pause than is left. */
  method ScheduledDirect(
    maxRetries: nat, hasKey: bool, allowBatch: bool, acquire: nat -> Attempt, send: nat -> Answer,
    remaining: nat -> Duration, later: nat -> Duration, early: bool, preview: nat -> bool)
    returns (verdict: Verdict, rounds: seq<Round>)
    ensures |rounds| <= maxRetries + 1
    ensures forall k | 0 <= k < |rounds| ::
              && acquire(k) == Answered(Dispatched(rounds[k].permit)) && rounds[k].answer == send(k)
              && EndsWell(rounds[k])
    ensures forall k | 0 <= k < |rounds| - 1 ::
              GoesOn(k, maxRetries, hasKey, rounds[k].answer, later(k)) && !rounds[k].ending.HandedOver?
    ensures allowBatch && early ==> verdict.Batch? && rounds == []
    ensures !(allowBatch && early) ==>
              var n := |rounds|;
              if n == 0 || GoesOn(n - 1, maxRetries, hasKey, rounds[n - 1].answer, later(n - 1)) then
                && (verdict.Batch? <==> allowBatch && Recommends(remaining(n), acquire(n), preview(n)))
                && (verdict.Unavailable? <==>
                      NoPermit(remaining(n), acquire(n)) &&
                      !(allowBatch && Recommends(remaining(n), acquire(n), preview(n))))
              else
                var last := rounds[n - 1].answer;
                && !verdict.Unavailable?
                && (verdict.Batch? <==>
                      && allowBatch && preview(n - 1) && n <= maxRetries && TooLate(last, later(n - 1))
                      && last.Replied? && last.status == 429)
    ensures forall k | 0 <= k < |rounds| && rounds[k].ending.Dropped? :: verdict.Gone? && k == |rounds| - 1
    ensures verdict.Gone? ==>
              acquire(|rounds|).Deserted? || (rounds != [] && rounds[|rounds| - 1].ending.Dropped?)
    ensures verdict.Live? <==> rounds != [] && rounds[|rounds| - 1].ending.HandedOver?
    ensures verdict.Live? ==>
              var last := rounds[|rounds| - 1].answer;
              && last.Replied?
              && (!Resendable(last, hasKey) || |rounds| == maxRetries + 1 || TooLate(last, later(|rounds| - 1)))
    ensures verdict.Unavailable? ==> NoPermit(remaining(|rounds|), acquire(|rounds|))
    ensures verdict.Batch? ==>
              && allowBatch
              && (early || NoPermit(remaining(|rounds|), acquire(|rounds|)) ||
                  (rounds != [] && TooLate(rounds[|rounds| - 1].answer, later(|rounds| - 1)) && preview(|rounds| - 1)))
    ensures verdict.Error? ==>
              || acquire(|rounds|).Refused?
              || (rounds != [] && rounds[|rounds| - 1].answer.SendFailed?)
              || (|rounds| == maxRetries + 1 && rounds[|rounds| - 1].answer.ConnectFailed?)
  {
    var attempt := 0;
    rounds := [];
    if allowBatch && early {
      return Batch, rounds;
    }
    while true
      invariant attempt <= maxRetries && |rounds| == attempt
      invariant forall k | 0 <= k < |rounds| ::
                  && acquire(k) == Answered(Dispatched(rounds[k].permit)) && rounds[k].answer == send(k)
                  && EndsWell(rounds[k]) && !rounds[k].ending.HandedOver?
      invariant forall k | 0 <= k < |rounds| && k < maxRetries ::
                  GoesOn(k, maxRetries, hasKey, rounds[k].answer, later(k))
      decreases maxRetries - attempt
    {
      if remaining(attempt) == 0 || acquire(attempt).TimedOut? {
        return if allowBatch && preview(attempt) then Batch else Unavailable, rounds;
      }
      if acquire(attempt).Deserted? {
        return Gone, rounds;
      }
      if acquire(attempt).Refused? {
        return Error, rounds;
      }
      match acquire(attempt).outcome {
        case RecommendBatch(_, _) =>
          return if allowBatch then Batch else Unavailable, rounds;
        case RetryExhausted(_, _) =>
          return if allowBatch && preview(attempt) then Batch else Unavailable, rounds;
        case Dispatched(permit) =>
          var answer := send(attempt);
          match answer {
            case Unseen =>
              return Gone, rounds + [Round(permit, answer, Dropped)];
            case ConnectFailed =>
              rounds := rounds + [Round(permit, answer, Aborted)];
              if attempt == maxRetries {
                return Error, rounds;
              }
            case SendFailed =>
              return Error, rounds + [Round(permit, answer, Completed(None, None))];
            case Replied(status, retryAfter) =>
              var slowDown := status == Provider.TOO_MANY_REQUESTS;
              if !(slowDown || (Provider.IsServerError(status) && hasKey)) || attempt == maxRetries {
                return Live, rounds + [Round(permit, answer, HandedOver)];
              }
              if retryAfter.Some? && retryAfter.value > later(attempt) {
                if slowDown && allowBatch && preview(attempt) {
                  return Batch, rounds + [Round(permit, answer, Completed(Some(0), Some(0)))];
                }
                return Live, rounds + [Round(permit, answer, HandedOver)];
              }
              rounds := rounds + [Round(permit, answer, Used(status))];
          }
          attempt := attempt + 1;
      }
    }
  }

  // ---- Relaying a streamed reply ----

  datatype Chunk = Data(bytes: Bytes) | Broken

  function Received(chunks: seq<Chunk>): Bytes {
    if chunks == [] then []
    else Received(chunks[..|chunks| - 1]) +
         (if chunks[|chunks| - 1].Data? then chunks[|chunks| - 1].bytes else [])
  }

  // What a relayed permit comes to; a caller that goes away drops it.
  datatype Settlement = Released | Reports(usage: Usage)

  const NOTHING := Usage(None, None, None)

  // The tracker after the first `n` chunks.
  ghost function Tracked(parse: Parser, chunks: seq<Chunk>, n: nat): Tracker
    requires n <= |chunks|
  {
    AfterBytes(parse, FRESH, Received(chunks[..n]))
  }

  lemma {:induction false} OneMoreChunk(parse: Parser, chunks: seq<Chunk>, i: nat)
    requires i < |chunks|
    ensures chunks[i].Data? ==>
              AfterBytes(parse, Tracked(parse, chunks, i), chunks[i].bytes) == Tracked(parse, chunks, i + 1)
    ensures chunks[i].Broken? && i == |chunks| - 1 ==>
              Tracked(parse, chunks, i) == AfterBytes(parse, FRESH, Received(chunks))
  {
    hide AfterBytes;
    var upTo := chunks[..i + 1];
    assert upTo[..|upTo| - 1] == chunks[..i] && upTo[|upTo| - 1] == chunks[i];
    if chunks[i].Data? {
      ChunksDoNotMatter(parse, FRESH, Received(chunks[..i]), chunks[i].bytes);
    } else if i == |chunks| - 1 {
      assert upTo == chunks && Received(chunks) == Received(chunks[..i]);
    }
  }

  lemma {:induction false} AllChunks(parse: Parser, chunks: seq<Chunk>)
    ensures Tracked(parse, chunks, 0) == FRESH
    ensures AfterEnd(parse, Tracked(parse, chunks, |chunks|)).usage ==
            LastUsage(parse, Events(CutAll(Lines(Received(chunks)))))
  {
    hide AfterEnd, LastUsage, Events, CutAll, Lines;
    assert chunks[..0] == [] && Received(chunks[..0]) == [];
    assert chunks[..|chunks|] == chunks;
    UsageIsOfLastEvent(parse, Received(chunks));
  }

  /** A streamed reply settles its permit once: with the usage of the last event that reports any when the stream ends,
      with that of the events finished so far when it breaks, and by dropping it when the caller goes away. */
  method Relay(parse: Parser, chunks: seq<Chunk>, leavesAfter: Option<nat>) returns (s: Settlement)
    requires forall i | 0 <= i < |chunks| - 1 :: chunks[i].Data?
    ensures s.Released? <==> leavesAfter.Some? && leavesAfter.value < |chunks|
    ensures s.Reports? && (forall i | 0 <= i < |chunks| :: chunks[i].Data?) ==>
              s.usage == LastUsage(parse, Events(CutAll(Lines(Received(chunks))))).GetOr(NOTHING)
    ensures s.Reports? && (exists i :: 0 <= i < |chunks| && chunks[i].Broken?) ==>
              s.usage == AfterBytes(parse, FRESH, Received(chunks)).usage.GetOr(NOTHING)
  {
    hide AfterBytes, AfterEnd, AfterEvent, LastUsage, Events, Lines, CutAll, Received, Tracked;
    AllChunks(parse, chunks);
    var tracker := new SseUsageTracker(parse);
    for i := 0 to |chunks|
      invariant tracker.Bounded() && tracker.State() == Tracked(parse, chunks, i)
      invariant tracker.parse == parse
      invariant forall j | 0 <= j < i :: chunks[j].Data?
      invariant leavesAfter.Some? ==> leavesAfter.value >= i
    {
      if leavesAfter == Some(i) {
        return Released;
      }
      OneMoreChunk(parse, chunks, i);
      match chunks[i] {
        case Data(bytes) =>
          tracker.Push(bytes);
        case Broken =>
          return Reports(tracker.usage.GetOr(NOTHING));
      }
    }
    tracker.Finish();
    return Reports(tracker.usage.GetOr(NOTHING));
  }
}
