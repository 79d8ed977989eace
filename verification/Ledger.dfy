/** The usage ledger and the rolling-window test over it (src/scheduling.rs: UsageEvent, event_matches, rolling_fit). */
module Ledger {
  import opened Basics
  import opened Policy

  // Who a request is for: the three fields every quota scope is built from.
  datatype Scope = Scope(provider: string, auth: string, model: string)

  datatype UsageEvent = UsageEvent(id: nat, at: Instant, who: Scope, input: nat, output: nat)

  // What a set of events adds up to.
  datatype Use = Use(requests: nat, input: nat, output: nat) {
    function Plus(other: Use): Use {
      Use(requests + other.requests, input + other.input, output + other.output)
    }

    predicate AtMost(other: Use) {
      requests <= other.requests && input <= other.input && output <= other.output
    }
  }

  const NOTHING := Use(0, 0, 0)

  datatype Fit = Fit(at: Option<Instant>, impossible: bool)

  predicate RuleMatches(limit: QuotaLimit, who: Scope) {
    && (limit.provider.Some? ==> limit.provider.value == who.provider)
    && (limit.model.Some? ==> limit.model.value == who.model)
  }

  // The bucket that `limit` charges a request of `who` to.
  predicate SameBucket(limit: QuotaLimit, who: Scope, other: Scope) {
    && other.provider == who.provider
    && (limit.authScoped ==> other.auth == who.auth)
    && (limit.model.Some? ==> limit.model.value == other.model)
  }

  predicate EventMatches(limit: QuotaLimit, who: Scope, event: UsageEvent, now: Instant) {
    Elapsed(now, event.at) < limit.Window() && SameBucket(limit, who, event.who)
  }

  function Matching(events: seq<UsageEvent>, limit: QuotaLimit, who: Scope, now: Instant): seq<UsageEvent> {
    if events == [] then []
    else
      var rest := Matching(events[1..], limit, who, now);
      if EventMatches(limit, who, events[0], now) then [events[0]] + rest else rest
  }

  // ---- Adding up a bucket ----

  // Stretches of time: everything from `lo` on, or the half-open interval [lo, hi).
  datatype Span = From(lo: int) | Between(lo: int, hi: int) {
    predicate Covers(at: Instant) {
      lo <= at && (Between? ==> at < hi)
    }
  }

  // The events still inside a window of length `window` at time `t` are those at or after this instant.
  function LiveSpan(window: Duration, t: Instant): Span {
    From(t - window + 1)
  }

  function UseOf(event: UsageEvent): Use {
    Use(1, event.input, event.output)
  }

  function Tally(events: seq<UsageEvent>, limit: QuotaLimit, who: Scope, span: Span): Use {
    if events == [] then NOTHING
    else
      var rest := Tally(events[1..], limit, who, span);
      if span.Covers(events[0].at) && SameBucket(limit, who, events[0].who) then UseOf(events[0]).Plus(rest) else rest
  }

  lemma {:induction false} TallyAppend(
    events: seq<UsageEvent>, e: UsageEvent, limit: QuotaLimit, who: Scope, span: Span)
    ensures Tally(events + [e], limit, who, span) ==
            Tally(events, limit, who, span).Plus(Tally([e], limit, who, span))
  {
    if events == [] {
      assert events + [e] == [e];
    } else {
      assert (events + [e])[1..] == events[1..] + [e];
      TallyAppend(events[1..], e, limit, who, span);
    }
  }

  // A wider span can only add up to more.
  lemma {:induction false} TallyMonotone(
    events: seq<UsageEvent>, limit: QuotaLimit, who: Scope, narrow: Span, wide: Span)
    requires forall e | e in events && narrow.Covers(e.at) :: wide.Covers(e.at)
    ensures Tally(events, limit, who, narrow).AtMost(Tally(events, limit, who, wide))
  {
    if events != [] {
      TallyMonotone(events[1..], limit, who, narrow, wide);
    }
  }

  // Scopes that fall into the same bucket see the same total.
  lemma {:induction false} TallySameBucket(
    events: seq<UsageEvent>, limit: QuotaLimit, who: Scope, other: Scope, span: Span)
    requires SameBucket(limit, who, other)
    ensures Tally(events, limit, who, span) == Tally(events, limit, other, span)
  {
    if events != [] {
      TallySameBucket(events[1..], limit, who, other, span);
    }
  }

  // ---- The rolling caps ----

  function RequestCap(limit: QuotaLimit): Option<nat> {
    if limit.maxRps.None? then limit.maxRequests
    else
      var rpsCap := SatMul(limit.maxRps.value, limit.windowSeconds);
      Some(if limit.maxRequests.Some? then Min(limit.maxRequests.value, rpsCap) else rpsCap)
  }

  predicate Within(cap: Option<nat>, amount: nat) {
    cap.Some? ==> amount <= cap.value
  }

  // One more request of this size still fits beside `used`.
  predicate CapFits(limit: QuotaLimit, used: Use, input: nat, output: nat) {
    && Within(RequestCap(limit), SatAdd(used.requests, 1))
    && Within(limit.maxInputTokens, SatAdd(used.input, input))
    && Within(limit.maxOutputTokens, SatAdd(used.output, output))
    && Within(limit.maxTotalTokens, SatAdd(SatAdd(used.input, used.output), SatAdd(input, output)))
  }

  // The request alone is larger than one of the rule's token caps.
  predicate OverCap(limit: QuotaLimit, input: nat, output: nat) {
    || !Within(limit.maxInputTokens, input)
    || !Within(limit.maxOutputTokens, output)
    || !Within(limit.maxTotalTokens, SatAdd(input, output))
  }

  // Under a validated rule saturation never matters: the caps are below 2^63, and no ledger holds 2^64 events.
  lemma {:induction false} CapFitsExactly(limit: QuotaLimit, used: Use, input: nat, output: nat)
    requires ValidLimit(limit) && used.requests < U64_MAX
    ensures CapFits(limit, used, input, output) <==>
            && (limit.maxRequests.Some? ==> used.requests + 1 <= limit.maxRequests.value)
            && (limit.maxRps.Some? ==> used.requests + 1 <= limit.maxRps.value * limit.windowSeconds)
            && (limit.maxInputTokens.Some? ==> used.input + input <= limit.maxInputTokens.value)
            && (limit.maxOutputTokens.Some? ==> used.output + output <= limit.maxOutputTokens.value)
            && (limit.maxTotalTokens.Some? ==> used.input + used.output + input + output <= limit.maxTotalTokens.value)
  {
  }

  lemma {:induction false} CapFitsMonotone(limit: QuotaLimit, less: Use, more: Use, input: nat, output: nat)
    requires less.AtMost(more) && CapFits(limit, more, input, output)
    ensures CapFits(limit, less, input, output)
  {
  }

  // With nothing in the window a validated rule refuses exactly the requests that exceed a token cap alone.
  lemma {:induction false} EmptyWindowFits(limit: QuotaLimit, input: nat, output: nat)
    requires ValidLimit(limit)
    ensures CapFits(limit, NOTHING, input, output) <==> !OverCap(limit, input, output)
  {
    RequestCapPositive(limit);
  }

  lemma {:induction false} RequestCapPositive(limit: QuotaLimit)
    requires ValidLimit(limit)
    ensures RequestCap(limit).Some? ==> RequestCap(limit).value >= 1
  {
    if limit.maxRps.Some? {
      ProductPositive(limit.maxRps.value, limit.windowSeconds);
    }
  }

  lemma {:induction false} ProductPositive(a: nat, b: nat)
    requires a > 0 && b > 0
    ensures a * b >= 1
  {
  }

  // ---- Expiry order ----

  datatype Expiring = Expiring(at: Instant, input: nat, output: nat)

  function ExpiringOf(event: UsageEvent, window: Duration): Expiring {
    Expiring(event.at + window, event.input, event.output)
  }

  function Expirings(events: seq<UsageEvent>, window: Duration): seq<Expiring> {
    if events == [] then [] else [ExpiringOf(events[0], window)] + Expirings(events[1..], window)
  }

  // What has not expired by `t`.
  function Live(entries: seq<Expiring>, t: Instant): Use {
    if entries == [] then NOTHING
    else
      var rest := Live(entries[1..], t);
      if entries[0].at > t then Use(1, entries[0].input, entries[0].output).Plus(rest) else rest
  }

  function Total(entries: seq<Expiring>): Use {
    if entries == [] then NOTHING
    else Use(1, entries[0].input, entries[0].output).Plus(Total(entries[1..]))
  }

  predicate SortedByExpiry(entries: seq<Expiring>) {
    forall i, j | 0 <= i < j < |entries| :: entries[i].at <= entries[j].at
  }

  // `sort_by_key` is the standard library's stable sort; an insertion sort gives the same sequence.
  function Insert(e: Expiring, entries: seq<Expiring>): (r: seq<Expiring>)
    requires SortedByExpiry(entries)
    ensures SortedByExpiry(r)
    ensures forall x | x in r :: x == e || x in entries
  {
    if entries == [] || e.at <= entries[0].at then [e] + entries
    else
      var rest := Insert(e, entries[1..]);
      assert forall x | x in rest :: entries[0].at <= x.at;
      [entries[0]] + rest
  }

  function SortByExpiry(entries: seq<Expiring>): (r: seq<Expiring>)
    ensures SortedByExpiry(r)
    ensures forall x | x in r :: x in entries
  {
    if entries == [] then [] else Insert(entries[0], SortByExpiry(entries[1..]))
  }

  lemma {:induction false} LiveInsert(e: Expiring, entries: seq<Expiring>, t: Instant)
    requires SortedByExpiry(entries)
    ensures Live(Insert(e, entries), t) == Live([e], t).Plus(Live(entries, t))
  {
    if entries == [] || e.at <= entries[0].at {
      assert ([e] + entries)[1..] == entries;
    } else {
      var rest := Insert(e, entries[1..]);
      assert ([entries[0]] + rest)[1..] == rest;
      LiveInsert(e, entries[1..], t);
    }
  }

  lemma {:induction false} LiveSort(entries: seq<Expiring>, t: Instant)
    ensures Live(SortByExpiry(entries), t) == Live(entries, t)
  {
    if entries != [] {
      LiveInsert(entries[0], SortByExpiry(entries[1..]), t);
      LiveSort(entries[1..], t);
    }
  }

  // The filtered events, read by expiry, add up to what the whole ledger holds in the window at `t`.
  lemma {:induction false} LiveIsTally(
    events: seq<UsageEvent>, limit: QuotaLimit, who: Scope, now: Instant, t: Instant)
    requires now <= t && limit.Window() > 0
    ensures Live(Expirings(Matching(events, limit, who, now), limit.Window()), t) ==
            Tally(events, limit, who, LiveSpan(limit.Window(), t))
  {
    if events != [] {
      LiveIsTally(events[1..], limit, who, now, t);
      var rest := Matching(events[1..], limit, who, now);
      assert ([events[0]] + rest)[1..] == rest;
      var x := ExpiringOf(events[0], limit.Window());
      assert ([x] + Expirings(rest, limit.Window()))[1..] == Expirings(rest, limit.Window());
      if EventMatches(limit, who, events[0], now) {
        assert Matching(events, limit, who, now) == [events[0]] + rest;
        assert x.at > t <==> LiveSpan(limit.Window(), t).Covers(events[0].at);
      }
    }
  }

  lemma {:induction false} AllLive(entries: seq<Expiring>, t: Instant)
    requires forall x | x in entries :: x.at > t
    ensures Live(entries, t) == Total(entries)
  {
    if entries != [] {
      AllLive(entries[1..], t);
    }
  }

  lemma {:induction false} LiveAtMostTotal(entries: seq<Expiring>, t: Instant)
    ensures Live(entries, t).AtMost(Total(entries))
  {
    if entries != [] {
      LiveAtMostTotal(entries[1..], t);
    }
  }

  // In expiry order, what is live before the k-th expiry is some suffix starting at or before k.
  lemma {:induction false} LiveIsSuffix(entries: seq<Expiring>, k: nat, t: Instant) returns (j: nat)
    requires SortedByExpiry(entries) && k <= |entries| && (k < |entries| ==> t < entries[k].at)
    ensures j <= k && Live(entries, t) == Total(entries[j..])
  {
    if k == 0 || entries[0].at > t {
      j := 0;
      AllLive(entries, t);
      assert entries[0..] == entries;
    } else {
      var j' := LiveIsSuffix(entries[1..], k - 1, t);
      j := j' + 1;
      assert entries[1..][j'..] == entries[j..];
    }
  }

  // Once the k-th entry has expired, at most the entries after it are live.
  lemma {:induction false} LiveAfterExpiry(entries: seq<Expiring>, k: nat, t: Instant)
    requires SortedByExpiry(entries) && k < |entries| && entries[k].at <= t
    ensures Live(entries, t).AtMost(Total(entries[k + 1..]))
  {
    if k == 0 {
      LiveAtMostTotal(entries[1..], t);
    } else {
      LiveAfterExpiry(entries[1..], k - 1, t);
      assert entries[1..][k..] == entries[k + 1..];
    }
  }

  // Every filtered event is still unexpired at the instant it was filtered for.
  lemma {:induction false} MatchingUnexpired(events: seq<UsageEvent>, limit: QuotaLimit, who: Scope, now: Instant)
    ensures forall e | e in Matching(events, limit, who, now) :: e.at + limit.Window() > now
  {
    if events != [] {
      MatchingUnexpired(events[1..], limit, who, now);
    }
  }

  lemma {:induction false} ExpiringsBound(events: seq<UsageEvent>, window: Duration, now: Instant)
    requires forall e | e in events :: e.at + window > now
    ensures forall x | x in Expirings(events, window) :: x.at > now
  {
    if events != [] {
      ExpiringsBound(events[1..], window, now);
    }
  }

  /** The earliest time at which the rule's rolling caps admit one more request of this size: they admit it at
      exactly the instants from `fit.at` on, and at none when the request does not even fit an empty window. */
  method RollingFit(limit: QuotaLimit, events: seq<UsageEvent>, input: nat, output: nat, now: Instant)
    returns (fit: Fit)
    requires forall e | e in events :: e.at + limit.Window() > now
    ensures fit.impossible <==> !CapFits(limit, NOTHING, input, output)
    ensures fit.impossible <==> fit.at.None?
    ensures !fit.impossible ==> fit.at.value >= now
    ensures !fit.impossible ==>
              forall t: Instant | t >= now ::
                CapFits(limit, Live(Expirings(events, limit.Window()), t), input, output) <==> t >= fit.at.value
  {
    var requestCap := RequestCap(limit);
    if requestCap.None? && limit.maxInputTokens.None? && limit.maxOutputTokens.None? && limit.maxTotalTokens.None? {
      return Fit(Some(now), false);
    }
    var active := SortByExpiry(Expirings(events, limit.Window()));
    ghost var all := active;
    ExpiringsBound(events, limit.Window(), now);
    var used := Total(active);
    forall t: Instant
      ensures Live(all, t) == Live(Expirings(events, limit.Window()), t) && Live(all, t).AtMost(used)
    {
      LiveSort(Expirings(events, limit.Window()), t);
      LiveAtMostTotal(all, t);
    }
    if CapFits(limit, used, input, output) {
      forall t: Instant ensures CapFits(limit, Live(all, t), input, output) {
        CapFitsMonotone(limit, Live(all, t), used, input, output);
      }
      CapFitsMonotone(limit, NOTHING, used, input, output);
      return Fit(Some(now), false);
    }
    ghost var k := 0;
    while active != []
      invariant k <= |all| && active == all[k..] && used == Total(active)
      invariant forall i | 0 <= i <= k :: !CapFits(limit, Total(all[i..]), input, output)
      decreases |active|
    {
      var first := active[0];
      used := Use(used.requests - 1, used.input - first.input, used.output - first.output);
      active := active[1..];
      if CapFits(limit, used, input, output) {
        forall t: Instant ensures CapFits(limit, Live(all, t), input, output) <==> t >= first.at {
          if t >= first.at {
            LiveAfterExpiry(all, k, t);
            CapFitsMonotone(limit, Live(all, t), used, input, output);
          } else {
            var j := LiveIsSuffix(all, k, t);
          }
        }
        CapFitsMonotone(limit, NOTHING, used, input, output);
        return Fit(Some(first.at), false);
      }
      k := k + 1;
    }
    assert all[k..] == [];
    return Fit(None, true);
  }
}
