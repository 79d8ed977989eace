/** Why the claims about tokens assume that completions report no more than was reserved: two runs in which one does. */
module Hypotheses {
  import opened Basics
  import opened Policy
  import opened Ledger
  import opened Pacing
  import opened Admission
  import opened History
  import opened Safety
  import opened Pruning

  // Ten input tokens in any ten seconds.
  const TEN_TOKENS := QuotaLimit(
    provider := None, model := None, authScoped := false, windowSeconds := 10, maxRps := None, maxRequests := None,
    maxInputTokens := Some(10), maxOutputTokens := None, maxTotalTokens := None, maxConcurrency := None)

  const LIMITS := [TEN_TOKENS]
  const WHO := Scope("p", "a", "m")
  const FIRST := UsageEvent(0, 0, WHO, 10, 0)
  const SECOND := UsageEvent(1, 20 * NANOS, WHO, 10, 0)
  const KEY := PacingKey(0, "p", "", "", InputTokens)

  // A request for ten tokens is admitted, then reported as a hundred.
  const REPORTED := Then(Then(Start, Dispatch(FIRST)), Settle(0, Some(100), None))

  // A second one is dispatched after the first has left the window, and aborted.
  const ABORTED := Then(Then(REPORTED, Dispatch(SECOND)), Undo(1))

  const OVER := FIRST.(input := 100)

  lemma {:induction false} Logs()
    ensures Log(Then(Start, Dispatch(FIRST))) == [FIRST]
    ensures Log(REPORTED) == [OVER] && Log(ABORTED.past) == [OVER, SECOND] && Log(ABORTED) == [OVER]
  {
    assert Reconcile([FIRST], 0, Some(100), None) == [OVER] + [FIRST][1..] == [OVER];
    assert Log(ABORTED.past) == Log(REPORTED) + [SECOND];
    assert [OVER, SECOND][1..] == [SECOND] && [SECOND][1..] == [];
    assert Remove([SECOND], 1) == Remove([], 1) == [];
    assert Remove([OVER, SECOND], 1) == [OVER] + Remove([SECOND], 1);
    assert Log(ABORTED) == Remove(Log(ABORTED.past), 1);
  }

  // The first request's slot: ten seconds ahead as reserved, a hundred as reported.
  lemma {:induction false} Slots()
    ensures Pace(LIMITS, REPORTED, KEY) == 10 * NANOS
    ensures Pace(LIMITS, ABORTED, KEY) == 100 * NANOS
  {
    assert KEY == KeyOf(TEN_TOKENS, 0, WHO, InputTokens);
    assert PaceDuration(10, 10, 10) == 10 * NANOS && PaceDuration(100, 10, 10) == 100 * NANOS;
    assert BillOf(LIMITS, KEY, FIRST) == Some(10 * NANOS) && BillOf(LIMITS, KEY, OVER) == Some(100 * NANOS);
    assert Pace(LIMITS, Then(Start, Dispatch(FIRST)), KEY) == Charged(Pace(LIMITS, Start, KEY), 0, Some(10 * NANOS));
    Logs();
    assert [OVER][1..] == [];
    assert Replay(LIMITS, [OVER], KEY, 0) == Replay(LIMITS, [], KEY, Charged(0, 0, Some(100 * NANOS)));
  }

  lemma {:induction false} LegalThen(h: History, step: Step)
    requires Legal(LIMITS, h) && LegalStep(LIMITS, h, step)
    ensures Legal(LIMITS, Then(h, step))
  {
  }

  // A request for ten tokens is admitted beside an empty window with its slot in the past.
  lemma {:induction false} TenTokensFit(h: History, e: UsageEvent)
    requires e.who == WHO && e.input == 10 && e.output == 0
    requires Active(h) == map[] && e.id !in Issued(h) && Time(h) <= e.at
    requires Tally(Log(h), TEN_TOKENS, WHO, LiveSpan(TEN_TOKENS.Window(), e.at)) == NOTHING
    requires TrustedSlots(LIMITS, h)(KEY) <= e.at
    ensures LegalStep(LIMITS, h, Dispatch(e))
  {
    hide Tally, TrustedSlots, Log, Pace;
    assert KEY == KeyOf(TEN_TOKENS, 0, WHO, InputTokens);
    assert RuleAdmits(TEN_TOKENS, 0, Log(h), TrustedSlots(LIMITS, h), WHO, 10, 0, e.at);
    assert Admits(LIMITS, Log(h), TrustedSlots(LIMITS, h), WHO, 10, 0, e.at);
  }

  lemma {:induction false} AllLegal()
    ensures Legal(LIMITS, REPORTED) && Legal(LIMITS, ABORTED)
  {
    hide Legal, LegalStep, TrustedSlots;
    Logs();
    Slots();
    FirstSlot();
    TenTokensFit(Start, FIRST);
    StartIsLegal();
    LegalThen(Start, Dispatch(FIRST));
    EndingIsLegal(LIMITS, Then(Start, Dispatch(FIRST)), Settle(0, Some(100), None));
    assert [OVER][1..] == [];
    assert Tally([OVER], TEN_TOKENS, WHO, LiveSpan(TEN_TOKENS.Window(), SECOND.at)) == NOTHING;
    TenTokensFit(REPORTED, SECOND);
    LegalThen(REPORTED, Dispatch(SECOND));
    EndingIsLegal(LIMITS, ABORTED.past, Undo(1));
  }

  lemma {:induction false} FirstSlot()
    ensures TrustedSlots(LIMITS, Start)(KEY) == 0 && TrustedSlots(LIMITS, REPORTED)(KEY) == Pace(LIMITS, REPORTED, KEY)
  {
    assert NoAborts(REPORTED);
    CheapIsTrusted(LIMITS, REPORTED, KEY);
  }

  lemma {:induction false} StartIsLegal()
    ensures Legal(LIMITS, Start)
  {
  }

  lemma {:induction false} HundredInWindow()
    ensures Tally([OVER], TEN_TOKENS, WHO, Between(0, TEN_TOKENS.Window())) == Use(1, 100, 0)
  {
    assert [OVER][1..] == [];
  }

  /** A request for ten tokens is admitted and then reported as a hundred: the ledger holds ten times the cap. */
  lemma {:induction false} OverReportBreaksTheWindow()
    ensures Legal(LIMITS, REPORTED)
    ensures !TokensHold(TEN_TOKENS, Tally(Log(REPORTED), TEN_TOKENS, WHO, Between(0, TEN_TOKENS.Window())))
  {
    hide Legal, Log, Tally;
    AllLegal();
    Logs();
    HundredInWindow();
  }

  // The report made the one slot of the rule dearer, so that it is not trusted after the abort.
  lemma {:induction false} NothingTrusted(k: PacingKey)
    requires Trusted(LIMITS, ABORTED, k)
    ensures Pace(LIMITS, ABORTED, k) == 0
  {
    Logs();
    assert FIRST in Log(REPORTED.past) && Reported(FIRST, Some(100), None) == OVER;
    assert NeverDearer(LIMITS, ABORTED.past, k) && NeverDearer(LIMITS, REPORTED, k);
    assert Cheaper(BillOf(LIMITS, k, OVER), BillOf(LIMITS, k, FIRST));
    assert PaceDuration(10, 10, 10) == 10 * NANOS && PaceDuration(100, 10, 10) == 100 * NANOS;
    assert [OVER][1..] == [];
    assert BillOf(LIMITS, k, OVER).None?;
    assert Replay(LIMITS, [OVER], k, 0) == Replay(LIMITS, [], k, 0);
  }

  lemma {:induction false} NoneInFlight()
    ensures Active(ABORTED) == map[]
  {
    assert Active(REPORTED) == map[];
    assert Active(ABORTED.past) == map[1 := WHO];
  }

  /** Once that request has been pruned, aborting a second one makes pruning visible: the pruned scheduler admits
      another request at once, while one that never forgets replays the hundred tokens and holds it back. */
  lemma {:induction false} OverReportShowsPruning()
    ensures Refines(LIMITS, ABORTED, SECOND.at, [], map[], map[])
    ensures Admits(LIMITS, [], SlotsOf(map[]), WHO, 10, 0, SECOND.at)
    ensures !Admits(LIMITS, Log(ABORTED), k => Pace(LIMITS, ABORTED, k), WHO, 10, 0, SECOND.at)
  {
    hide Legal, Log, Pace, Active, Trusted;
    AllLegal();
    Logs();
    Slots();
    NoneInFlight();
    assert KEY == KeyOf(TEN_TOKENS, 0, WHO, InputTokens);
    assert RuleAdmits(TEN_TOKENS, 0, [], SlotsOf(map[]), WHO, 10, 0, SECOND.at);
    forall k | Trusted(LIMITS, ABORTED, k) ensures Pace(LIMITS, ABORTED, k) == 0 {
      NothingTrusted(k);
    }
    assert [OVER][1..] == [];
    assert Time(ABORTED.past) == SECOND.at && Time(ABORTED) == SECOND.at;
    assert SlotsAgree(LIMITS, ABORTED, SECOND.at, map[]);
    assert LIMITS[..0] == [] && WidestWindow(LIMITS) == 10 * NANOS;
    assert Trimmed(LIMITS, [], [], SECOND.at) && Trimmed(LIMITS, [OVER], [], SECOND.at);
  }
}
