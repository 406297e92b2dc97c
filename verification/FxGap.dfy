/** Why the budget theorems ask for one currency: the ledger adds up raw amounts, so a
 *  payment converted into the mandate's currency is counted at its face value once it has
 *  settled (src/store/memoryStore.ts:87-90, src/core/gate.ts:131-149). */
module FxGap {
  import opened Prelude
  import opened Types
  import opened Calendar
  import opened Store
  import opened Fx
  import opened Trail
  import opened Executor
  import opened Effects
  import opened Invariants
  import opened Budget
  import opened FxBudget
  import opened Scenario
  import opened BudgetBound
  import Gate

  function Tenfold(from: string, to: string): Option<real> {
    Some(10.0)
  }

  /** Ninety euro cents, worth nine hundred dollar cents. */
  function Abroad(n: nat): Step {
    Begin(Invoice(Id(n), "tools", 90, "EUR"), None, 0)
  }

  const TRIP: seq<Step> := [Abroad(1), Finish(0, Receipted("a", true)), Abroad(2)]

  lemma WorthNineHundred(env: Env, n: nat)
    requires env.fx == Some(Tenfold) && env.tokenDecimals == None
    ensures Gate.AmountIn(DOLLARS, Abroad(n).intent, LiveConvert(env)) == 900
    ensures Gate.Covers(DOLLARS, Abroad(n).intent, LiveConvert(env))
  {
    assert Upper("EUR") == "EUR" && Upper("USD") == "USD";
    assert Shift("EUR", "USD", None) == 0 && TenTo(0) == 1.0;
    assert ConvertMinorCrossDecimal(90, 10.0, "EUR", "USD", None) == 900;
    assert env.fx.value("EUR", "USD") == Tenfold("EUR", "USD") == Some(10.0);
    assert LiveConvert(env).value(90, "EUR", "USD") == Some(900);
    assert "EUR"[0] != "USD"[0];
  }

  /** A known payee is paid as long as the raw spend leaves room. */
  lemma AbroadLaunches(env: Env, w: World, n: nat) returns (e: Event)
    requires IsInstallation(env) && env.fx == Some(Tenfold) && env.tokenDecimals == None
    requires w.ledger.mandates == [DOLLARS] && !w.ledger.killed && w.ledger.failures == 0 && CalmTrail(w.audit, true)
    requires SettledCount(w.ledger.intents, "acme") >= 1
    requires Sum(PeriodSpend(w.ledger, "m", 0), Gate.SpendAmount()) <= 100 && |PeriodSpend(w.ledger, "m", 0)| < 10
    ensures Launches(env, w, Abroad(n)) && LaunchOf(env, w, Abroad(n)).verdict.mandateId == Some("m")
    ensures e.AgentDecision? && e.verdict.outcome == AutoExecute && e.intent == Abroad(n).intent
    ensures Next(env, w, Abroad(n)) == w.(audit := w.audit + [e], flights := w.flights + [LaunchOf(env, w, Abroad(n))])
  {
    hide GateVerdict, CalmTrail, Next, InputsOf;
    var step := Abroad(n);
    WorthNineHundred(env, n);
    GateAdmits(env, w.ledger, DOLLARS, step.intent);
    assert IsStreaming(w.ledger.mandates, GateVerdict(env, w.ledger, step.intent, None, 0));
    CalmIsQuiet(step.intent, w.audit, true, 0);
    e := LaunchAdds(env, w, step);
  }

  /** One flight, or none, between the two launches. */
  ghost predicate Abroad1(w: World, s: StoredIntent) {
    && w.ledger.mandates == [DOLLARS] && w.ledger.intents == [KNOWN, s] && !w.ledger.killed && w.ledger.failures == 0
    && s.intent == Abroad(1).intent && s.status == Settled && s.mandateId == Some("m") && s.settledAt == Some(0) && s.Net() == 90
  }

  /** The rail answers, and the ledger remembers the ninety. */
  lemma AbroadLands(env: Env, w: World) returns (s: StoredIntent)
    requires IsInstallation(env) && w.ledger.mandates == [DOLLARS] && w.ledger.intents == [KNOWN] && !w.ledger.killed
    requires |w.flights| == 1 && w.flights[0].intent == Abroad(1).intent && w.flights[0].now == 0
    requires w.flights[0].verdict.mandateId == Some("m") && CalmTrail(w.audit, true)
    ensures var w' := Next(env, w, TRIP[1]); w'.flights == [] && Abroad1(w', s) && CalmTrail(w'.audit, true)
  {
    var f := w.flights[0];
    s := StoredIntent(f.intent, Settled, f.verdict.mandateId, f.verdict.reasons, Some(f.now), Some("a"), None);
    var events := Settle(env, f.intent, f.now, Receipted("a", true)).events;
    assert w.flights[..0] + w.flights[1..] == [];
    assert !HasIntent([KNOWN], Id(1));
    assert [KNOWN] + [s] == [KNOWN, s];
    SumConcat(w.audit, events, Refusal());
    SumOfTwo(events[0], events[1], Refusal());
    assert events == [events[0], events[1]];
  }

  lemma AbroadSpend(w: World, s: StoredIntent)
    requires Abroad1(w, s)
    ensures SettledCount(w.ledger.intents, "acme") == 2
    ensures Sum(PeriodSpend(w.ledger, "m", 0), Gate.SpendAmount()) == 90 && |PeriodSpend(w.ledger, "m", 0)| == 1
  {
    assert [KNOWN, s][..1] == [KNOWN] && [KNOWN][..0] == [];
    assert SettledCount([KNOWN], "acme") == 1 && SpendFrom([KNOWN], "m", 0) == [];
    assert PeriodStart(0, Day) == 0;
    assert SpendFrom([KNOWN, s], "m", 0) == [PriorSpend(90, 0)];
    SumOfOne(PriorSpend(90, 0), Gate.SpendAmount());
  }

  /** Two payments worth nine hundred run unattended, one after the other, under a period cap
   *  of one thousand: nothing but the single currency is missing from an orderly run, and the
   *  second launch is the one that does not fit. */
  lemma ForeignSpendOutrunsCap() returns (env: Env, start: World, steps: seq<Step>, m: Mandate)
    ensures TermsKept(env, start, steps, m, 1) && env.tokenDecimals == None
    ensures |steps| == 5 && Launches(env, Run(env, start, steps[..2]), steps[2]) && Launches(env, Run(env, start, steps[..4]), steps[4])
    ensures WorthLoad(env, Run(env, start, steps), m, 0) == 1800 && m.perPeriodCap == 1000
    ensures ChargedTo(env, Run(env, start, steps[..4]), steps[4], m, 0) && !FitsRoom(env, Run(env, start, steps[..4]), steps[4], m, 0)
  {
    hide Run, Next, TermsKept, WorthLoad, Launches, ChargedTo, FitsRoom;
    env := Installation(Some(Tenfold), None, 10);
    m := DOLLARS;
    start, steps := Start(m), OPENING + TRIP;
    OpeningKeepsTerms(env, m, 1);
    var w0 := Run(env, start, OPENING);
    TripLaunches(env, w0);
    TripKeepsTerms(env, w0);
    SecondDoesNotFit(env, Run(env, start, steps[..4]));
  }

  lemma TripLaunches(env: Env, w0: World)
    requires IsInstallation(env) && env.fx == Some(Tenfold) && env.tokenDecimals == None && w0 == Run(env, Start(DOLLARS), OPENING)
    ensures Launches(env, w0, TRIP[0]) && FreshStep(w0, TRIP[0]) && |Next(env, w0, TRIP[0]).flights| <= 1
    ensures var w2 := Next(env, Next(env, w0, TRIP[0]), TRIP[1]);
            && w2.flights == [] && w2.ledger.mandates == [DOLLARS]
            && Launches(env, w2, TRIP[2]) && ChargedTo(env, w2, TRIP[2], DOLLARS, 0)
            && FreshStep(w2, TRIP[2]) && |Next(env, w2, TRIP[2]).flights| == 1
            && WorthLoad(env, Next(env, w2, TRIP[2]), DOLLARS, 0) == 1800
  {
    hide Run, Next, CalmTrail, WorthLoad, Launches, ChargedTo, FreshStep, AutoIds, IsInstallation;
    var w := OpenedInDollars(env);
    var w1 := FirstAbroad(env, w0);
    var s := AbroadLands(env, w1);
    var w2 := Next(env, w1, TRIP[1]);
    QuietStep(env, w1, TRIP[1]);
    AutoIdsGrow(w1.audit, w2.audit);
    SecondAbroad(env, w2, s);
  }

  lemma TripKeepsTerms(env: Env, w0: World)
    requires TermsKept(env, Start(DOLLARS), OPENING, DOLLARS, 1) && w0 == Run(env, Start(DOLLARS), OPENING)
    requires FreshStep(w0, TRIP[0]) && |Next(env, w0, TRIP[0]).flights| <= 1
    requires var w2 := Next(env, Next(env, w0, TRIP[0]), TRIP[1]);
             w2.flights == [] && FreshStep(w2, TRIP[2]) && |Next(env, w2, TRIP[2]).flights| <= 1
    ensures TermsKept(env, Start(DOLLARS), OPENING + TRIP, DOLLARS, 1)
    ensures Run(env, Start(DOLLARS), (OPENING + TRIP)[..2]) == w0
    ensures Run(env, Start(DOLLARS), (OPENING + TRIP)[..4]) == Next(env, Next(env, w0, TRIP[0]), TRIP[1])
    ensures Inv(Run(env, Start(DOLLARS), (OPENING + TRIP)[..4]))
    ensures Run(env, Start(DOLLARS), OPENING + TRIP) == Next(env, Next(env, Next(env, w0, TRIP[0]), TRIP[1]), TRIP[2])
  {
    hide Run, Next, TermsKept, Inv;
    var start := Start(DOLLARS);
    var one, two := OPENING + [TRIP[0]], OPENING + [TRIP[0]] + [TRIP[1]];
    TermsSnoc(env, start, OPENING, DOLLARS, 1, TRIP[0]);
    RunSnoc(env, start, OPENING, TRIP[0]);
    TermsSnoc(env, start, one, DOLLARS, 1, TRIP[1]);
    RunSnoc(env, start, one, TRIP[1]);
    SoundAfter(env, start, two, DOLLARS, 1);
    TermsSnoc(env, start, two, DOLLARS, 1, TRIP[2]);
    RunSnoc(env, start, two, TRIP[2]);
    assert two + [TRIP[2]] == OPENING + TRIP && (OPENING + TRIP)[..2] == OPENING && (OPENING + TRIP)[..4] == two;
  }

  lemma OpenedInDollars(env: Env) returns (w: World)
    requires IsInstallation(env)
    ensures w == Run(env, Start(DOLLARS), OPENING)
    ensures w.ledger.mandates == [DOLLARS] && w.ledger.intents == [KNOWN] && !w.ledger.killed && w.ledger.failures == 0
    ensures w.flights == [] && CalmTrail(w.audit, true)
  {
    hide Run;
    w := Run(env, Start(DOLLARS), OPENING);
    OpeningRuns(env, DOLLARS);
    OpenedIsCalm(DOLLARS, w, true);
  }

  lemma FirstAbroad(env: Env, w: World) returns (w': World)
    requires IsInstallation(env) && env.fx == Some(Tenfold) && env.tokenDecimals == None
    requires w.ledger.mandates == [DOLLARS] && w.ledger.intents == [KNOWN] && !w.ledger.killed && w.ledger.failures == 0
    requires w.flights == [] && CalmTrail(w.audit, true)
    ensures Launches(env, w, TRIP[0]) && w' == Next(env, w, TRIP[0]) && FreshStep(w, TRIP[0]) && w'.ledger == w.ledger
    ensures |w'.flights| == 1 && w'.flights[0].intent == Abroad(1).intent && w'.flights[0].now == 0
    ensures w'.flights[0].verdict.mandateId == Some("m") && CalmTrail(w'.audit, true) && Id(1) in AutoIds(w'.audit)
  {
    hide Next;
    assert [KNOWN][..0] == [];
    assert SettledCount([KNOWN], "acme") == 1 && SpendFrom([KNOWN], "m", 0) == [];
    assert !HasIntent([KNOWN], Id(1));
    var e := AbroadLaunches(env, w, 1);
    w' := Next(env, w, TRIP[0]);
    StillCalm(w.audit, e);
    AutoIdsAppend(w.audit, e);
  }

  lemma SecondAbroad(env: Env, w: World, s: StoredIntent)
    requires IsInstallation(env) && env.fx == Some(Tenfold) && env.tokenDecimals == None
    requires Abroad1(w, s) && w.flights == [] && CalmTrail(w.audit, true) && Id(1) in AutoIds(w.audit)
    ensures Launches(env, w, TRIP[2]) && FreshStep(w, TRIP[2]) && |Next(env, w, TRIP[2]).flights| == 1
    ensures ChargedTo(env, w, TRIP[2], DOLLARS, 0) && WorthLoad(env, Next(env, w, TRIP[2]), DOLLARS, 0) == 1800
  {
    hide Next, CalmTrail;
    AbroadSpend(w, s);
    var e := AbroadLaunches(env, w, 2);
    HasIntentIff(w.ledger.intents, Id(2));
    var f := LaunchOf(env, w, TRIP[2]);
    WorthNineHundred(env, 1);
    WorthNineHundred(env, 2);
    AutoIdsAppend(w.audit, e);
    NineHundredTwice(env, Next(env, w, TRIP[2]), s, f);
    assert w.flights + [f] == [f];
  }

  lemma NineHundredTwice(env: Env, w: World, s: StoredIntent, f: Flight)
    requires env.fx == Some(Tenfold) && env.tokenDecimals == None
    requires w.ledger.intents == [KNOWN, s] && w.flights == [f] && Id(1) in AutoIds(w.audit)
    requires s.intent == Abroad(1).intent && s.status == Settled && s.mandateId == Some("m") && s.settledAt == Some(0) && s.Net() == 90
    requires f.intent == Abroad(2).intent && f.now == 0 && f.verdict.mandateId == Some("m")
    ensures WorthLoad(env, w, DOLLARS, 0) == 1800
  {
    hide AutoIds, LiveConvert;
    WorthNineHundred(env, 1);
    WorthNineHundred(env, 2);
    assert PeriodStart(0, Day) == 0;
    assert s.intent.(amount := 90) == s.intent;
    SumOfTwo(KNOWN, s, SettledWorth(env, DOLLARS, 0, AutoIds(w.audit)));
    SumOfOne(f, FlightWorth(env, DOLLARS, 0));
  }

  lemma SecondDoesNotFit(env: Env, w: World)
    requires Inv(w) && w.ledger.mandates == [DOLLARS] && FreshStep(w, TRIP[2]) && ChargedTo(env, w, TRIP[2], DOLLARS, 0)
    requires WorthLoad(env, Next(env, w, TRIP[2]), DOLLARS, 0) == 1800
    ensures !FitsRoom(env, w, TRIP[2], DOLLARS, 0)
  {
    hide Next, Inv, WorthLoad, FitsRoom, ChargedTo;
    assert TermsIfStored(w, DOLLARS);
    ConvertedLaunchKeepsCapIff(env, w, TRIP[2], DOLLARS, 0);
  }
}
