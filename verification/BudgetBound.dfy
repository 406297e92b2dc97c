/** The budget bound is reached, for all caps and every number of overlapping executions: runs
 *  from a fresh installation whose load is the period cap and k - 1 times the most one payment
 *  can be. */
module BudgetBound {
  import opened Prelude
  import opened Types
  import opened Calendar
  import opened Store
  import opened Trail
  import opened Executor
  import opened Effects
  import opened Invariants
  import opened Budget
  import opened Scenario
  import Gate

  /** An id no shorter invoice has, nor the first payment. */
  function Id(n: nat): (id: string)
    ensures |id| == n
    ensures n > 0 ==> id[0] == 'x'
  {
    if n == 0 then "" else Id(n - 1) + "x"
  }

  function Purchase(amount: int, n: nat): Step {
    Begin(Invoice(Id(n + 1), "tools", amount, "EUR"), None, 0)
  }

  function Plan(cap: int): Mandate {
    Tools(cap, cap, "EUR", Day)
  }

  lemma PlanAdmits(env: Env, cap: int, ledger: Ledger, n: nat)
    requires IsInstallation(env) && cap > 0 && ledger.mandates == [Plan(cap)] && ledger.intents == [KNOWN]
    ensures var intent := Invoice(Id(n), "tools", cap, "EUR");
            && GateVerdict(env, ledger, intent, None, 0).outcome == AutoExecute
            && GateVerdict(env, ledger, intent, None, 0).mandateId == Some("m")
  {
    hide GateVerdict;
    assert SpendFrom([KNOWN][..0], "m", 0) == [] && SpendFrom([KNOWN], "m", 0) == [];
    GateAdmits(env, ledger, Plan(cap), Invoice(Id(n), "tools", cap, "EUR"));
  }

  /** A launch adds one decision to the trail and one flight, and nothing else. */
  lemma LaunchAdds(env: Env, w: World, step: Step) returns (e: Event)
    requires Launches(env, w, step)
    ensures e.AgentDecision? && e.verdict.outcome == AutoExecute && e.intent == step.intent
    ensures Next(env, w, step) == w.(audit := w.audit + [e], flights := w.flights + [LaunchOf(env, w, step)])
  {
    hide Verdict, InputsOf;
    e := DecisionEvent(env, w, step.intent, step.attestation, step.now);
  }

  lemma LaunchLoads(env: Env, w: World, step: Step, meter: Meter)
    requires Inv(w) && FreshStep(w, step) && Launches(env, w, step)
    ensures Inv(Next(env, w, step))
    ensures Load(Next(env, w, step), meter) == Load(w, meter) + FlightLoad(meter)(LaunchOf(env, w, step))
  {
    hide Next, Inv, Load, LaunchOf, Launches, Shape, Explains, FlightLoad;
    NextKeepsInv(env, w, step);
    var effect, events := SoundEffect(env, w, step);
    EffectLoad(w, step, Next(env, w, step), effect, events, meter);
  }

  lemma StillCalm(audit: seq<Event>, e: Event)
    requires CalmTrail(audit, true) && e.AgentDecision? && e.verdict.outcome == AutoExecute
    ensures CalmTrail(audit + [e], true)
  {
    SumAppend(audit, e, Refusal());
  }

  lemma SoundAfter(env: Env, start: World, steps: seq<Step>, m: Mandate, k: nat)
    requires TermsKept(env, start, steps, m, k)
    ensures Inv(Run(env, start, steps)) && DistinctMandates(Run(env, start, steps).ledger.mandates)
  {
    hide Run, FreshIds, IsFresh, AutoIds, SoundIntent;
    RunKeepsInv(env, start, steps);
  }

  lemma ExtendFresh(env: Env, start: World, steps: seq<Step>, step: Step)
    requires FreshIds(env, start, steps) && FreshStep(Run(env, start, steps), step)
    ensures FreshIds(env, start, steps + [step])
  {
    hide Run, FreshStep;
    var longer, n := steps + [step], |steps|;
    assert longer[..n] == steps;
    forall j | 0 <= j < |longer|
      ensures FreshStep(Run(env, start, longer[..j]), longer[j])
    {
      if j < n {
        assert longer[..j] == steps[..j] && longer[j] == steps[j];
      }
    }
  }

  /** One more step of a run that keeps a mandate's terms. */
  lemma TermsSnoc(env: Env, start: World, steps: seq<Step>, m: Mandate, k: nat, step: Step)
    requires TermsKept(env, start, steps, m, k)
    requires FreshStep(Run(env, start, steps), step) && KeepsTerms(step, m)
    requires |Next(env, Run(env, start, steps), step).flights| <= k
    ensures TermsKept(env, start, steps + [step], m, k)
  {
    hide Next, FreshStep, IsFresh, TermsIfStored, Inv, FreshIds, KeepsTerms;
    TermsNow(env, start, steps, m, k);
    SoundAfter(env, start, steps, m, k);
    NextKeepsTerms(env, Run(env, start, steps), step, m);
    ExtendFresh(env, start, steps, step);
    var longer, n := steps + [step], |steps|;
    assert longer[..n] == steps && longer[..|longer| - 1] == steps && longer[..n + 1] == longer;
    forall j | 0 <= j <= |longer|
      ensures |Run(env, start, longer[..j]).flights| <= k && TermsIfStored(Run(env, start, longer[..j]), m)
    {
      if j <= n {
        assert longer[..j] == steps[..j];
      }
    }
  }

  /** One more step of an orderly run. */
  lemma OrderlySnoc(env: Env, start: World, steps: seq<Step>, m: Mandate, k: nat, step: Step)
    requires OrderlyRun(env, start, steps, m, k)
    requires FreshStep(Run(env, start, steps), step) && KeepsTerms(step, m)
    requires SameCurrency(env, Run(env, start, steps), step, m)
    requires |Next(env, Run(env, start, steps), step).flights| <= k
    ensures OrderlyRun(env, start, steps + [step], m, k)
  {
    hide Run, SameCurrency, TermsKept;
    TermsSnoc(env, start, steps, m, k, step);
    var longer, n := steps + [step], |steps|;
    forall j | 0 <= j < |longer|
      ensures SameCurrency(env, Run(env, start, longer[..j]), longer[j], m)
    {
      if j < n {
        assert longer[..j] == steps[..j] && longer[j] == steps[j];
      } else {
        assert longer[..n] == steps;
      }
    }
  }

  lemma OpeningKeepsTerms(env: Env, m: Mandate, k: nat)
    requires IsInstallation(env) && m.scope == ClassScope("tools")
    ensures TermsKept(env, Start(m), OPENING, m, k)
  {
    hide Next;
    var start := Start(m);
    var w1 := FirstIsParked(env, m);
    FirstIsApproved(env, m, w1);
    assert Run(env, start, []) == start;
    hide Run;
    assert TermsKept(env, start, [], m, k);
    assert [] + [OPENING[0]] == [OPENING[0]] && [OPENING[0]] + [OPENING[1]] == OPENING;
    TermsSnoc(env, start, [], m, k, OPENING[0]);
    RunOne(env, start, OPENING[0]);
    TermsSnoc(env, start, [OPENING[0]], m, k, OPENING[1]);
  }

  lemma RunOne(env: Env, start: World, step: Step)
    ensures Run(env, start, [step]) == Next(env, start, step)
  {
    hide Next;
    assert [step][..0] == [];
  }

  // --- settled purchases of one unit, and then purchases that overlap ---

  /** `paid` purchases of one unit have settled; ids up to `used` are taken. */
  ghost predicate Underway(m: Mandate, w: World, paid: nat, used: nat) {
    && Inv(w)
    && w.ledger.mandates == [m] && !w.ledger.killed && w.ledger.failures == 0
    && CalmTrail(w.audit, true)
    && SettledCount(w.ledger.intents, "acme") >= 1
    && Sum(PeriodSpend(w.ledger, "m", 0), Gate.SpendAmount()) == paid && |PeriodSpend(w.ledger, "m", 0)| == paid
    && (forall s :: s in w.ledger.intents ==> s.intent.id == "first" || |s.intent.id| <= used)
    && (forall f :: f in w.flights ==> |f.intent.id| <= used)
  }

  function MoneyMeter(m: Mandate): Meter {
    Meter(m, 0, None, false)
  }

  predicate IsCapped(m: Mandate) {
    m == Tools(m.perTxCap, m.perPeriodCap, "EUR", Day) && m.perTxCap > 0 && m.perPeriodCap > 0
  }

  lemma PurchaseIsFresh(m: Mandate, w: World, paid: nat, used: nat, amount: int)
    requires Underway(m, w, paid, used)
    ensures FreshStep(w, Purchase(amount, used))
  {
    HasIntentIff(w.ledger.intents, Id(used + 1));
    hide Inv, CalmTrail, PeriodSpend;
    assert Id(used + 1)[0] != "first"[0];
  }

  lemma PurchaseLaunches(env: Env, m: Mandate, w: World, paid: nat, used: nat, amount: int)
    requires IsInstallation(env) && IsCapped(m) && Underway(m, w, paid, used) && paid < env.config.velocityMaxCount
    requires 0 < amount <= m.perTxCap && paid + amount <= m.perPeriodCap
    ensures Launches(env, w, Purchase(amount, used))
    ensures LaunchOf(env, w, Purchase(amount, used)).verdict.mandateId == Some("m")
  {
    hide Inv, GateVerdict, CalmTrail, PeriodSpend;
    var step := Purchase(amount, used);
    GateAdmits(env, w.ledger, m, step.intent);
    assert IsStreaming(w.ledger.mandates, GateVerdict(env, w.ledger, step.intent, None, 0));
    CalmIsQuiet(step.intent, w.audit, true, 0);
  }

  /** One more purchase, and no answer yet. */
  lemma Purchased(env: Env, m: Mandate, w: World, paid: nat, used: nat, amount: int)
    requires IsInstallation(env) && IsCapped(m) && Underway(m, w, paid, used) && paid < env.config.velocityMaxCount
    requires 0 < amount <= m.perTxCap && paid + amount <= m.perPeriodCap
    ensures FreshStep(w, Purchase(amount, used))
    ensures var f, w' := LaunchOf(env, w, Purchase(amount, used)), Next(env, w, Purchase(amount, used));
            && Underway(m, w', paid, used + 1)
            && w'.flights == w.flights + [f] && f.intent == Purchase(amount, used).intent && f.now == 0
            && f.verdict.mandateId == Some("m")
            && Load(w', MoneyMeter(m)) == Load(w, MoneyMeter(m)) + amount
  {
    hide Next, Verdict, Inv, Load, Launches, CalmTrail, FreshStep, PeriodSpend;
    var step := Purchase(amount, used);
    PurchaseIsFresh(m, w, paid, used, amount);
    PurchaseLaunches(env, m, w, paid, used, amount);
    LaunchLoads(env, w, step, MoneyMeter(m));
    var e := LaunchAdds(env, w, step);
    StillCalm(w.audit, e);
    assert PeriodStart(0, Day) == 0;
  }

  const ANSWERED: Step := Finish(0, Receipted("a", true))

  /** What a successful answer does to the only flight. */
  lemma AnswerFiles(env: Env, w: World) returns (s: StoredIntent, events: seq<Event>)
    requires env.railOf == Rail && Inv(w) && |w.flights| == 1
    ensures var f, w' := w.flights[0], Next(env, w, ANSWERED);
            && s == StoredIntent(f.intent, Settled, f.verdict.mandateId, f.verdict.reasons, Some(f.now), Some("a"), None)
            && w'.flights == [] && w'.audit == w.audit + events && w'.ledger.intents == w.ledger.intents + [s]
            && w'.ledger.mandates == w.ledger.mandates && w'.ledger.killed == w.ledger.killed && w'.ledger.failures == 0
    ensures |events| == 2 && events[0].PaymentSettled? && events[1].PaymentVerified?
  {
    hide AutoIds, SoundIntent;
    var f := w.flights[0];
    s := StoredIntent(f.intent, Settled, f.verdict.mandateId, f.verdict.reasons, Some(f.now), Some("a"), None);
    events := Settle(env, f.intent, f.now, Receipted("a", true)).events;
    assert w.flights[..0] + w.flights[1..] == [];
    assert !HasIntent(w.ledger.intents, f.intent.id);
  }

  lemma QuietPair(audit: seq<Event>, events: seq<Event>)
    requires CalmTrail(audit, true) && |events| == 2 && events[0].PaymentSettled? && events[1].PaymentVerified?
    ensures CalmTrail(audit + events, true) && AutoIds(audit + events) == AutoIds(audit)
  {
    assert events == [events[0], events[1]];
    SumConcat(audit, events, Refusal());
    SumOfTwo(events[0], events[1], Refusal());
    AutoIdsConcat(audit, events);
    NoAutoIds(events);
  }

  lemma OneMoreSpend(m: Mandate, ledger: Ledger, ledger': Ledger, s: StoredIntent)
    requires IsCapped(m) && ledger.mandates == ledger'.mandates == [m] && ledger'.intents == ledger.intents + [s]
    requires s.status == Settled && s.mandateId == Some("m") && s.settledAt == Some(0) && s.Net() == 1 && s.intent.payee == "acme"
    ensures PeriodSpend(ledger', "m", 0) == PeriodSpend(ledger, "m", 0) + [PriorSpend(1, 0)]
    ensures SettledCount(ledger'.intents, "acme") == SettledCount(ledger.intents, "acme") + 1
  {
    assert PeriodStart(0, Day) == 0;
    assert (ledger.intents + [s])[..|ledger.intents|] == ledger.intents;
  }

  /** The load moves from the flights to the ledger and stays what it is. */
  lemma LandedLoad(m: Mandate, w: World, w': World, s: StoredIntent)
    requires IsCapped(m) && Inv(w) && |w.flights| == 1 && w'.flights == [] && w'.ledger.intents == w.ledger.intents + [s]
    requires AutoIds(w'.audit) == AutoIds(w.audit) && w.flights[0].now == 0
    requires s.intent == w.flights[0].intent && s.mandateId == w.flights[0].verdict.mandateId == Some("m")
    requires s.status == Settled && s.settledAt == Some(0) && s.refundedMinor == None
    ensures Load(w', MoneyMeter(m)) == Load(w, MoneyMeter(m))
  {
    hide Inv, AutoIds;
    FlightIsAuto(w);
    var meter := MoneyMeter(m);
    assert PeriodStart(0, Day) == 0;
    SumAppend(w.ledger.intents, s, SettledLoad(meter, AutoIds(w.audit)));
    assert w.flights == [w.flights[0]];
    SumOfOne(w.flights[0], FlightLoad(meter));
    SumOfNone(FlightLoad(meter));
  }

  lemma FlightIsAuto(w: World)
    requires Inv(w) && |w.flights| == 1
    ensures w.flights[0].intent.id in AutoIds(w.audit)
  {
  }

  /** The answer to a purchase of one unit. */
  lemma Settles(env: Env, m: Mandate, w: World, paid: nat, used: nat)
    requires IsInstallation(env) && IsCapped(m) && Underway(m, w, paid, used) && |w.flights| == 1
    requires used > 0 && w.flights[0].intent == Purchase(1, used - 1).intent
    requires w.flights[0].now == 0 && w.flights[0].verdict.mandateId == Some("m")
    ensures var w' := Next(env, w, ANSWERED);
            Underway(m, w', paid + 1, used) && w'.flights == [] && Load(w', MoneyMeter(m)) == Load(w, MoneyMeter(m))
  {
    hide Next, Inv, Load, CalmTrail, PeriodSpend, AutoIds;
    var w' := Next(env, w, ANSWERED);
    NextKeepsInv(env, w, ANSWERED);
    var s, events := AnswerFiles(env, w);
    QuietPair(w.audit, events);
    OneMoreSpend(m, w.ledger, w'.ledger, s);
    SumAppend(PeriodSpend(w.ledger, "m", 0), PriorSpend(1, 0), Gate.SpendAmount());
    LandedLoad(m, w, w', s);
  }

  // --- the run ---

  /** n purchases of one unit, each answered before the next. */
  function Settlements(n: nat): seq<Step> {
    if n == 0 then [] else Settlements(n - 1) + [Purchase(1, n - 1)] + [ANSWERED]
  }

  /** k purchases before any answer. */
  function Purchases(amount: int, used: nat, k: nat): seq<Step> {
    if k == 0 then [] else Purchases(amount, used, k - 1) + [Purchase(amount, used + k - 1)]
  }

  lemma OpenedIsUnderway(m: Mandate, w: World)
    requires IsCapped(m) && Opened(m, w) && Inv(w)
    ensures Underway(m, w, 0, 0) && Load(w, MoneyMeter(m)) == 0
  {
    OpenedIsCalm(m, w, true);
    hide Inv, AutoIds, CalmTrail;
    assert [KNOWN][..0] == [];
    assert SettledCount([KNOWN], "acme") == 1 && SpendFrom([KNOWN], "m", 0) == [];
    assert PeriodStart(0, Day) == 0;
    SumOfNone(Gate.SpendAmount());
    SumOfOne(KNOWN, SettledLoad(MoneyMeter(m), AutoIds(w.audit)));
    SumOfNone(FlightLoad(MoneyMeter(m)));
  }

  lemma OpeningIsOrderly(env: Env, m: Mandate, k: nat)
    requires IsInstallation(env) && IsCapped(m) && env.fx.None?
    ensures OrderlyRun(env, Start(m), OPENING, m, k)
    ensures Underway(m, Run(env, Start(m), OPENING), 0, 0) && Load(Run(env, Start(m), OPENING), MoneyMeter(m)) == 0
    ensures Run(env, Start(m), OPENING).flights == []
  {
    hide Run, Launches, LaunchOf, Underway, Load;
    OpeningKeepsTerms(env, m, k);
    OpeningRuns(env, m);
    OpeningIsFresh(env, m);
    RunKeepsInv(env, Start(m), OPENING);
    OpenedIsUnderway(m, Run(env, Start(m), OPENING));
  }

  /** Where a run of purchases has got to. */
  ghost predicate Reached(env: Env, m: Mandate, steps: seq<Step>, k: nat, paid: nat, used: nat, load: int) {
    var w := Run(env, Start(m), steps);
    OrderlyRun(env, Start(m), steps, m, k) && Underway(m, w, paid, used) && Load(w, MoneyMeter(m)) == load
  }

  lemma BuyOne(env: Env, m: Mandate, steps: seq<Step>, k: nat, paid: nat, used: nat, load: int, amount: int)
    requires IsInstallation(env) && IsCapped(m) && env.fx.None? && Reached(env, m, steps, k, paid, used, load)
    requires paid < env.config.velocityMaxCount && |Run(env, Start(m), steps).flights| < k
    requires 0 < amount <= m.perTxCap && paid + amount <= m.perPeriodCap
    ensures var longer := steps + [Purchase(amount, used)];
            && Reached(env, m, longer, k, paid, used + 1, load + amount)
            && Run(env, Start(m), longer).flights
               == Run(env, Start(m), steps).flights + [LaunchOf(env, Run(env, Start(m), steps), Purchase(amount, used))]
    ensures var f := LaunchOf(env, Run(env, Start(m), steps), Purchase(amount, used));
            f.intent == Purchase(amount, used).intent && f.now == 0 && f.verdict.mandateId == Some("m")
  {
    hide Next, Run, Underway, OrderlyRun, Load, IsInstallation, LaunchOf, Launches;
    Purchased(env, m, Run(env, Start(m), steps), paid, used, amount);
    OrderlySnoc(env, Start(m), steps, m, k, Purchase(amount, used));
    RunSnoc(env, Start(m), steps, Purchase(amount, used));
  }

  lemma AnswerOne(env: Env, m: Mandate, steps: seq<Step>, k: nat, paid: nat, used: nat, load: int)
    requires IsInstallation(env) && IsCapped(m) && env.fx.None? && Reached(env, m, steps, k, paid, used, load)
    requires var flights := Run(env, Start(m), steps).flights;
             && |flights| == 1 && used > 0 && flights[0].intent == Purchase(1, used - 1).intent
             && flights[0].now == 0 && flights[0].verdict.mandateId == Some("m")
    ensures Reached(env, m, steps + [ANSWERED], k, paid + 1, used, load)
    ensures Run(env, Start(m), steps + [ANSWERED]).flights == []
  {
    hide Next, Run, Underway, OrderlyRun, Load, IsInstallation, Launches;
    Settles(env, m, Run(env, Start(m), steps), paid, used);
    OrderlySnoc(env, Start(m), steps, m, k, ANSWERED);
    RunSnoc(env, Start(m), steps, ANSWERED);
  }

  lemma SettleOne(env: Env, m: Mandate, steps: seq<Step>, k: nat, n: nat)
    requires IsInstallation(env) && IsCapped(m) && env.fx.None? && Reached(env, m, steps, k, n, n, n) && k >= 1
    requires n < env.config.velocityMaxCount && n < m.perPeriodCap && Run(env, Start(m), steps).flights == []
    ensures Reached(env, m, steps + [Purchase(1, n)] + [ANSWERED], k, n + 1, n + 1, n + 1)
    ensures Run(env, Start(m), steps + [Purchase(1, n)] + [ANSWERED]).flights == []
  {
    hide Run, IsInstallation, LaunchOf, Reached;
    BuyOne(env, m, steps, k, n, n, n, 1);
    AnswerOne(env, m, steps + [Purchase(1, n)], k, n, n + 1, n + 1);
  }

  /** The room for one more payment is left; everything else has settled. */
  lemma {:induction false} SettlementsRun(env: Env, m: Mandate, n: nat, k: nat)
    requires IsInstallation(env) && IsCapped(m) && env.fx.None? && n < env.config.velocityMaxCount && n < m.perPeriodCap && k >= 1
    ensures Reached(env, m, OPENING + Settlements(n), k, n, n, n)
    ensures Run(env, Start(m), OPENING + Settlements(n)).flights == []
  {
    hide Run, IsInstallation, Reached;
    if n == 0 {
      OpeningIsReached(env, m, k);
      assert OPENING + Settlements(0) == OPENING;
    } else {
      SettlementsRun(env, m, n - 1, k);
      SettleOne(env, m, OPENING + Settlements(n - 1), k, n - 1);
      assert OPENING + Settlements(n) == OPENING + Settlements(n - 1) + [Purchase(1, n - 1)] + [ANSWERED];
    }
  }

  lemma OpeningIsReached(env: Env, m: Mandate, k: nat)
    requires IsInstallation(env) && IsCapped(m) && env.fx.None?
    ensures Reached(env, m, OPENING, k, 0, 0, 0) && Run(env, Start(m), OPENING).flights == []
  {
    hide Run, OrderlyRun, Underway, Load;
    OpeningIsOrderly(env, m, k);
  }

  lemma {:induction false} PurchasesRun(env: Env, m: Mandate, amount: int, n: nat, j: nat, k: nat)
    requires IsInstallation(env) && IsCapped(m) && env.fx.None? && n < env.config.velocityMaxCount && k >= 1 && j <= k
    requires 0 < amount <= m.perTxCap && n + amount <= m.perPeriodCap
    ensures Reached(env, m, OPENING + Settlements(n) + Purchases(amount, n, j), k, n, n + j, n + j * amount)
    ensures |Run(env, Start(m), OPENING + Settlements(n) + Purchases(amount, n, j)).flights| == j
  {
    hide Run, Reached, IsInstallation, LaunchOf;
    var settled := OPENING + Settlements(n);
    if j == 0 {
      assert settled + Purchases(amount, n, 0) == settled;
      SettlementsRun(env, m, n, k);
    } else {
      PurchasesRun(env, m, amount, n, j - 1, k);
      var before := settled + Purchases(amount, n, j - 1);
      BuyOne(env, m, before, k, n, n + j - 1, n + (j - 1) * amount, amount);
      assert settled + Purchases(amount, n, j) == before + [Purchase(amount, n + j - 1)];
      assert j * amount == (j - 1) * amount + amount;
    }
  }

  /** The budget bound cannot be lowered: for all caps and every k there is a run with at most k
   *  executions overlapping whose load is exactly the period cap and k - 1 times the most one
   *  payment can be. With two, the period cap is passed. */
  lemma BoundIsReached(perTxCap: int, perPeriodCap: int, k: nat) returns (env: Env, start: World, steps: seq<Step>, m: Mandate)
    requires perTxCap > 0 && perPeriodCap > 0 && k >= 1
    ensures OrderlyRun(env, start, steps, m, k)
    ensures m.perTxCap == perTxCap && m.perPeriodCap == perPeriodCap
    ensures Load(Run(env, start, steps), Meter(m, 0, None, false)) == perPeriodCap + (k - 1) * Min(perTxCap, perPeriodCap)
    ensures k >= 2 ==> Load(Run(env, start, steps), Meter(m, 0, None, false)) > perPeriodCap
  {
    hide Run, OrderlyRun, Underway, Load;
    env := Installation(None, None, perPeriodCap + 10);
    m := Tools(perTxCap, perPeriodCap, "EUR", Day);
    var amount := Min(perTxCap, perPeriodCap);
    var n := perPeriodCap - amount;
    start, steps := Start(m), OPENING + Settlements(n) + Purchases(amount, n, k);
    PurchasesRun(env, m, amount, n, k, k);
    Multiples(amount, k);
  }

  lemma Multiples(amount: int, k: nat)
    requires amount > 0 && k >= 1
    ensures k * amount == amount + (k - 1) * amount
    ensures k >= 2 ==> k * amount > amount
  {
  }
}
