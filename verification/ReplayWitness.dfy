/** Both sides of the simulator's fixpoint, in sessions that start from a fresh installation:
 *  one the simulator agrees with, cap and all, and one it does not. */
module ReplayWitness {
  import opened Prelude
  import opened Types
  import opened Calendar
  import opened Gate
  import opened Risk
  import opened Store
  import opened Trail
  import opened RiskChain
  import opened Executor
  import opened Effects
  import opened Invariants
  import opened EnforcementLaws
  import opened ReplaySim
  import opened ReplaySession
  import opened Scenario
  import opened BudgetBound
  import opened DuplicateId

  lemma SessionSnoc(env: Env, start: World, steps: seq<Step>, step: Step)
    requires OneByOne(env, start, steps)
    requires var w := Run(env, start, steps);
             FreshStep(w, step) && KeepsPolicy(step) && Succeeds(env, step) && (step.Begin? ==> w.flights == [])
    ensures OneByOne(env, start, steps + [step])
  {
    hide Next, FreshStep, KeepsPolicy, Succeeds, Inv, LocalRules;
    var longer, n := steps + [step], |steps|;
    assert longer[..n] == steps;
    forall j | 0 <= j < |longer|
      ensures FreshStep(Run(env, start, longer[..j]), longer[j])
      ensures longer[j].Begin? ==> Run(env, start, longer[..j]).flights == []
    {
      if j < n {
        assert longer[..j] == steps[..j] && longer[j] == steps[j];
      }
    }
  }

  lemma NoStepsYet(env: Env, m: Mandate)
    requires IsInstallation(env) && env.fx.None?
    ensures OneByOne(env, Start(m), []) && AllUntouched(env, Start(m), []) && NeverEscalated(env, Start(m), [])
  {
    assert AutoIds([]) == {};
  }

  /** A session in which every judged payment is untouched and none is held back. */
  ghost predicate Clean(env: Env, start: World, steps: seq<Step>) {
    OneByOne(env, start, steps) && AllUntouched(env, start, steps) && NeverEscalated(env, start, steps)
  }

  lemma CleanSnoc(env: Env, start: World, steps: seq<Step>, step: Step)
    requires Clean(env, start, steps)
    requires var w := Run(env, start, steps);
             && FreshStep(w, step) && KeepsPolicy(step) && Succeeds(env, step) && (step.Begin? ==> w.flights == [])
             && (Judged(env, w, step) ==>
                   Untouched(env, w, step.intent, step.attestation) && !WasEscalated(env, w, step.intent, step.attestation, step.now))
    ensures Clean(env, start, steps + [step])
  {
    SessionSnoc(env, start, steps, step);
    hide Run, Untouched, WasEscalated, OneByOne, HaltReason, FreshStep, KeepsPolicy, Succeeds;
    var longer, n := steps + [step], |steps|;
    assert longer[..n] == steps;
    forall j | 0 <= j < |longer| && Judged(env, Run(env, start, longer[..j]), longer[j])
      ensures Untouched(env, Run(env, start, longer[..j]), longer[j].intent, longer[j].attestation)
      ensures !WasEscalated(env, Run(env, start, longer[..j]), longer[j].intent, longer[j].attestation, longer[j].now)
    {
      if j < n {
        assert longer[..j] == steps[..j] && longer[j] == steps[j];
      }
    }
  }

  // --- a session the simulator agrees with ---

  /** A payment no mandate covers is not weighed. */
  lemma FirstIsClean(env: Env, m: Mandate)
    requires IsInstallation(env) && m.scope == ClassScope("tools") && env.fx.None?
    ensures Clean(env, Start(m), OPENING)
  {
    var start := Start(m);
    NoStepsYet(env, m);
    var w1 := FirstIsParked(env, m);
    NotCovered(env, start.ledger, m);
    assert !Covers(m, FIRST, None);
    assert Authority(start.ledger.mandates, FIRST, 0, None) == None;
    assert Run(env, start, []) == start;
    hide Next, Authority, Floor, GateVerdict, Inv, OneByOne, AllUntouched, NeverEscalated, Run;
    assert Weighed(env, start, FIRST, None) == None;
    assert [] + [OPENING[0]] == [OPENING[0]] && [OPENING[0]] + [OPENING[1]] == OPENING;
    CleanSnoc(env, start, [], OPENING[0]);
    RunOne(env, start, OPENING[0]);
    CleanSnoc(env, start, [OPENING[0]], OPENING[1]);
  }

  const AGREED: seq<Step> := [Purchase(1, 0), Finish(0, Receipted("a", true)), Purchase(1, 1)]

  lemma NothingCharged(env: Env, w: World, intent: PaymentIntent)
    requires w.ledger.intents == [KNOWN]
    ensures Untouched(env, w, intent, None)
  {
    hide Weighed;
  }

  /** The first purchase runs unattended. */
  lemma PurchaseIsClean(env: Env, w: World)
    requires IsInstallation(env) && w.ledger.intents == [KNOWN] && w.flights == [] && Launches(env, w, AGREED[0])
    requires Clean(env, Start(Plan(1)), OPENING) && w == Run(env, Start(Plan(1)), OPENING)
    ensures Clean(env, Start(Plan(1)), OPENING + [AGREED[0]])
    ensures Run(env, Start(Plan(1)), OPENING + [AGREED[0]]) == Next(env, w, AGREED[0])
  {
    hide Next, Run, Clean, Untouched, WasEscalated, Launches, Judged, FreshStep;
    NothingCharged(env, w, AGREED[0].intent);
    NewPurchase(w);
    NotHeldBack(env, w, AGREED[0]);
    CleanSnoc(env, Start(Plan(1)), OPENING, AGREED[0]);
    RunSnoc(env, Start(Plan(1)), OPENING, AGREED[0]);
  }

  lemma NewPurchase(w: World)
    requires w.ledger.intents == [KNOWN] && w.flights == []
    ensures FreshStep(w, AGREED[0])
  {
    HasIntentIff(w.ledger.intents, Id(1));
  }

  lemma NotHeldBack(env: Env, w: World, step: Step)
    requires Launches(env, w, step)
    ensures !WasEscalated(env, w, step.intent, step.attestation, step.now)
  {
    hide Verdict, GateVerdict;
  }

  /** The rail answers, and the ledger has one payment under the mandate. */
  lemma LandingCharges(env: Env, w: World) returns (s: StoredIntent)
    requires env.railOf == Rail && w.ledger.intents == [KNOWN]
    requires |w.flights| == 1 && w.flights[0].intent == Purchase(1, 0).intent
    requires w.flights[0].now == 0 && w.flights[0].verdict.mandateId == Some("m")
    ensures var w' := Next(env, w, AGREED[1]);
            && w'.flights == [] && w'.ledger.intents == [KNOWN, s] && w'.ledger.mandates == w.ledger.mandates
            && w.audit <= w'.audit && w'.ledger.killed == w.ledger.killed && w'.ledger.failures == 0
    ensures s.status == Settled && s.mandateId == Some("m") && s.settledAt == Some(0) && s.Net() == 1 && s.intent == Purchase(1, 0).intent
  {
    var f := w.flights[0];
    s := StoredIntent(f.intent, Settled, f.verdict.mandateId, f.verdict.reasons, Some(f.now), Some("a"), None);
    assert !HasIntent([KNOWN], Id(1));
    assert w.flights[..0] + w.flights[1..] == [];
    assert [KNOWN] + [s] == [KNOWN, s];
  }

  lemma LandingIsClean(env: Env, before: seq<Step>, w: World)
    requires IsInstallation(env) && Clean(env, Start(Plan(1)), before) && w == Run(env, Start(Plan(1)), before)
    ensures Clean(env, Start(Plan(1)), before + [AGREED[1]])
    ensures Run(env, Start(Plan(1)), before + [AGREED[1]]) == Next(env, w, AGREED[1])
  {
    hide Next, Run, Clean;
    CleanSnoc(env, Start(Plan(1)), before, AGREED[1]);
    RunSnoc(env, Start(Plan(1)), before, AGREED[1]);
  }

  /** The second purchase is over the cap. */
  lemma SecondIsBlocked(env: Env, w: World, s: StoredIntent)
    requires IsInstallation(env) && w.ledger.mandates == [Plan(1)] && w.ledger.intents == [KNOWN, s]
    requires s.status == Settled && s.mandateId == Some("m") && s.settledAt == Some(0) && s.Net() == 1
    ensures GateVerdict(env, w.ledger, AGREED[2].intent, None, 0).outcome == Block
  {
    var intent := AGREED[2].intent;
    var ctx := Context(env, w.ledger, intent, None, 0);
    assert ctx.periodSpend("m") == [PriorSpend(1, 0)] by {
      assert [KNOWN, s][..1] == [KNOWN] && [KNOWN][..0] == [];
      assert SpendFrom([KNOWN], "m", 0) == [];
      assert PeriodStart(0, Day) == 0;
      assert SpendFrom([KNOWN, s], "m", 0) == [PriorSpend(1, 0)];
    }
    SumOfOne(PriorSpend(1, 0), SpendAmount());
    assert ActiveMandates([Plan(1)], 0) == [Plan(1)];
    assert Authority([Plan(1)], intent, 0, LiveConvert(env)) == Some(Plan(1));
    hide ClassifySpendRisk, SignalsOf, RecentCount;
  }

  lemma BlockedIsClean(env: Env, before: seq<Step>, w: World, s: StoredIntent) returns (e: Event)
    requires IsInstallation(env) && env.fx.None? && Clean(env, Start(Plan(1)), before) && w == Run(env, Start(Plan(1)), before)
    requires w.ledger.mandates == [Plan(1)] && w.ledger.intents == [KNOWN, s] && w.flights == []
    requires s.status == Settled && s.mandateId == Some("m") && s.settledAt == Some(0) && s.Net() == 1
    requires s.intent.id == Id(1) && s.intent.id in AutoIds(w.audit) && HaltReason(env, w.ledger).None?
    ensures Clean(env, Start(Plan(1)), before + [AGREED[2]])
    ensures Run(env, Start(Plan(1)), before + [AGREED[2]]).audit == w.audit + [e]
    ensures e.AgentDecision? && e.verdict.outcome == Block && e.intent.id == Id(2)
  {
    hide GateVerdict, Verdict, Next, Run, Weighed, Clean, AutoIds, WasEscalated, Untouched, DecisionEvent, Judged, FreshStep;
    e := BlockIsRecorded(env, w, s);
    BlockIsNoAlarm(env, w, s);
    ChargeIsUnattended(env, w, s);
    NotInUse(s, w);
    CleanSnoc(env, Start(Plan(1)), before, AGREED[2]);
    RunSnoc(env, Start(Plan(1)), before, AGREED[2]);
  }

  lemma BlockIsRecorded(env: Env, w: World, s: StoredIntent) returns (e: Event)
    requires IsInstallation(env) && w.ledger.mandates == [Plan(1)] && w.ledger.intents == [KNOWN, s] && HaltReason(env, w.ledger).None?
    requires s.status == Settled && s.mandateId == Some("m") && s.settledAt == Some(0) && s.Net() == 1
    ensures Next(env, w, AGREED[2]).audit == w.audit + [e]
    ensures e.AgentDecision? && e.verdict.outcome == Block && e.intent.id == Id(2)
  {
    hide GateVerdict, Next, ChainVerdict, IsStreaming, InputsOf, IsInstallation;
    SecondIsBlocked(env, w, s);
    e := DecisionEvent(env, w, AGREED[2].intent, None, 0);
    DecisionIsRecorded(env, w, AGREED[2]);
  }

  lemma BlockIsNoAlarm(env: Env, w: World, s: StoredIntent)
    requires IsInstallation(env) && w.ledger.mandates == [Plan(1)] && w.ledger.intents == [KNOWN, s]
    requires s.status == Settled && s.mandateId == Some("m") && s.settledAt == Some(0) && s.Net() == 1
    ensures !WasEscalated(env, w, AGREED[2].intent, None, 0)
  {
    hide GateVerdict, Verdict, IsInstallation;
    SecondIsBlocked(env, w, s);
  }

  lemma ChargeIsUnattended(env: Env, w: World, s: StoredIntent)
    requires env.fx.None? && w.ledger.mandates == [Plan(1)] && w.ledger.intents == [KNOWN, s] && s.intent.id in AutoIds(w.audit)
    ensures Untouched(env, w, AGREED[2].intent, None)
  {
    hide AutoIds, Floor, Context, Covers;
    AuthorityIsFirst(w.ledger.mandates, AGREED[2].intent, 0, None);
  }

  lemma NotInUse(s: StoredIntent, w: World)
    requires w.ledger.intents == [KNOWN, s] && w.flights == [] && s.intent.id == Id(1)
    ensures FreshStep(w, AGREED[2])
  {
    HasIntentIff(w.ledger.intents, Id(2));
  }

  /** A session from a fresh installation in which the simulator has spend to rebuild: one
   *  payment runs unattended and uses up the cap, the next is blocked for it, and replaying
   *  the trail reports no change. */
  lemma AgreedSession() returns (env: Env, start: World, steps: seq<Step>, ran: Event, blocked: Event)
    ensures IsFresh(start) && OneByOne(env, start, steps) && AllUntouched(env, start, steps)
    ensures ran in Run(env, start, steps).audit && ran.AgentDecision? && ran.verdict.outcome == AutoExecute
    ensures blocked in Run(env, start, steps).audit && blocked.AgentDecision? && blocked.verdict.outcome == Block
    ensures var c := Candidate(start.ledger.mandates, env.config, env.denyRules);
            Sum(ReplayOf(Run(env, start, steps).audit, c).records, IsChange()) == 0
  {
    env := Installation(None, None, 10);
    start := Start(Plan(1));
    FirstIsClean(env, Plan(1));
    OpeningRuns(env, Plan(1));
    var w0 := Run(env, start, OPENING);
    OpenedIsCalm(Plan(1), w0, true);
    hide Run, Next, ReplayOf, Clean, LaunchOf, Launches, AutoIds, CalmTrail;
    ran := LaunchesAgain(env, w0);
    LaunchCarries(env, w0);
    PurchaseIsClean(env, w0);
    var s1 := OPENING + [AGREED[0]];
    var w1 := Run(env, start, s1);
    var s := LandingCharges(env, w1);
    LandingIsClean(env, s1, w1);
    var w2 := Run(env, start, s1 + [AGREED[1]]);
    AutoIdsAppend(w0.audit, ran);
    AutoIdsGrow(w1.audit, w2.audit);
    blocked := BlockedIsClean(env, s1 + [AGREED[1]], w2, s);
    steps := s1 + [AGREED[1]] + [AGREED[2]];
    CleanChangesNothing(env, start, steps);
  }

  lemma CleanChangesNothing(env: Env, start: World, steps: seq<Step>)
    requires Clean(env, start, steps)
    ensures OneByOne(env, start, steps) && AllUntouched(env, start, steps)
    ensures var c := Candidate(start.ledger.mandates, env.config, env.denyRules);
            Sum(ReplayOf(Run(env, start, steps).audit, c).records, IsChange()) == 0
  {
    hide OneByOne, AllUntouched, NeverEscalated, ReplayOf, Run;
    UntouchedFixpointIff(env, start, steps);
  }

  lemma LaunchCarries(env: Env, w: World)
    ensures LaunchOf(env, w, AGREED[0]).intent == Purchase(1, 0).intent && LaunchOf(env, w, AGREED[0]).now == 0
  {
  }

  // --- a session it does not agree with ---

  /** The first payment to a payee, this time within the mandate. */
  const NEWCOMER: PaymentIntent := Invoice("first", "tools", 1, "EUR")

  const DISPUTED: seq<Step> :=
    [Begin(NEWCOMER, None, 0), ApproveIt("first", true, 0, Receipted("r", true)), Purchase(1, 0)]

  /** A payee not paid before is put to the operator, under the mandate. */
  lemma NewcomerIsAsked(env: Env, ledger: Ledger)
    requires IsInstallation(env) && ledger.mandates == [Plan(1)]
    requires PeriodSpend(ledger, "m", 0) == [] && SettledCount(ledger.intents, "acme") == 0
    ensures GateVerdict(env, ledger, NEWCOMER, None, 0).outcome == ConfirmOperator
    ensures GateVerdict(env, ledger, NEWCOMER, None, 0).mandateId == Some("m")
  {
    assert ActiveMandates([Plan(1)], 0) == [Plan(1)];
    assert Authority([Plan(1)], NEWCOMER, 0, LiveConvert(env)) == Some(Plan(1));
    SumOfNone(SpendAmount());
    hide ClassifySpendRisk, RecentCount;
  }

  lemma NewcomerIsParked(env: Env) returns (s: StoredIntent, e: Event)
    requires IsInstallation(env)
    ensures s.intent == NEWCOMER && s.status == Pending && s.mandateId == Some("m") && s.refundedMinor == None
    ensures e.AgentDecision? && e.verdict.outcome == ConfirmOperator
    ensures Next(env, Start(Plan(1)), DISPUTED[0]) == World(EMPTY.(mandates := [Plan(1)], intents := [s]), [e], [])
  {
    var w := Start(Plan(1));
    NewcomerIsAsked(env, w.ledger);
    hide GateVerdict, InputsOf, ChainVerdict;
    e := DecisionEvent(env, w, NEWCOMER, None, 0);
    s := StoredIntent(NEWCOMER, Pending, e.verdict.mandateId, e.verdict.reasons, None, None, None);
    assert [] + [s] == [s] && [] + [e] == [e];
  }

  lemma PendingCountsNothing(parked: StoredIntent)
    requires parked.status == Pending
    ensures SpendFrom([parked], "m", 0) == [] && SettledCount([parked], "acme") == 0
  {
    assert [parked][..0] == [];
    assert SpendFrom([], "m", 0) == [] && SettledCount([], "acme") == 0;
  }

  lemma NewcomerIsApproved(env: Env, w: World) returns (s: StoredIntent)
    requires IsInstallation(env) && w.ledger.mandates == [Plan(1)] && |w.ledger.intents| == 1
    requires w.ledger.intents[0].intent == NEWCOMER && w.ledger.intents[0].status == Pending
    requires w.ledger.intents[0].mandateId == Some("m") && w.ledger.intents[0].refundedMinor == None
    requires HaltReason(env, w.ledger).None?
    ensures s.intent == NEWCOMER && s.status == Settled && s.mandateId == Some("m") && s.settledAt == Some(0) && s.Net() == 1
    ensures var w' := Next(env, w, DISPUTED[1]);
            && w'.ledger.mandates == w.ledger.mandates && w'.ledger.intents == [s] && w'.flights == w.flights
            && w'.ledger.killed == w.ledger.killed && w'.ledger.failures == 0
            && w.audit <= w'.audit && forall k :: |w.audit| <= k < |w'.audit| ==> !w'.audit[k].AgentDecision?
  {
    var parked := w.ledger.intents[0];
    assert w.ledger.intents == [parked];
    PendingCountsNothing(parked);
    NewcomerIsAsked(env, w.ledger);
    hide GateVerdict, RequiresChallenge;
    assert IntentIndex(w.ledger.intents, "first") == 0;
    var w' := Next(env, w, DISPUTED[1]);
    s := w'.ledger.intents[0];
    assert w'.ledger.intents == [s];
  }

  /** The world in which the next payment is disputed: the only payment was approved, and it
   *  is charged to the mandate. */
  ghost predicate Attended(w: World, s: StoredIntent) {
    && w.ledger.mandates == [Plan(1)] && w.ledger.intents == [s] && w.flights == []
    && !w.ledger.killed && w.ledger.failures == 0
    && s.intent == NEWCOMER && s.status == Settled && s.mandateId == Some("m") && s.settledAt == Some(0) && s.Net() == 1
  }

  lemma SecondIsWeighed(env: Env, w: World)
    requires IsInstallation(env) && w.ledger.mandates == [Plan(1)]
    ensures Weighed(env, w, DISPUTED[2].intent, None) == Some(Plan(1))
  {
    var intent := DISPUTED[2].intent;
    assert Authority([Plan(1)], intent, 0, None) == Some(Plan(1));
    assert Floor(intent, Context(env, w.ledger, intent, None, 0)) == None;
    hide Authority, Floor, Context;
  }

  lemma AttendedSpend(w: World, s: StoredIntent)
    requires Attended(w, s) && AutoIds(w.audit) == {}
    ensures PeriodSpend(w.ledger, "m", 0) == [PriorSpend(1, 0)] && UnattendedSpend(w, Plan(1), 0) == []
  {
    hide AutoIds;
    assert PeriodStart(0, Day) == 0;
    assert [s][..0] == [] && KeptSpend([], {}, "m", 0) == [];
    assert SpendFrom([s], "m", 0) == [PriorSpend(1, 0)];
    assert KeptSpend([s], {}, "m", 0) == KeptSpend([s][..0], {}, "m", 0) + [] == [];
  }

  /** The ledger counts it, the unattended account does not, and the cap lies between. */
  lemma CapLiesBetween(env: Env, w: World, s: StoredIntent)
    requires IsInstallation(env) && Attended(w, s) && AutoIds(w.audit) == {}
    ensures !Immaterial(env, w, DISPUTED[2].intent, None)
  {
    hide AutoIds, Alerted, Asks, Weighed, PeriodSpend, UnattendedSpend, SignalsOf, Context, IsInstallation;
    SecondIsWeighed(env, w);
    AttendedSpend(w, s);
    SumOfOne(PriorSpend(1, 0), SpendAmount());
    SumOfNone(SpendAmount());
  }

  /** DISAGREEMENT. A first payment within the mandate waits for the operator and is approved;
   *  it uses up the cap, so the next one is blocked. The simulator, which counts only what
   *  ran unattended, reports a change although the policy is the same. */
  lemma DisputedSession() returns (env: Env, start: World, steps: seq<Step>)
    ensures IsFresh(start) && OneByOne(env, start, steps)
    ensures var c := Candidate(start.ledger.mandates, env.config, env.denyRules);
            Sum(ReplayOf(Run(env, start, steps).audit, c).records, IsChange()) != 0
  {
    env := Installation(None, None, 10);
    start, steps := Start(Plan(1)), DISPUTED;
    hide Run, OneByOne, ReplayOf, AllImmaterial, Immaterial, Attended, AutoIds;
    var before, s := AttendedFirst(env);
    var w := Run(env, start, before);
    CapLiesBetween(env, w, s);
    NotYetUsed(s, w);
    SessionSnoc(env, start, before, DISPUTED[2]);
    assert before + [DISPUTED[2]] == DISPUTED && DISPUTED[..2] == before;
    SessionFixpointIff(env, start, DISPUTED);
    NotAllImmaterial(env, start, DISPUTED, 2);
  }

  /** The session up to the disputed payment. */
  lemma DisputeOpens(env: Env, before: seq<Step>)
    requires IsInstallation(env) && env.fx.None? && before == [] + [DISPUTED[0]] + [DISPUTED[1]]
    ensures OneByOne(env, Start(Plan(1)), before)
    ensures Run(env, Start(Plan(1)), before) == Next(env, Next(env, Start(Plan(1)), DISPUTED[0]), DISPUTED[1])
  {
    var start := Start(Plan(1));
    NoStepsYet(env, Plan(1));
    assert Run(env, start, []) == start;
    hide Next, Run, OneByOne;
    SessionSnoc(env, start, [], DISPUTED[0]);
    RunSnoc(env, start, [], DISPUTED[0]);
    SessionSnoc(env, start, [] + [DISPUTED[0]], DISPUTED[1]);
    RunSnoc(env, start, [] + [DISPUTED[0]], DISPUTED[1]);
  }

  lemma AttendedFirst(env: Env) returns (before: seq<Step>, s: StoredIntent)
    requires IsInstallation(env) && env.fx.None?
    ensures before == DISPUTED[..2] && OneByOne(env, Start(Plan(1)), before)
    ensures Attended(Run(env, Start(Plan(1)), before), s) && AutoIds(Run(env, Start(Plan(1)), before).audit) == {}
  {
    before := [] + [DISPUTED[0]] + [DISPUTED[1]];
    hide Next, Run, OneByOne, AutoIds;
    DisputeOpens(env, before);
    var parked, e := NewcomerIsParked(env);
    s := NewcomerIsApproved(env, Next(env, Start(Plan(1)), DISPUTED[0]));
    OnlyOneDecision(Run(env, Start(Plan(1)), before).audit, e);
  }

  lemma NotAllImmaterial(env: Env, start: World, steps: seq<Step>, n: nat)
    requires n < |steps| && Judged(env, Run(env, start, steps[..n]), steps[n])
    requires !Immaterial(env, Run(env, start, steps[..n]), steps[n].intent, steps[n].attestation)
    ensures !AllImmaterial(env, start, steps)
  {
    hide Run, Judged, Immaterial;
  }

  lemma NotYetUsed(s: StoredIntent, w: World)
    requires Attended(w, s)
    ensures FreshStep(w, DISPUTED[2]) && w.flights == [] && w.ledger.failures == 0 && !w.ledger.killed
  {
    HasIntentIff(w.ledger.intents, Id(1));
  }

  lemma OnlyOneDecision(audit: seq<Event>, e: Event)
    requires [e] <= audit && e.AgentDecision? && e.verdict.outcome != AutoExecute
    requires forall k :: 1 <= k < |audit| ==> !audit[k].AgentDecision?
    ensures AutoIds(audit) == {}
  {
    forall x | x in audit ensures AutoIdOf(x) == {} {
      var k :| 0 <= k < |audit| && audit[k] == x;
    }
    NoAutoIds(audit);
  }
}
