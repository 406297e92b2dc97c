/** A small installation in which payments do run unattended, for the witnesses: one rail,
 *  no deny rules, and a payee who becomes known through one approved payment that no
 *  mandate covers. */
module Scenario {
  import opened Prelude
  import opened Types
  import opened Calendar
  import opened Store
  import opened Fx
  import opened Trail
  import opened RiskChain
  import opened Executor
  import Gate
  import Risk

  function Rail(kind: RailKind): Option<Provider> {
    Some(Provider("p", Reversible, true))
  }

  function Issuer(id: string): Option<Provider> {
    Some(Provider("p", Reversible, true))
  }

  function NoReputation(payee: string): Option<Reputation> {
    None
  }

  function Installation(fx: Option<RateSource>, tokenDecimals: Option<map<string, int>>, ceiling: int): Env {
    Env(GateConfig(0, 60, ceiling, 10.0), [], 5, 1_000_000, Rail, Issuer, fx, tokenDecimals, NoReputation)
  }

  function Tools(perTxCap: int, perPeriodCap: int, currency: string, period: Period): Mandate {
    Mandate("m", "tools", ClassScope("tools"), currency, [Card], perTxCap, perPeriodCap, period, 0, DAY_MS, Active)
  }

  const DOLLARS: Mandate := Tools(1000, 1000, "USD", Day)

  function Invoice(id: string, payeeClass: string, amount: int, currency: string): PaymentIntent {
    PaymentIntent(id, "acme", payeeClass, amount, currency, Card, "", 0)
  }

  function Start(m: Mandate): World {
    World(EMPTY.(mandates := [m]), [], [])
  }

  /** The payment that makes the payee known. */
  const FIRST: PaymentIntent := Invoice("first", "services", 1, "EUR")

  const OPENING: seq<Step> := [Begin(FIRST, None, 0), ApproveIt("first", false, 0, Receipted("r", true))]

  const KNOWN: StoredIntent := StoredIntent(FIRST, Settled, None, [NoLiveMandate], Some(0), Some("r"), None)

  /** The world once the payee is known: one settled payment that no mandate was charged for. */
  ghost predicate Opened(m: Mandate, w: World) {
    && w.ledger.mandates == [m] && w.ledger.intents == [KNOWN] && w.flights == []
    && !w.ledger.killed && w.ledger.failures == 0
    && |w.audit| == 4
    && w.audit[0].AgentDecision? && w.audit[0].intent == FIRST && w.audit[0].verdict == Gate.UNCOVERED
    && w.audit[1].OperatorDecision? && w.audit[2].PaymentSettled? && w.audit[2].intentId == "first" && w.audit[3].PaymentVerified?
  }

  /** The settings every installation of this module shares. */
  ghost predicate IsInstallation(env: Env) {
    && env.config == GateConfig(0, 60, env.config.velocityMaxCount, 10.0) && env.config.velocityMaxCount >= 10 && env.denyRules == []
    && env.breakerThreshold == 5 && env.challengeThreshold == 1_000_000 && env.railOf == Rail
    && env.reputation == NoReputation
  }

  lemma NotCovered(env: Env, ledger: Ledger, m: Mandate)
    requires IsInstallation(env) && m.scope == ClassScope("tools") && ledger.mandates == [m]
    ensures GateVerdict(env, ledger, FIRST, None, 0) == Gate.UNCOVERED
  {
    ActiveAreStored([m], 0);
    Gate.AuthorityIsFirst(ActiveMandates([m], 0), FIRST, 0, LiveConvert(env));
    assert !Gate.Covers(m, FIRST, LiveConvert(env));
    assert Gate.Floor(FIRST, Context(env, ledger, FIRST, None, 0)) == None;
  }

  /** Nothing covers the first payment, so it waits for the operator. */
  lemma FirstIsParked(env: Env, m: Mandate) returns (w: World)
    requires IsInstallation(env) && m.scope == ClassScope("tools")
    ensures w == Next(env, Start(m), OPENING[0])
    ensures w.ledger == EMPTY.(mandates := [m], intents := [KNOWN.(status := Pending, settledAt := None, receiptId := None)])
    ensures w.flights == [] && |w.audit| == 1
    ensures w.audit[0].AgentDecision? && w.audit[0].intent == FIRST && w.audit[0].verdict == Gate.UNCOVERED
  {
    w := Next(env, Start(m), OPENING[0]);
    NotCovered(env, Start(m).ledger, m);
    hide GateVerdict, InputsOf;
    assert ChainVerdict(FIRST, [], false, 0) == NoAlert;
    assert Verdict(env, Start(m), FIRST, None, 0) == Gate.UNCOVERED;
  }

  lemma FirstIsApproved(env: Env, m: Mandate, w: World)
    requires IsInstallation(env) && m.scope == ClassScope("tools") && w.flights == []
    requires w.ledger == EMPTY.(mandates := [m], intents := [KNOWN.(status := Pending, settledAt := None, receiptId := None)])
    ensures var w' := Next(env, w, OPENING[1]);
            && w'.ledger == w.ledger.(intents := [KNOWN], receipts := w'.ledger.receipts)
            && w'.flights == []
            && |w'.audit| == |w.audit| + 3 && w'.audit[..|w.audit|] == w.audit
            && w'.audit[|w.audit|].OperatorDecision? && w'.audit[|w.audit| + 1].PaymentSettled? && w'.audit[|w.audit| + 1].intentId == "first"
            && w'.audit[|w.audit| + 2].PaymentVerified?
  {
    NotCovered(env, w.ledger, m);
    hide GateVerdict;
    assert IntentIndex(w.ledger.intents, "first") == 0;
  }

  /** After the opening, the payee is known and no budget has been touched. */
  lemma OpeningRuns(env: Env, m: Mandate)
    requires IsInstallation(env) && m.scope == ClassScope("tools")
    ensures Opened(m, Run(env, Start(m), OPENING))
  {
    var w1 := FirstIsParked(env, m);
    FirstIsApproved(env, m, w1);
    hide Next;
    assert OPENING[..1] == [OPENING[0]] && OPENING[..1][..0] == [];
    assert Run(env, Start(m), OPENING[..1][..0]) == Start(m);
    assert Run(env, Start(m), OPENING[..1]) == w1;
  }

  /** For a known payee, the gate lets through whatever the caps and the ceiling admit. */
  lemma GateAdmits(env: Env, ledger: Ledger, m: Mandate, intent: PaymentIntent)
    requires IsInstallation(env) && ledger.mandates == [m]
    requires m == Tools(m.perTxCap, m.perPeriodCap, m.currency, m.period)
    requires intent == Invoice(intent.id, "tools", intent.amount, intent.currency) && intent.amount > 0
    requires Gate.Covers(m, intent, LiveConvert(env)) && SettledCount(ledger.intents, "acme") >= 1
    requires var spend := PeriodSpend(ledger, "m", 0);
             var amount := Gate.AmountIn(m, intent, LiveConvert(env));
             && amount <= m.perTxCap && Sum(spend, Gate.SpendAmount()) + amount <= m.perPeriodCap && |spend| < env.config.velocityMaxCount
    ensures GateVerdict(env, ledger, intent, None, 0).outcome == AutoExecute
    ensures GateVerdict(env, ledger, intent, None, 0).mandateId == Some("m")
  {
    var ctx := Context(env, ledger, intent, None, 0);
    var spend := PeriodSpend(ledger, "m", 0);
    assert ActiveMandates([m], 0) == [m];
    assert Gate.Authority([m], intent, 0, LiveConvert(env)) == Some(m);
    SumBound(spend, Gate.SpentSince(Gate.WindowStart(0, env.config)), 1);
    var signals := Gate.SignalsOf(intent, ctx);
    assert signals.trust != New && signals.attestation == None && signals.reputation == None && signals.reversibility == Reversible;
    assert Risk.ClassifySpendRisk(intent.amount, spend, signals, env.config).score <= 2;
    Gate.AutoExecuteIff(intent, ctx);
  }

  /** A trail without grants, and with fewer than four refusals, worries no session detector
   *  about a payment under a daily mandate. */
  lemma {:induction false} NothingDrained(scanned: seq<Event>, entries: seq<Event>, now: Instant)
    requires forall e :: e in entries ==> !e.MandateGranted?
    ensures !AnyDrain(scanned, entries, now)
  {
    forall i | 0 <= i < |scanned|
      ensures !IsDrain(scanned[i], entries, now)
    {
      if InWindow(scanned[i], now) && Given(scanned[i].verdict.mandateId) {
        NeverGranted(entries, scanned[i].verdict.mandateId.value, scanned[i].ts);
      }
    }
  }

  lemma {:induction false} NeverGranted(entries: seq<Event>, mandateId: string, before: Instant)
    requires forall e :: e in entries ==> !e.MandateGranted?
    ensures LatestGrant(entries, mandateId, before) == None
  {
    if entries != [] {
      NeverGranted(entries[..|entries| - 1], mandateId, before);
    }
  }

  function Refusal(): Event -> int {
    (e: Event) => if e.AgentDecision? && e.verdict.outcome != AutoExecute then 1 else 0
  }

  lemma {:induction false} FewRefused(entries: seq<Event>, now: Instant)
    ensures |Refused(entries, now)| <= Sum(entries, Refusal())
  {
    if entries != [] {
      FewRefused(entries[..|entries| - 1], now);
    }
  }

  function RanUnattended(): Event -> int {
    (e: Event) => if e.AgentDecision? && e.verdict.outcome == AutoExecute then 1 else 0
  }

  lemma {:induction false} FewRecent(entries: seq<Event>, payee: string, now: Instant)
    ensures |RecentAuto(entries, payee, now)| <= Sum(entries, RanUnattended())
  {
    if entries != [] {
      FewRecent(entries[..|entries| - 1], payee, now);
    }
  }

  /** What keeps the session detectors quiet: no grant, few refusals, and either a daily
   *  mandate or few unattended payments. */
  ghost predicate CalmTrail(audit: seq<Event>, streaming: bool) {
    && (forall e :: e in audit ==> !e.MandateGranted?)
    && Sum(audit, Refusal()) <= 3
    && (streaming || Sum(audit, RanUnattended()) <= 1)
  }

  lemma CalmIsQuiet(intent: PaymentIntent, audit: seq<Event>, streaming: bool, now: Instant)
    requires CalmTrail(audit, streaming)
    ensures ChainVerdict(intent, audit, streaming, now) == NoAlert
  {
    FewRefused(audit, now);
    FewRecent(audit, intent.payee, now);
    NothingDrained(audit, audit, now);
  }

  lemma OpenedIsCalm(m: Mandate, w: World, streaming: bool)
    requires Opened(m, w)
    ensures CalmTrail(w.audit, streaming) && Sum(w.audit, Refusal()) == 1 && Sum(w.audit, RanUnattended()) == 0
  {
    var a := w.audit;
    assert a == [] + [a[0]] + [a[1]] + [a[2]] + [a[3]];
    SumAppend([] + [a[0]] + [a[1]] + [a[2]], a[3], Refusal());
    SumAppend([] + [a[0]] + [a[1]], a[2], Refusal());
    SumAppend([] + [a[0]], a[1], Refusal());
    SumAppend([], a[0], Refusal());
    SumAppend([] + [a[0]] + [a[1]] + [a[2]], a[3], RanUnattended());
    SumAppend([] + [a[0]] + [a[1]], a[2], RanUnattended());
    SumAppend([] + [a[0]], a[1], RanUnattended());
    SumAppend([], a[0], RanUnattended());
  }

  lemma RunSnoc(env: Env, start: World, before: seq<Step>, step: Step)
    ensures Run(env, start, before + [step]) == Next(env, Run(env, start, before), step)
  {
    hide Next;
    assert (before + [step])[..|before|] == before;
  }

  lemma OpeningIsFresh(env: Env, m: Mandate)
    requires IsInstallation(env) && m.scope == ClassScope("tools")
    ensures IsFresh(Start(m)) && FreshIds(env, Start(m), OPENING)
  {
    assert OPENING[..0] == [];
    assert Run(env, Start(m), OPENING[..0]) == Start(m);
    hide Run, Next;
    assert !IdInUse(Start(m), "first");
  }
}
