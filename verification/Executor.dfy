/** The executor: the only path from an intent to a rail (src/core/executor.ts).
 *
 *  `execute` hands control away while the rail settles, so it is two steps here:
 *  `BeginExecute` judges the intent and records the decision in one go, `FinishExecute`
 *  writes the rail's answer to the ledger. Several intents may be in between. */
module Executor {
  import opened Prelude
  import opened Types
  import opened Store
  import opened Trail
  import opened Fx
  import opened Enforcement
  import opened RiskChain
  import Gate

  datatype Provider = Provider(id: string, reversibility: Reversibility, refunds: bool)

  datatype Env = Env(
    config: GateConfig,
    denyRules: seq<DenyRule>,
    breakerThreshold: int,
    challengeThreshold: int,
    railOf: RailKind -> Option<Provider>,
    providerById: string -> Option<Provider>,
    fx: Option<RateSource>,
    tokenDecimals: Option<map<string, int>>,
    reputation: string -> Option<Reputation>)

  /** A payment authorized to run unattended whose rail has not answered yet. */
  datatype Flight = Flight(intent: PaymentIntent, now: Instant, verdict: GateDecision)

  datatype World = World(ledger: Ledger, audit: seq<Event>, flights: seq<Flight>)

  /** What a rail answers: a receipt, with the result of reading it back, or an error. */
  datatype RailAnswer = Receipted(receiptId: string, verified: bool) | Declined(error: string)

  // --- the decision ---

  function LiveConvert(env: Env): Option<Converter> {
    match env.fx
    case None => None
    case Some(rate) =>
      Some((amount: int, from: string, to: string) =>
        match rate(from, to) {
          case None => None
          case Some(r) => Some(ConvertMinorCrossDecimal(amount, r, from, to, env.tokenDecimals))
        })
  }

  function ProviderReversibility(env: Env, rail: RailKind): Option<Reversibility> {
    match env.railOf(rail)
    case None => None
    case Some(p) => Some(p.reversibility)
  }

  function Context(env: Env, ledger: Ledger, intent: PaymentIntent, attestation: Option<Attestation>, now: Instant): GateContext {
    var reputation := env.reputation(intent.payee);
    GateContext(
      now,
      ActiveMandates(ledger.mandates, now),
      (id: string) => PeriodSpend(ledger, id, now),
      KnownPayees(ledger.intents),
      Some((payee: string) => PayeeTrust(SettledCount(ledger.intents, payee))),
      LiveConvert(env),
      attestation,
      if reputation.Some? then Some((payee: string) => reputation) else None,
      env.denyRules,
      env.config,
      ProviderReversibility(env, intent.rail))
  }

  /** Payments under a daily mandate stream, and skip the per-payee detectors. */
  predicate IsStreaming(mandates: seq<Mandate>, verdict: GateDecision) {
    && Given(verdict.mandateId)
    && var m := GetMandate(mandates, verdict.mandateId.value);
       m.Some? && m.value.period == Day
  }

  /** An alert turns an unattended payment into one the operator must confirm. */
  function Escalated(verdict: GateDecision, alert: ChainAlert): GateDecision {
    if alert == NoAlert then verdict
    else
      verdict.(outcome := if verdict.outcome == AutoExecute then ConfirmOperator else verdict.outcome,
               reasons := verdict.reasons + [ChainReason(alert)])
  }

  function GateVerdict(env: Env, ledger: Ledger, intent: PaymentIntent, attestation: Option<Attestation>, now: Instant): GateDecision {
    Gate.Decide(intent, Context(env, ledger, intent, attestation, now))
  }

  /** The gate's verdict after the session detectors have had their say. */
  function Verdict(env: Env, w: World, intent: PaymentIntent, attestation: Option<Attestation>, now: Instant): GateDecision {
    var verdict := GateVerdict(env, w.ledger, intent, attestation, now);
    Escalated(verdict, ChainVerdict(intent, w.audit, IsStreaming(w.ledger.mandates, verdict), now))
  }

  function RatesInto(env: Env, active: seq<Mandate>, currency: string): map<string, real> {
    if active == [] || env.fx.None? then map[]
    else
      var n := |active| - 1;
      var rates := RatesInto(env, active[..n], currency);
      var to := active[n].currency;
      if to == currency then rates
      else
        match env.fx.value(currency, to)
        case None => rates
        case Some(rate) => rates[RateKey(currency, to) := rate]
  }

  function InputsOf(env: Env, ledger: Ledger, intent: PaymentIntent, attestation: Option<Attestation>, now: Instant): ReplayInputs {
    var active := ActiveMandates(ledger.mandates, now);
    var rates := RatesInto(env, active, intent.currency);
    ReplayInputs(
      ProviderReversibility(env, intent.rail).GetOr(RailReversibility(intent.rail)),
      attestation,
      env.reputation(intent.payee),
      PayeeTrust(SettledCount(ledger.intents, intent.payee)),
      KnownPayees(ledger.intents),
      map id | id in (set m | m in active :: m.id) :: PeriodSpend(ledger, id, now),
      if rates == map[] then None else Some(rates))
  }

  function DecisionEvent(env: Env, w: World, intent: PaymentIntent, attestation: Option<Attestation>, now: Instant): Event {
    AgentDecision(now, intent, Verdict(env, w, intent, attestation, now),
                  InputsOf(env, w.ledger, intent, attestation, now),
                  PolicyOf(w.ledger.mandates, env.config))
  }

  // --- the steps, as functions of the world ---

  function HaltReason(env: Env, ledger: Ledger): Option<Halt> {
    if ledger.killed then Some(KillSwitch)
    else if ledger.failures >= env.breakerThreshold then Some(CircuitBreaker)
    else None
  }

  /** Insert an intent and count its outcome. A taken id makes the insertion throw,
   *  after which nothing else runs. */
  function Filed(ledger: Ledger, s: StoredIntent, failures: int): Ledger {
    if HasIntent(ledger.intents, s.intent.id) then ledger
    else ledger.(intents := ledger.intents + [s], failures := failures)
  }

  function BeginExecute(env: Env, w: World, intent: PaymentIntent, attestation: Option<Attestation>, now: Instant): World {
    match HaltReason(env, w.ledger)
    case Some(halt) =>
      var s := StoredIntent(intent, Blocked, None, [HaltedBy(halt)], None, None, None);
      w.(audit := w.audit + [PaymentHalted(now, intent.id, AgentPhase)],
         ledger := Filed(w.ledger, s, w.ledger.failures))
    case None =>
      var verdict := Verdict(env, w, intent, attestation, now);
      var recorded := w.(audit := w.audit + [DecisionEvent(env, w, intent, attestation, now)]);
      match verdict.outcome
      case Block =>
        var s := StoredIntent(intent, Blocked, verdict.mandateId, verdict.reasons, None, None, None);
        recorded.(ledger := Filed(w.ledger, s, w.ledger.failures + 1))
      case ConfirmOperator =>
        var s := StoredIntent(intent, Pending, verdict.mandateId, verdict.reasons, None, None, None);
        recorded.(ledger := Filed(w.ledger, s, w.ledger.failures))
      case AutoExecute =>
        recorded.(flights := w.flights + [Flight(intent, now, verdict)])
  }

  datatype Settlement =
    | Moved(receipt: Receipt, events: seq<Event>)
    | NotMoved(error: string, events: seq<Event>)

  /** Move the money of an authorized intent. A rail without a provider is an error that
   *  leaves no event. */
  function Settle(env: Env, intent: PaymentIntent, now: Instant, answer: RailAnswer): Settlement {
    match env.railOf(intent.rail)
    case None => NotMoved("no provider registered", [])
    case Some(p) =>
      match answer
      case Declined(error) => NotMoved(error, [PaymentFailed(now, intent.id, error)])
      case Receipted(rid, verified) =>
        Moved(Receipt(rid, intent.id, intent.rail, intent.amount, intent.currency, now, Some(p.id)),
              [PaymentSettled(now, intent.id, rid, intent.amount, intent.currency, intent.rail),
               PaymentVerified(now, intent.id, rid, verified)])
  }

  function FinishExecute(env: Env, w: World, i: nat, answer: RailAnswer): World
    requires i < |w.flights|
  {
    var f := w.flights[i];
    var landed := w.(flights := w.flights[..i] + w.flights[i + 1..]);
    match Settle(env, f.intent, f.now, answer)
    case NotMoved(error, events) =>
      var s := StoredIntent(f.intent, Failed, f.verdict.mandateId, [RailError(error)], None, None, None);
      landed.(audit := w.audit + events, ledger := Filed(w.ledger, s, w.ledger.failures + 1))
    case Moved(receipt, events) =>
      var s := StoredIntent(f.intent, Settled, f.verdict.mandateId, f.verdict.reasons, Some(receipt.settledAt), Some(receipt.id), None);
      landed.(audit := w.audit + events,
              ledger := Filed(w.ledger.(receipts := w.ledger.receipts[receipt.id := receipt]), s, 0))
  }

  const NO_UPDATE: IntentUpdate := IntentUpdate(None, None, None, None, None)

  function Changed(ledger: Ledger, i: nat, update: IntentUpdate): Ledger
    requires i < |ledger.intents|
  {
    ledger.(intents := ledger.intents[i := Updated(ledger.intents[i], update)])
  }

  predicate RequiresChallenge(env: Env, intent: PaymentIntent, verdict: GateDecision) {
    || verdict.risk.tier == High
    || ProviderReversibility(env, intent.rail).GetOr(RailReversibility(intent.rail)) == Irreversible
    || intent.amount >= env.challengeThreshold
  }

  /** Settle an intent the operator let through, and update its entry. */
  function PayOut(env: Env, w: World, i: nat, now: Instant, answer: RailAnswer): World
    requires i < |w.ledger.intents|
  {
    match Settle(env, w.ledger.intents[i].intent, now, answer)
    case NotMoved(error, events) =>
      w.(audit := w.audit + events,
         ledger := Changed(w.ledger, i, NO_UPDATE.(status := Some(Failed), reasons := Some([RailError(error)])))
                   .(failures := w.ledger.failures + 1))
    case Moved(receipt, events) =>
      w.(audit := w.audit + events,
         ledger := Changed(w.ledger, i, NO_UPDATE.(status := Some(Settled), settledAt := Some(receipt.settledAt), receiptId := Some(receipt.id)))
                   .(failures := 0, receipts := w.ledger.receipts[receipt.id := receipt]))
  }

  /** The operator authorizes a pending intent; the gate is run again on the present
   *  state, and only a block cannot be overridden. Anything but a pending intent throws. */
  function Approve(env: Env, w: World, id: string, acknowledged: bool, now: Instant, answer: RailAnswer): World {
    var i := IntentIndex(w.ledger.intents, id);
    if i < 0 || w.ledger.intents[i].status != Pending then w
    else if HaltReason(env, w.ledger).Some? then
      w.(audit := w.audit + [PaymentHalted(now, id, OperatorPhase)])
    else
      var intent := w.ledger.intents[i].intent;
      var verdict := GateVerdict(env, w.ledger, intent, None, now);
      var audit := w.audit + [OperatorDecision(now, id, verdict.outcome, verdict.reasons, verdict.mandateId, acknowledged)];
      var ledger := w.ledger;
      if verdict.outcome == Block then
        w.(audit := audit,
           ledger := Changed(ledger, i, NO_UPDATE.(status := Some(Blocked), reasons := Some(verdict.reasons)))
                     .(failures := ledger.failures + 1))
      else if RequiresChallenge(env, intent, verdict) && !acknowledged then
        w.(audit := audit)
      else
        PayOut(env, w.(audit := audit), i, now, answer)
  }

  /** The provider a refund goes back to: the issuer of the receipt, else the rail's. */
  function RefundProvider(env: Env, receipt: Receipt, rail: RailKind): Option<Provider> {
    var issuer := if Given(receipt.providerId) then env.providerById(receipt.providerId.value) else None;
    if issuer.Some? then issuer else env.railOf(rail)
  }

  /** The refund that would be sent for a request, if it is allowed. */
  function RefundAmount(env: Env, ledger: Ledger, id: string, requested: Option<int>): Option<int> {
    var i := IntentIndex(ledger.intents, id);
    if i < 0 then None
    else
      var s := ledger.intents[i];
      if s.status != Settled || !Given(s.receiptId) || s.receiptId.value !in ledger.receipts then None
      else
        match RefundProvider(env, ledger.receipts[s.receiptId.value], s.intent.rail)
        case None => None
        case Some(p) =>
          var already := s.refundedMinor.GetOr(0);
          var amount := requested.GetOr(s.intent.amount - already);
          if p.reversibility != Reversible || !p.refunds then None
          else if amount <= 0 || already + amount > s.intent.amount then None
          else Some(amount)
  }

  /** `sent` is false when the provider's own refund call throws. */
  function Refund(env: Env, w: World, id: string, requested: Option<int>, now: Instant, sent: bool): World {
    match RefundAmount(env, w.ledger, id, requested)
    case None => w
    case Some(amount) =>
      if !sent then w
      else
        var i := IntentIndex(w.ledger.intents, id);
        var already := w.ledger.intents[i].refundedMinor.GetOr(0);
        w.(ledger := Changed(w.ledger, i, NO_UPDATE.(refundedMinor := Some(already + amount))),
           audit := w.audit + [PaymentRefunded(now, id, amount)])
  }

  // --- the operator's calls in two halves ---

  /** What a call has in hand while it waits for a provider. */
  datatype Ask =
    | Paying(id: string, intent: PaymentIntent, now: Instant)
    | Refunding(id: string, already: int, amount: int, now: Instant)

  /** The part of `approve` before it waits for the rail. */
  function CheckApproval(env: Env, w: World, id: string, acknowledged: bool, now: Instant): (World, Option<Ask>) {
    var i := IntentIndex(w.ledger.intents, id);
    if i < 0 || w.ledger.intents[i].status != Pending then (w, None)
    else if HaltReason(env, w.ledger).Some? then
      (w.(audit := w.audit + [PaymentHalted(now, id, OperatorPhase)]), None)
    else
      var intent := w.ledger.intents[i].intent;
      var verdict := GateVerdict(env, w.ledger, intent, None, now);
      var audit := w.audit + [OperatorDecision(now, id, verdict.outcome, verdict.reasons, verdict.mandateId, acknowledged)];
      if verdict.outcome == Block then
        (w.(audit := audit,
            ledger := Changed(w.ledger, i, NO_UPDATE.(status := Some(Blocked), reasons := Some(verdict.reasons)))
                      .(failures := w.ledger.failures + 1)), None)
      else if RequiresChallenge(env, intent, verdict) && !acknowledged then
        (w.(audit := audit), None)
      else
        (w.(audit := audit), Some(Paying(id, intent, now)))
  }

  /** The rest, on whatever the ledger holds by then: the status is not looked at again. */
  function LandPayment(env: Env, w: World, a: Ask, answer: RailAnswer): World
    requires a.Paying?
  {
    var i := IntentIndex(w.ledger.intents, a.id);
    match Settle(env, a.intent, a.now, answer)
    case NotMoved(error, events) =>
      var paid := w.(audit := w.audit + events);
      if i < 0 then paid
      else
        paid.(ledger := Changed(w.ledger, i, NO_UPDATE.(status := Some(Failed), reasons := Some([RailError(error)])))
                        .(failures := w.ledger.failures + 1))
    case Moved(receipt, events) =>
      var stored := w.ledger.(receipts := w.ledger.receipts[receipt.id := receipt]);
      var paid := w.(audit := w.audit + events, ledger := stored);
      if i < 0 then paid
      else
        paid.(ledger := Changed(stored, i, NO_UPDATE.(status := Some(Settled), settledAt := Some(receipt.settledAt), receiptId := Some(receipt.id)))
                        .(failures := 0))
  }

  /** The part of `refund` before it waits for the provider: it remembers what was refunded. */
  function CheckRefund(env: Env, ledger: Ledger, id: string, requested: Option<int>, now: Instant): Option<Ask> {
    match RefundAmount(env, ledger, id, requested)
    case None => None
    case Some(amount) => Some(Refunding(id, ledger.intents[IntentIndex(ledger.intents, id)].refundedMinor.GetOr(0), amount, now))
  }

  /** The rest: the remembered sum and the refund are written over what the entry says by then. */
  function LandRefund(w: World, a: Ask, sent: bool): World
    requires a.Refunding?
  {
    var i := IntentIndex(w.ledger.intents, a.id);
    if !sent || i < 0 then w
    else
      w.(ledger := Changed(w.ledger, i, NO_UPDATE.(refundedMinor := Some(a.already + a.amount))),
         audit := w.audit + [PaymentRefunded(a.now, a.id, a.amount)])
  }

  /** With nothing in between, the two halves are the one step. */
  lemma ApproveIsBothHalves(env: Env, w: World, id: string, acknowledged: bool, now: Instant, answer: RailAnswer)
    ensures var (checked, ask) := CheckApproval(env, w, id, acknowledged, now);
            (ask.Some? ==> ask.value.Paying?)
            && Approve(env, w, id, acknowledged, now, answer)
               == if ask.None? then checked else LandPayment(env, checked, ask.value, answer)
  {
    hide GateVerdict, RequiresChallenge;
  }

  lemma RefundIsBothHalves(env: Env, w: World, id: string, requested: Option<int>, now: Instant, sent: bool)
    ensures var ask := CheckRefund(env, w.ledger, id, requested, now);
            (ask.Some? ==> ask.value.Refunding?)
            && Refund(env, w, id, requested, now, sent) == if ask.None? then w else LandRefund(w, ask.value, sent)
  {
  }

  /** A taken mandate id throws before anything is recorded. */
  function Grant(w: World, m: Mandate, now: Instant): World {
    if MandateIndex(w.ledger.mandates, m.id) >= 0 then w
    else w.(ledger := w.ledger.(mandates := w.ledger.mandates + [m]), audit := w.audit + [MandateGranted(now, m.id)])
  }

  function Amend(w: World, id: string, patch: MandatePatch, now: Instant): World {
    w.(ledger := w.ledger.(mandates := PatchMandate(w.ledger.mandates, id, patch)),
       audit := w.audit + [MandateAmended(now, id)])
  }

  function Revoke(w: World, id: string, now: Instant): World {
    w.(ledger := w.ledger.(mandates := PatchMandate(w.ledger.mandates, id, REVOKE)),
       audit := w.audit + [MandateRevoked(now, id)])
  }

  // --- runs ---

  datatype Step =
    | Begin(intent: PaymentIntent, attestation: Option<Attestation>, now: Instant)
    | Finish(flight: nat, answer: RailAnswer)
    | ApproveIt(id: string, acknowledged: bool, now: Instant, answer: RailAnswer)
    | RefundIt(id: string, requested: Option<int>, now: Instant, sent: bool)
    | GrantIt(mandate: Mandate, now: Instant)
    | AmendIt(id: string, patch: MandatePatch, now: Instant)
    | RevokeIt(id: string, now: Instant)
    | SetKillSwitch(on: bool)
    | ResetBreaker

  function Next(env: Env, w: World, step: Step): World {
    match step
    case Begin(intent, attestation, now) => BeginExecute(env, w, intent, attestation, now)
    case Finish(i, answer) => if i < |w.flights| then FinishExecute(env, w, i, answer) else w
    case ApproveIt(id, acknowledged, now, answer) => Approve(env, w, id, acknowledged, now, answer)
    case RefundIt(id, requested, now, sent) => Refund(env, w, id, requested, now, sent)
    case GrantIt(m, now) => Grant(w, m, now)
    case AmendIt(id, patch, now) => Amend(w, id, patch, now)
    case RevokeIt(id, now) => Revoke(w, id, now)
    case SetKillSwitch(on) => w.(ledger := w.ledger.(killed := on))
    case ResetBreaker => w.(ledger := w.ledger.(failures := 0))
  }

  /** The world after a sequence of steps. */
  function Run(env: Env, start: World, steps: seq<Step>): World {
    if steps == [] then start
    else Next(env, Run(env, start, steps[..|steps| - 1]), steps[|steps| - 1])
  }

  /** A fresh installation: nothing paid, nothing recorded; mandates may be in place. */
  predicate IsFresh(w: World) {
    && w.ledger.intents == [] && w.audit == [] && w.flights == []
    && DistinctMandates(w.ledger.mandates)
  }

  predicate IdInUse(w: World, id: string) {
    HasIntent(w.ledger.intents, id) || exists i :: 0 <= i < |w.flights| && w.flights[i].intent.id == id
  }

  /** A step may start; execution needs an id nobody has used. */
  predicate FreshStep(w: World, step: Step) {
    step.Begin? ==> !IdInUse(w, step.intent.id)
  }

  ghost predicate FreshIds(env: Env, start: World, steps: seq<Step>) {
    forall n {:trigger steps[n]} :: 0 <= n < |steps| ==> FreshStep(Run(env, start, steps[..n]), steps[n])
  }

  lemma RunPrefix(steps: seq<Step>, n: nat, k: nat)
    requires n <= k <= |steps|
    ensures steps[..k][..n] == steps[..n]
  {
  }

  lemma FreshPrefix(env: Env, start: World, steps: seq<Step>)
    requires steps != [] && FreshIds(env, start, steps)
    ensures FreshIds(env, start, steps[..|steps| - 1])
    ensures FreshStep(Run(env, start, steps[..|steps| - 1]), steps[|steps| - 1])
  {
    hide Next;
    var k := |steps| - 1;
    forall n | 0 <= n < k
      ensures FreshStep(Run(env, start, steps[..k][..n]), steps[..k][n])
    {
      RunPrefix(steps, n, k);
      assert steps[..k][n] == steps[n];
    }
    assert FreshStep(Run(env, start, steps[..k]), steps[k]);
  }
}
