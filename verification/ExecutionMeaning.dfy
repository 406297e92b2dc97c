/** What `execute` does, branch by branch, and when a payment launches, in terms of the entries,
 *  the mandates and the trail alone (src/core/executor.ts:195-403). */
module ExecutionMeaning {
  import opened Prelude
  import opened Types
  import opened Store
  import opened Trail
  import opened Executor
  import opened ApprovalMeaning
  import RiskChain
  import RiskChainMeaning

  // --- the verdict ---

  /** The verdict's mandate, the first stored under its id, has a daily period. */
  predicate Streams(mandates: seq<Mandate>, id: Option<string>) {
    && id.Some? && id.value != ""
    && exists i :: && 0 <= i < |mandates| && mandates[i].id == id.value && mandates[i].period == Day
                   && forall j :: 0 <= j < i ==> mandates[j].id != id.value
  }

  predicate AlertDue(env: Env, w: World, intent: PaymentIntent, attestation: Option<Attestation>, now: Instant) {
    RiskChainMeaning.AnyDue(intent, w.audit, Streams(w.ledger.mandates, GateVerdict(env, w.ledger, intent, attestation, now).mandateId), now)
  }

  lemma StreamingMeans(mandates: seq<Mandate>, verdict: GateDecision)
    ensures IsStreaming(mandates, verdict) <==> Streams(mandates, verdict.mandateId)
  {
  }

  /** The gate's verdict stands unless an alert is due; an alert adds its reason, turns an
   *  unattended verdict into one for the operator, and changes nothing else. */
  lemma VerdictMeans(env: Env, w: World, intent: PaymentIntent, attestation: Option<Attestation>, now: Instant)
    ensures var gate := GateVerdict(env, w.ledger, intent, attestation, now);
            var verdict := Verdict(env, w, intent, attestation, now);
            var due := AlertDue(env, w, intent, attestation, now);
            var alert := RiskChain.ChainVerdict(intent, w.audit, Streams(w.ledger.mandates, gate.mandateId), now);
            && (due <==> alert != NoAlert)
            && (!due ==> verdict == gate)
            && (due ==> verdict == GateDecision(if gate.outcome == Block then Block else ConfirmOperator,
                                        gate.reasons + [ChainReason(alert)], gate.mandateId, gate.risk, gate.remaining))
  {
    var gate := GateVerdict(env, w.ledger, intent, attestation, now);
    StreamingMeans(w.ledger.mandates, gate);
    RiskChainMeaning.AlertsMean(intent, w.audit, Streams(w.ledger.mandates, gate.mandateId), now);
    hide GateVerdict, RiskChain.ChainVerdict, Streams, IsStreaming, RiskChainMeaning.AnyDue;
  }

  /** A payment runs unattended if and only if the gate lets it and no alert is due. */
  lemma UnattendedIff(env: Env, w: World, intent: PaymentIntent, attestation: Option<Attestation>, now: Instant)
    ensures Verdict(env, w, intent, attestation, now).outcome == AutoExecute <==>
              GateVerdict(env, w.ledger, intent, attestation, now).outcome == AutoExecute && !AlertDue(env, w, intent, attestation, now)
  {
    VerdictMeans(env, w, intent, attestation, now);
    hide Verdict, GateVerdict, AlertDue;
  }

  // --- beginning ---

  predicate IsTaken(intents: seq<StoredIntent>, id: string) {
    exists i :: 0 <= i < |intents| && intents[i].intent.id == id
  }

  lemma TakenMeans(intents: seq<StoredIntent>, id: string)
    ensures IsTaken(intents, id) <==> HasIntent(intents, id)
  {
  }

  /** The ledger with one more entry and a count of bad outcomes, or the same one if the entry's
   *  id is taken. */
  function WithEntry(ledger: Ledger, s: StoredIntent, failures: int): Ledger {
    if IsTaken(ledger.intents, s.intent.id) then ledger
    else Ledger(ledger.mandates, ledger.intents + [s], ledger.receipts, ledger.killed, failures)
  }

  function Unpaid(intent: PaymentIntent, status: IntentStatus, mandateId: Option<string>, reasons: seq<Reason>): StoredIntent {
    StoredIntent(intent, status, mandateId, reasons, None, None, None)
  }

  /** Under a halt the intent is filed as blocked, with the halt for its reason: the kill switch
   *  before the breaker. The gate is not asked, and the count stays. */
  lemma HaltMeans(env: Env, w: World, intent: PaymentIntent, attestation: Option<Attestation>, now: Instant)
    ensures Halted(env, w.ledger) <==> HaltReason(env, w.ledger).Some?
    ensures Halted(env, w.ledger) ==>
              var halt := if w.ledger.killed then KillSwitch else CircuitBreaker;
              BeginExecute(env, w, intent, attestation, now)
              == World(WithEntry(w.ledger, Unpaid(intent, Blocked, None, [HaltedBy(halt)]), w.ledger.failures),
                       w.audit + [PaymentHalted(now, intent.id, AgentPhase)], w.flights)
  {
    TakenMeans(w.ledger.intents, intent.id);
    hide Verdict, IsTaken, HasIntent;
  }

  /** Without a halt the decision is recorded with its verdict; a block is filed and counted, a
   *  doubt is filed as pending, and anything else is in flight. */
  lemma BeginMeans(env: Env, w: World, intent: PaymentIntent, attestation: Option<Attestation>, now: Instant)
    requires !Halted(env, w.ledger)
    ensures var verdict := Verdict(env, w, intent, attestation, now);
            var w' := BeginExecute(env, w, intent, attestation, now);
            && |w'.audit| == |w.audit| + 1 && w'.audit[..|w.audit|] == w.audit
            && w'.audit[|w.audit|].AgentDecision? && w'.audit[|w.audit|].ts == now
            && w'.audit[|w.audit|].intent == intent && w'.audit[|w.audit|].verdict == verdict
            && (w'.ledger, w'.flights) ==
               match verdict.outcome {
                 case Block =>
                   (WithEntry(w.ledger, Unpaid(intent, Blocked, verdict.mandateId, verdict.reasons), w.ledger.failures + 1), w.flights)
                 case ConfirmOperator =>
                   (WithEntry(w.ledger, Unpaid(intent, Pending, verdict.mandateId, verdict.reasons), w.ledger.failures), w.flights)
                 case AutoExecute => (w.ledger, w.flights + [Flight(intent, now, verdict)])
               }
  {
    TakenMeans(w.ledger.intents, intent.id);
    hide Verdict, InputsOf, IsTaken, HasIntent;
  }

  // --- finishing ---

  /** Once the rail answers: the payment is recorded and read back, its receipt kept, and its
   *  entry filed as settled with the count cleared; or the failure is recorded, if there was a
   *  rail to fail, and the entry filed as failed and counted. The receipt is kept even when the
   *  id is taken. */
  lemma FinishMeans(env: Env, w: World, i: nat, answer: RailAnswer)
    requires i < |w.flights|
    ensures var f := w.flights[i];
            var p := f.intent;
            var w' := FinishExecute(env, w, i, answer);
            && w'.flights == w.flights[..i] + w.flights[i + 1..]
            && match (env.railOf(p.rail), answer) {
                 case (None, _) =>
                   && w'.audit == w.audit
                   && w'.ledger == WithEntry(w.ledger, Unpaid(p, Failed, f.verdict.mandateId, [RailError("no provider registered")]),
                                             w.ledger.failures + 1)
                 case (Some(_), Declined(error)) =>
                   && w'.audit == w.audit + [PaymentFailed(f.now, p.id, error)]
                   && w'.ledger == WithEntry(w.ledger, Unpaid(p, Failed, f.verdict.mandateId, [RailError(error)]), w.ledger.failures + 1)
                 case (Some(provider), Receipted(rid, ok)) =>
                   var receipt := Receipt(rid, p.id, p.rail, p.amount, p.currency, f.now, Some(provider.id));
                   && w'.audit == w.audit + [PaymentSettled(f.now, p.id, rid, p.amount, p.currency, p.rail),
                                           PaymentVerified(f.now, p.id, rid, ok)]
                   && w'.ledger == WithEntry(w.ledger.(receipts := w.ledger.receipts[rid := receipt]),
                                             StoredIntent(p, Settled, f.verdict.mandateId, f.verdict.reasons, Some(f.now), Some(rid), None), 0)
               }
  {
    TakenMeans(w.ledger.intents, w.flights[i].intent.id);
    hide IsTaken, HasIntent;
    assert w.audit + [] == w.audit;
  }
}
