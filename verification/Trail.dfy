/** The events the executor appends to its audit list (src/core/executor.ts).
 *
 *  Hashing and signing are the subject of AuditLog; here an entry is its meaning. The
 *  policy hash stamped on a decision is the policy it commits to. */
module Trail {
  import opened Prelude
  import opened Types

  /** The inputs captured with an agent-phase decision (src/core/enforcement.ts). */
  datatype ReplayInputs = ReplayInputs(
    reversibility: Reversibility,
    attestation: Option<Attestation>,
    reputation: Option<Reputation>,
    trust: TrustLevel,
    knownPayees: set<string>,
    periodSpendByMandate: map<string, seq<PriorSpend>>,
    fxRates: Option<map<string, real>>)

  /** The disclosed policy: all mandates, sorted by id, and the gate configuration. */
  datatype EffectivePolicy = EffectivePolicy(mandates: seq<Mandate>, config: GateConfig)

  datatype Phase = AgentPhase | OperatorPhase

  datatype Event =
    | MandateGranted(ts: Instant, mandateId: string)
    | MandateRevoked(ts: Instant, mandateId: string)
    | MandateAmended(ts: Instant, mandateId: string)
    | AgentDecision(ts: Instant, intent: PaymentIntent, verdict: GateDecision, inputs: ReplayInputs, policy: EffectivePolicy)
    | OperatorDecision(ts: Instant, intentId: string, outcome: Outcome, reasons: seq<Reason>, authority: Option<string>, acknowledged: bool)
    | PaymentSettled(ts: Instant, intentId: string, receiptId: string, amount: int, currency: string, rail: RailKind)
    | PaymentVerified(ts: Instant, intentId: string, receiptId: string, ok: bool)
    | PaymentFailed(ts: Instant, intentId: string, error: string)
    | PaymentRefunded(ts: Instant, intentId: string, amount: int)
    | PaymentHalted(ts: Instant, intentId: string, phase: Phase)
}
