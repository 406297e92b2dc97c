/** The domain types of the trust kernel (src/core/types.ts, src/core/trust.ts).
 *
 *  Money is an integer count of minor units; an instant is a count of milliseconds
 *  since the epoch. Reason texts are tags: only what another component reads is kept. */
module Types {
  import opened Prelude

  type Instant = int

  const MINUTE: int := 60_000

  datatype RailKind = Onchain | Card | Checkout

  datatype Reversibility = Reversible | Irreversible

  function RailReversibility(rail: RailKind): Reversibility {
    match rail
    case Card => Reversible
    case Checkout => Reversible
    case Onchain => Irreversible
  }

  datatype PayeeScope = ClassScope(value: string) | Allowlist(values: seq<string>)

  datatype Period = Day | Week | Month

  datatype MandateStatus = Active | Revoked

  datatype Mandate = Mandate(
    id: string,
    name: string,
    scope: PayeeScope,
    currency: string,
    allowedRails: seq<RailKind>,
    perTxCap: int,
    perPeriodCap: int,
    period: Period,
    grantedAt: Instant,
    expiresAt: Instant,
    status: MandateStatus)

  datatype PaymentIntent = PaymentIntent(
    id: string,
    payee: string,
    payeeClass: string,
    amount: int,
    currency: string,
    rail: RailKind,
    rationale: string,
    createdAt: Instant)

  datatype Attestation = Unattested | Signed | RegistryAttested

  datatype Reputation = Good | Neutral | Flagged | Unknown

  datatype TrustLevel = New | Seen | Trusted

  const TRUSTED_AT: int := 3

  function PayeeTrust(settledCount: int): TrustLevel {
    if settledCount >= TRUSTED_AT then Trusted
    else if settledCount >= 1 then Seen
    else New
  }

  /** The program takes an empty id for a missing one. */
  predicate Given(id: Option<string>) {
    id.Some? && id.value != ""
  }

  datatype RiskTier = NoRisk | Low | Medium | High

  datatype SpendRisk = SpendRisk(tier: RiskTier, score: int)

  const NO_RISK: SpendRisk := SpendRisk(NoRisk, 0)

  datatype ChainAlert = NoAlert | Smurfing | Splitting | Probing | DrainAfterGrant

  datatype Halt = KillSwitch | CircuitBreaker

  datatype Reason =
    | BadAmount
    | ShortRationale
    | DenyListed(rule: string)
    | NoLiveMandate
    | OverTransactionCap
    | OverPeriodCap
    | NewPayee
    | VelocityCeiling(count: int)
    | ElevatedRisk
    | WithinMandate
    | ChainReason(alert: ChainAlert)
    | HaltedBy(halt: Halt)
    | RailError(error: string)

  datatype Outcome = AutoExecute | ConfirmOperator | Block

  datatype GateDecision = GateDecision(
    outcome: Outcome,
    reasons: seq<Reason>,
    mandateId: Option<string>,
    risk: SpendRisk,
    remaining: Option<int>)

  datatype GateConfig = GateConfig(
    minRationaleChars: int,
    velocityWindowMinutes: int,
    velocityMaxCount: int,
    anomalyMultiple: real)

  datatype PriorSpend = PriorSpend(amount: int, at: Instant)

  /** A hard deny rule: a predicate over the intent, the payees already known, and
   *  the reversibility of the provider that would settle it. */
  datatype DenyRule = DenyRule(
    id: string,
    matches: (PaymentIntent, set<string>, Reversibility) -> bool)

  type Converter = (int, string, string) -> Option<int>

  /** Everything the pure gate reads. */
  datatype GateContext = GateContext(
    now: Instant,
    mandates: seq<Mandate>,
    periodSpend: string -> seq<PriorSpend>,
    knownPayees: set<string>,
    trustOf: Option<string -> TrustLevel>,
    convert: Option<Converter>,
    attestation: Option<Attestation>,
    reputationOf: Option<string -> Option<Reputation>>,
    denyRules: seq<DenyRule>,
    config: GateConfig,
    reversibility: Option<Reversibility>)

  datatype Receipt = Receipt(
    id: string,
    intentId: string,
    rail: RailKind,
    amount: int,
    currency: string,
    settledAt: Instant,
    providerId: Option<string>)

  datatype IntentStatus = Pending | Settled | Blocked | Failed

  datatype StoredIntent = StoredIntent(
    intent: PaymentIntent,
    status: IntentStatus,
    mandateId: Option<string>,
    reasons: seq<Reason>,
    settledAt: Option<Instant>,
    receiptId: Option<string>,
    refundedMinor: Option<int>)
  {
    /** What the payment still costs once refunds are netted out. */
    function Net(): int {
      intent.amount - refundedMinor.GetOr(0)
    }
  }
}
