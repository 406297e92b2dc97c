/** Proof of enforcement: the disclosed policy, and the replay of a recorded decision
 *  under it (src/core/enforcement.ts). */
module Enforcement {
  import opened Prelude
  import opened Types
  import opened Fx
  import opened Trail
  import Gate

  function InsertById(m: Mandate, sorted: seq<Mandate>): seq<Mandate> {
    if sorted == [] || !StringLess(sorted[0].id, m.id) then [m] + sorted
    else [sorted[0]] + InsertById(m, sorted[1..])
  }

  function SortById(mandates: seq<Mandate>): seq<Mandate> {
    if mandates == [] then [] else InsertById(mandates[0], SortById(mandates[1..]))
  }

  function PolicyOf(mandates: seq<Mandate>, config: GateConfig): EffectivePolicy {
    EffectivePolicy(SortById(mandates), config)
  }

  function RateKey(from: string, to: string): string {
    from + "/" + to
  }

  /** Conversion from the rates recorded with a decision, at the standard decimals. */
  function RecordedConvert(rates: map<string, real>): Converter {
    (amount: int, from: string, to: string) =>
      if RateKey(from, to) in rates
      then Some(ConvertMinorCrossDecimal(amount, rates[RateKey(from, to)], from, to, None))
      else None
  }

  /** The gate context rebuilt from a record, with no clock and no store. */
  function ReplayContext(record: Event, policy: EffectivePolicy, denyRules: seq<DenyRule>): GateContext
    requires record.AgentDecision?
  {
    var inputs := record.inputs;
    GateContext(
      record.ts,
      policy.mandates,
      (id: string) => if id in inputs.periodSpendByMandate then inputs.periodSpendByMandate[id] else [],
      inputs.knownPayees,
      Some((payee: string) => inputs.trust),
      if inputs.fxRates.Some? then Some(RecordedConvert(inputs.fxRates.value)) else None,
      inputs.attestation,
      if inputs.reputation.Some? then Some((payee: string) => inputs.reputation) else None,
      denyRules,
      policy.config,
      Some(inputs.reversibility))
  }

  /** The fields a verdict is compared on. */
  predicate VerdictsEqual(a: GateDecision, b: GateDecision) {
    && a.outcome == b.outcome
    && a.mandateId == b.mandateId
    && a.risk.tier == b.risk.tier
    && a.remaining == b.remaining
  }

  predicate ReplayMatches(record: Event, policy: EffectivePolicy, denyRules: seq<DenyRule>)
    requires record.AgentDecision?
  {
    VerdictsEqual(Gate.Decide(record.intent, ReplayContext(record, policy, denyRules)), record.verdict)
  }
}
