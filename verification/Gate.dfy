/** The gate: may this payment run without a human? (src/core/gate.ts, src/core/denyList.ts) */
module Gate {
  import opened Prelude
  import opened Types
  import opened Risk

  predicate IsLive(m: Mandate, now: Instant) {
    m.status == Active && m.expiresAt > now
  }

  predicate InScope(scope: PayeeScope, intent: PaymentIntent) {
    match scope
    case ClassScope(value) => value == intent.payeeClass
    case Allowlist(values) => intent.payee in values
  }

  predicate Covers(m: Mandate, intent: PaymentIntent, convert: Option<Converter>) {
    && intent.rail in m.allowedRails
    && InScope(m.scope, intent)
    && (m.currency == intent.currency
        || (convert.Some? && convert.value(intent.amount, intent.currency, m.currency).Some?))
  }

  /** The characters JavaScript's trim removes. */
  predicate IsSpace(c: char) {
    var code := c as int;
    || 0x09 <= code <= 0x0d || code == 0x20 || code == 0xa0 || code == 0x1680
    || 0x2000 <= code <= 0x200a || code == 0x2028 || code == 0x2029
    || code == 0x202f || code == 0x205f || code == 0x3000 || code == 0xfeff
  }

  function Trim(s: string): string {
    if s != [] && IsSpace(s[0]) then Trim(s[1..])
    else if s != [] && IsSpace(s[|s| - 1]) then Trim(s[..|s| - 1])
    else s
  }

  function ReversibilityOf(intent: PaymentIntent, ctx: GateContext): Reversibility {
    ctx.reversibility.GetOr(RailReversibility(intent.rail))
  }

  /** The first deny rule that matches. */
  function FirstDenied(rules: seq<DenyRule>, intent: PaymentIntent, known: set<string>, rev: Reversibility): Option<string> {
    if rules == [] then None
    else if rules[0].matches(intent, known, rev) then Some(rules[0].id)
    else FirstDenied(rules[1..], intent, known, rev)
  }

  /** The floor: checks no mandate and no trust can lift. */
  function Floor(intent: PaymentIntent, ctx: GateContext): Option<Reason> {
    if intent.amount <= 0 then Some(BadAmount)
    else if |Trim(intent.rationale)| < ctx.config.minRationaleChars then Some(ShortRationale)
    else
      match FirstDenied(ctx.denyRules, intent, ctx.knownPayees, ReversibilityOf(intent, ctx))
      case Some(rule) => Some(DenyListed(rule))
      case None => None
  }

  /** The first live mandate, in list order, that covers the payment. */
  function Authority(mandates: seq<Mandate>, intent: PaymentIntent, now: Instant, convert: Option<Converter>): Option<Mandate> {
    if mandates == [] then None
    else if IsLive(mandates[0], now) && Covers(mandates[0], intent, convert) then Some(mandates[0])
    else Authority(mandates[1..], intent, now, convert)
  }

  function SignalsOf(intent: PaymentIntent, ctx: GateContext): Signals {
    Signals(
      match ctx.trustOf {
        case Some(f) => f(intent.payee)
        case None => if intent.payee in ctx.knownPayees then Seen else New
      },
      ctx.attestation,
      match ctx.reputationOf {
        case Some(f) => f(intent.payee)
        case None => None
      },
      ReversibilityOf(intent, ctx))
  }

  /** The amount in the mandate's own currency. */
  function AmountIn(m: Mandate, intent: PaymentIntent, convert: Option<Converter>): int {
    if m.currency == intent.currency || convert.None? then intent.amount
    else convert.value(intent.amount, intent.currency, m.currency).GetOr(intent.amount)
  }

  function SpendAmount(): PriorSpend -> int {
    (s: PriorSpend) => s.amount
  }

  function SpentSince(start: Instant): PriorSpend -> int {
    (s: PriorSpend) => if s.at >= start then 1 else 0
  }

  function WindowStart(now: Instant, config: GateConfig): Instant {
    now - config.velocityWindowMinutes * MINUTE
  }

  function RecentCount(spend: seq<PriorSpend>, now: Instant, config: GateConfig): int {
    Sum(spend, SpentSince(WindowStart(now, config)))
  }

  /** Why a payment within its caps still needs a human. */
  function Concerns(signals: Signals, risk: SpendRisk, recent: int, config: GateConfig): seq<Reason> {
    (if signals.trust == New then [NewPayee] else [])
    + (if recent >= config.velocityMaxCount then [VelocityCeiling(recent)] else [])
    + (if risk.tier == High then [ElevatedRisk] else [])
  }

  /** The verdict once the authorizing mandate is known. `amount` is in the mandate's currency. */
  function Judge(
    intent: PaymentIntent, m: Mandate, amount: int, spend: seq<PriorSpend>,
    signals: Signals, now: Instant, config: GateConfig): GateDecision
  {
    var risk := ClassifySpendRisk(intent.amount, spend, signals, config);
    var remaining := m.perPeriodCap - Sum(spend, SpendAmount()) - amount;
    if amount > m.perTxCap then GateDecision(Block, [OverTransactionCap], Some(m.id), risk, None)
    else if remaining < 0 then GateDecision(Block, [OverPeriodCap], Some(m.id), risk, None)
    else
      var concerns := Concerns(signals, risk, RecentCount(spend, now, config), config);
      if concerns != [] then GateDecision(ConfirmOperator, concerns, Some(m.id), risk, Some(remaining))
      else GateDecision(AutoExecute, [WithinMandate], Some(m.id), risk, Some(remaining))
  }

  const UNCOVERED: GateDecision := GateDecision(ConfirmOperator, [NoLiveMandate], None, NO_RISK, None)

  function Refusal(reason: Reason): GateDecision {
    GateDecision(Block, [reason], None, NO_RISK, None)
  }

  /** What the gate decides, stage by stage. */
  function Decide(intent: PaymentIntent, ctx: GateContext): GateDecision {
    match Floor(intent, ctx)
    case Some(reason) => Refusal(reason)
    case None =>
      match Authority(ctx.mandates, intent, ctx.now, ctx.convert)
      case None => UNCOVERED
      case Some(m) =>
        Judge(intent, m, AmountIn(m, intent, ctx.convert), ctx.periodSpend(m.id),
              SignalsOf(intent, ctx), ctx.now, ctx.config)
  }

  /** The gate as the program runs it: an early-exit scan of the deny list, a scan for
   *  the mandate, then the caps and the reasons. */
  method EvaluateGate(intent: PaymentIntent, ctx: GateContext) returns (decision: GateDecision)
    ensures decision == Decide(intent, ctx)
  {
    if intent.amount <= 0 {
      return Refusal(BadAmount);
    }
    if |Trim(intent.rationale)| < ctx.config.minRationaleChars {
      return Refusal(ShortRationale);
    }
    var rev := ReversibilityOf(intent, ctx);
    var i := 0;
    while i < |ctx.denyRules|
      invariant 0 <= i <= |ctx.denyRules|
      invariant FirstDenied(ctx.denyRules, intent, ctx.knownPayees, rev)
             == FirstDenied(ctx.denyRules[i..], intent, ctx.knownPayees, rev)
    {
      if ctx.denyRules[i].matches(intent, ctx.knownPayees, rev) {
        return Refusal(DenyListed(ctx.denyRules[i].id));
      }
      i := i + 1;
    }

    var found: Option<Mandate> := None;
    i := 0;
    while i < |ctx.mandates| && found.None?
      invariant 0 <= i <= |ctx.mandates|
      invariant Authority(ctx.mandates, intent, ctx.now, ctx.convert)
             == if found.Some? then found else Authority(ctx.mandates[i..], intent, ctx.now, ctx.convert)
    {
      if IsLive(ctx.mandates[i], ctx.now) && Covers(ctx.mandates[i], intent, ctx.convert) {
        found := Some(ctx.mandates[i]);
      }
      i := i + 1;
    }
    if found.None? {
      return UNCOVERED;
    }

    var m := found.value;
    var spend := ctx.periodSpend(m.id);
    var signals := SignalsOf(intent, ctx);
    var risk := ClassifySpendRisk(intent.amount, spend, signals, ctx.config);
    var amount := AmountIn(m, intent, ctx.convert);
    if amount > m.perTxCap {
      return GateDecision(Block, [OverTransactionCap], Some(m.id), risk, None);
    }
    var remaining := m.perPeriodCap - Sum(spend, SpendAmount()) - amount;
    if remaining < 0 {
      return GateDecision(Block, [OverPeriodCap], Some(m.id), risk, None);
    }
    var reasons: seq<Reason> := [];
    if signals.trust == New {
      reasons := reasons + [NewPayee];
    }
    var recent := RecentCount(spend, ctx.now, ctx.config);
    if recent >= ctx.config.velocityMaxCount {
      reasons := reasons + [VelocityCeiling(recent)];
    }
    if risk.tier == High {
      reasons := reasons + [ElevatedRisk];
    }
    if reasons != [] {
      return GateDecision(ConfirmOperator, reasons, Some(m.id), risk, Some(remaining));
    }
    return GateDecision(AutoExecute, [WithinMandate], Some(m.id), risk, Some(remaining));
  }

  lemma {:induction false} AuthorityIsFirst(mandates: seq<Mandate>, intent: PaymentIntent, now: Instant, convert: Option<Converter>)
    ensures var found := Authority(mandates, intent, now, convert);
            match found {
              case None => forall m :: m in mandates ==> !(IsLive(m, now) && Covers(m, intent, convert))
              case Some(m) =>
                exists i :: && 0 <= i < |mandates| && mandates[i] == m
                            && IsLive(m, now) && Covers(m, intent, convert)
                            && forall j :: 0 <= j < i ==> !(IsLive(mandates[j], now) && Covers(mandates[j], intent, convert))
            }
  {
    if mandates != [] && !(IsLive(mandates[0], now) && Covers(mandates[0], intent, convert)) {
      AuthorityIsFirst(mandates[1..], intent, now, convert);
      match Authority(mandates[1..], intent, now, convert) {
        case None =>
        case Some(m) =>
          var i :| && 0 <= i < |mandates[1..]| && mandates[1..][i] == m
                   && forall j :: 0 <= j < i ==> !(IsLive(mandates[1..][j], now) && Covers(mandates[1..][j], intent, convert));
          forall j | 0 <= j < i + 1
            ensures !(IsLive(mandates[j], now) && Covers(mandates[j], intent, convert))
          {
            if j > 0 {
              assert mandates[j] == mandates[1..][j - 1];
            }
          }
          assert mandates[i + 1] == m;
      }
    }
  }

  /** The invariant the product is built to enforce: a payment runs unattended exactly
   *  when it clears the floor and the first live covering mandate admits it under both
   *  caps, for a payee already paid, below the velocity ceiling, and not at high risk. */
  lemma AutoExecuteIff(intent: PaymentIntent, ctx: GateContext)
    ensures var authority := Authority(ctx.mandates, intent, ctx.now, ctx.convert);
            Decide(intent, ctx).outcome == AutoExecute <==>
            && Floor(intent, ctx).None?
            && authority.Some?
            && var m := authority.value;
               var spend := ctx.periodSpend(m.id);
               var amount := AmountIn(m, intent, ctx.convert);
               && amount <= m.perTxCap
               && Sum(spend, SpendAmount()) + amount <= m.perPeriodCap
               && SignalsOf(intent, ctx).trust != New
               && RecentCount(spend, ctx.now, ctx.config) < ctx.config.velocityMaxCount
               && ClassifySpendRisk(intent.amount, spend, SignalsOf(intent, ctx), ctx.config).score < 4
  {
  }

  /** What an unattended verdict reports as left is the cap less earlier spend and the payment. */
  lemma AutoRemaining(intent: PaymentIntent, ctx: GateContext)
    requires Decide(intent, ctx).outcome == AutoExecute
    ensures var authority := Authority(ctx.mandates, intent, ctx.now, ctx.convert);
            && authority.Some?
            && var m := authority.value;
               Decide(intent, ctx).remaining
               == Some(m.perPeriodCap - Sum(ctx.periodSpend(m.id), SpendAmount()) - AmountIn(m, intent, ctx.convert))
  {
    hide Floor, Authority, ClassifySpendRisk, AmountIn, Sum;
  }
}
