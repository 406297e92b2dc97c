/** Laws of the gate: what each input can and cannot do to the verdict. */
module GateLaws {
  import opened Prelude
  import opened Types
  import opened Risk
  import opened Gate
  import opened DenyList

  function Severity(outcome: Outcome): int {
    match outcome
    case AutoExecute => 0
    case ConfirmOperator => 1
    case Block => 2
  }

  /** The two contexts differ at most in what they say about trust, reputation and attestation. */
  ghost predicate SameButSoftSignals(a: GateContext, b: GateContext) {
    b == a.(trustOf := b.trustOf, reputationOf := b.reputationOf, attestation := b.attestation)
  }

  /** Trust, reputation and attestation can neither cause nor lift a block. */
  lemma BlockIgnoresSoftSignals(intent: PaymentIntent, a: GateContext, b: GateContext)
    requires SameButSoftSignals(a, b)
    ensures Decide(intent, a).outcome == Block <==> Decide(intent, b).outcome == Block
  {
    assert Floor(intent, a) == Floor(intent, b);
  }

  function TrustRank(t: TrustLevel): int {
    match t
    case Trusted => 0
    case Seen => 1
    case New => 2
  }

  function AttestationRank(a: Option<Attestation>): int {
    match a
    case Some(RegistryAttested) => 0
    case Some(Unattested) => 2
    case _ => 1
  }

  function ReputationRank(r: Option<Reputation>): int {
    match r
    case Some(Good) => 0
    case Some(Flagged) => 2
    case _ => 1
  }

  /** Every signal of b is at least as worrying as the same signal of a. */
  predicate NoSafer(a: Signals, b: Signals) {
    && TrustRank(a.trust) <= TrustRank(b.trust)
    && AttestationRank(a.attestation) <= AttestationRank(b.attestation)
    && ReputationRank(a.reputation) <= ReputationRank(b.reputation)
    && (a.reversibility == Irreversible ==> b.reversibility == Irreversible)
  }

  predicate SingleCurrency(intent: PaymentIntent, ctx: GateContext) {
    ctx.convert.None? || forall m :: m in ctx.mandates ==> m.currency == intent.currency
  }

  /** b asks for at least as much as a, in a world at least as worrying. */
  ghost predicate NoEasier(i: PaymentIntent, a: GateContext, j: PaymentIntent, b: GateContext) {
    && 0 < i.amount <= j.amount
    && j == i.(amount := j.amount)
    && NoSafer(SignalsOf(i, a), SignalsOf(j, b))
    && b.knownPayees <= a.knownPayees
    && a.now == b.now && a.mandates == b.mandates && a.periodSpend == b.periodSpend
    && a.convert == b.convert && a.config == b.config && a.denyRules == b.denyRules
  }

  /** Growing the amount or worsening a signal never makes a verdict more lenient, for
   *  any deny rules that themselves only get stricter. */
  lemma SeverityNeverDrops(i: PaymentIntent, a: GateContext, j: PaymentIntent, b: GateContext)
    requires NoEasier(i, a, j, b)
    requires SingleCurrency(i, a)
    requires forall r :: r in a.denyRules && r.matches(i, a.knownPayees, ReversibilityOf(i, a))
                     ==> r.matches(j, b.knownPayees, ReversibilityOf(j, b))
    ensures Severity(Decide(i, a).outcome) <= Severity(Decide(j, b).outcome)
  {
    DenyOnlyGrows(a.denyRules, i, a.knownPayees, ReversibilityOf(i, a), j, b.knownPayees, ReversibilityOf(j, b));
    SameAuthority(a.mandates, i, j, a.now, a.convert);
    AuthorityIsFirst(a.mandates, i, a.now, a.convert);
    match Authority(a.mandates, i, a.now, a.convert) {
      case None =>
      case Some(m) =>
        assert AmountIn(m, i, a.convert) == i.amount && AmountIn(m, j, b.convert) == j.amount;
        hide Floor, Authority, SignalsOf, AmountIn, NoSafer;
        JudgeNeverDrops(i, j, m, a.periodSpend(m.id), SignalsOf(i, a), SignalsOf(j, b), a.now, a.config);
    }
  }

  lemma JudgeNeverDrops(
    i: PaymentIntent, j: PaymentIntent, m: Mandate, spend: seq<PriorSpend>, s: Signals, t: Signals, now: Instant, config: GateConfig)
    requires i.amount <= j.amount && NoSafer(s, t)
    ensures Severity(Judge(i, m, i.amount, spend, s, now, config).outcome)
         <= Severity(Judge(j, m, j.amount, spend, t, now, config).outcome)
  {
    AnomalyOnlyGrows(i.amount, j.amount, spend, config);
    hide Anomalous, RecentCount;
    assert ClassifySpendRisk(i.amount, spend, s, config).score <= ClassifySpendRisk(j.amount, spend, t, config).score;
  }

  /** The default rules qualify. */
  lemma DefaultSeverityNeverDrops(i: PaymentIntent, a: GateContext, j: PaymentIntent, b: GateContext)
    requires NoEasier(i, a, j, b)
    requires SingleCurrency(i, a)
    requires a.denyRules == DefaultDenyRules()
    ensures Severity(Decide(i, a).outcome) <= Severity(Decide(j, b).outcome)
  {
    SeverityNeverDrops(i, a, j, b);
  }

  lemma {:induction false} DenyOnlyGrows(
    rules: seq<DenyRule>,
    i: PaymentIntent, known: set<string>, rev: Reversibility,
    j: PaymentIntent, known': set<string>, rev': Reversibility)
    requires forall r :: r in rules && r.matches(i, known, rev) ==> r.matches(j, known', rev')
    ensures FirstDenied(rules, i, known, rev).Some? ==> FirstDenied(rules, j, known', rev').Some?
  {
    if rules != [] {
      assert rules[0] in rules;
      assert forall r :: r in rules[1..] ==> r in rules;
      DenyOnlyGrows(rules[1..], i, known, rev, j, known', rev');
    }
  }

  /** Within one currency the amount has no say in which mandate is chosen. */
  lemma {:induction false} SameAuthority(mandates: seq<Mandate>, i: PaymentIntent, j: PaymentIntent, now: Instant, convert: Option<Converter>)
    requires j == i.(amount := j.amount)
    requires convert.None? || forall m :: m in mandates ==> m.currency == i.currency
    ensures Authority(mandates, i, now, convert) == Authority(mandates, j, now, convert)
  {
    if mandates != [] {
      assert mandates[0] in mandates;
      assert forall m :: m in mandates[1..] ==> m in mandates;
      SameAuthority(mandates[1..], i, j, now, convert);
    }
  }

  lemma AnomalyOnlyGrows(a: int, b: int, spend: seq<PriorSpend>, config: GateConfig)
    requires a <= b
    ensures Anomalous(a, spend, config) ==> Anomalous(b, spend, config)
  {
  }

  lemma SameSize<T>(p: seq<T>, q: seq<T>)
    requires multiset(p) == multiset(q)
    ensures |p| == |q|
  {
    assert |multiset(p)| == |p| && |multiset(q)| == |q|;
  }

  lemma JudgeIgnoresSpendOrder(
    intent: PaymentIntent, m: Mandate, amount: int, p: seq<PriorSpend>, q: seq<PriorSpend>,
    signals: Signals, now: Instant, config: GateConfig)
    requires multiset(p) == multiset(q)
    ensures Judge(intent, m, amount, p, signals, now, config) == Judge(intent, m, amount, q, signals, now, config)
  {
    hide Sum, Median, Amounts;
    SumIgnoresOrder(p, q, SpendAmount());
    SumIgnoresOrder(p, q, SpentSince(WindowStart(now, config)));
    SameSize(p, q);
    AmountsKeepMultiset(p, q);
    MedianIgnoresOrder(Amounts(p), Amounts(q));
  }

  /** The order in which the ledger lists a period's spend never matters: budget and
   *  velocity are sums, and the anomaly baseline is a median. */
  lemma VerdictIgnoresSpendOrder(intent: PaymentIntent, a: GateContext, b: GateContext)
    requires b == a.(periodSpend := b.periodSpend)
    requires forall id :: multiset(a.periodSpend(id)) == multiset(b.periodSpend(id))
    ensures Decide(intent, a) == Decide(intent, b)
  {
    var found := Authority(a.mandates, intent, a.now, a.convert);
    if found.Some? {
      var m := found.value;
      assert multiset(a.periodSpend(m.id)) == multiset(b.periodSpend(m.id));
      JudgeIgnoresSpendOrder(intent, m, AmountIn(m, intent, a.convert), a.periodSpend(m.id), b.periodSpend(m.id),
                             SignalsOf(intent, a), a.now, a.config);
    }
  }

  function HasAmount(v: int): PriorSpend -> int {
    (s: PriorSpend) => if s.amount == v then 1 else 0
  }

  lemma {:induction false} AmountCount(p: seq<PriorSpend>, v: int)
    ensures multiset(Amounts(p))[v] == Sum(p, HasAmount(v))
  {
    if p == [] {
      assert Amounts(p) == [];
    } else {
      var n := |p| - 1;
      AmountCount(p[..n], v);
      assert Amounts(p) == Amounts(p[..n]) + [p[n].amount];
    }
  }

  lemma AmountsKeepMultiset(p: seq<PriorSpend>, q: seq<PriorSpend>)
    requires multiset(p) == multiset(q)
    ensures multiset(Amounts(p)) == multiset(Amounts(q))
  {
    forall v ensures multiset(Amounts(p))[v] == multiset(Amounts(q))[v] {
      AmountCount(p, v);
      AmountCount(q, v);
      SumIgnoresOrder(p, q, HasAmount(v));
    }
  }

  predicate Authorizes(m: Mandate, intent: PaymentIntent, now: Instant, convert: Option<Converter>) {
    IsLive(m, now) && Covers(m, intent, convert)
  }

  /** At most one live mandate covers the payment. */
  predicate AtMostOneAuthorizes(mandates: seq<Mandate>, intent: PaymentIntent, now: Instant, convert: Option<Converter>) {
    forall a, b :: a in mandates && b in mandates && Authorizes(a, intent, now, convert) && Authorizes(b, intent, now, convert) ==> a == b
  }

  function IdOf(m: Option<Mandate>): Option<string> {
    match m case None => None case Some(x) => Some(x.id)
  }

  /** Past the floor, a verdict names the mandate that was picked. */
  lemma VerdictNamesPick(intent: PaymentIntent, ctx: GateContext)
    requires Floor(intent, ctx).None?
    ensures Decide(intent, ctx).mandateId == IdOf(Authority(ctx.mandates, intent, ctx.now, ctx.convert))
  {
  }

  /** Two contexts that agree up to the pick, and on what the pick is judged by, agree; the
   *  order of the prior spend may differ. */
  lemma SamePickSameVerdict(intent: PaymentIntent, a: GateContext, b: GateContext)
    requires Floor(intent, a) == Floor(intent, b) && a.now == b.now && a.config == b.config
    requires var p := Authority(a.mandates, intent, a.now, a.convert);
             Floor(intent, a).None? ==>
               && p == Authority(b.mandates, intent, b.now, b.convert)
               && (p.Some? ==>
                     && SignalsOf(intent, a) == SignalsOf(intent, b)
                     && multiset(a.periodSpend(p.value.id)) == multiset(b.periodSpend(p.value.id))
                     && AmountIn(p.value, intent, a.convert) == AmountIn(p.value, intent, b.convert))
    ensures Decide(intent, a) == Decide(intent, b)
  {
    hide Floor, Authority, SignalsOf, AmountIn, Judge;
    var found := Authority(a.mandates, intent, a.now, a.convert);
    if Floor(intent, a).None? && found.Some? {
      var m := found.value;
      JudgeIgnoresSpendOrder(intent, m, AmountIn(m, intent, a.convert), a.periodSpend(m.id), b.periodSpend(m.id),
                             SignalsOf(intent, a), a.now, a.config);
    }
  }
}
