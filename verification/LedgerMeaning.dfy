/** When the executor's gate lets a payment run unattended, in terms of the stored entries and
 *  mandates (src/core/executor.ts:117-144, 291-312, src/store/memoryStore.ts:34-105). */
module LedgerMeaning {
  import opened Prelude
  import opened Types
  import opened Calendar
  import opened Store
  import opened Executor
  import opened GateMeaning
  import Gate
  import Fx

  /** Something was paid to the payee, and stands as settled. */
  predicate PaidBefore(ledger: Ledger, payee: string) {
    exists i :: 0 <= i < |ledger.intents| && ledger.intents[i].status == Settled && ledger.intents[i].intent.payee == payee
  }

  function PaymentTo(payee: string): StoredIntent -> int {
    (s: StoredIntent) => if s.status == Settled && s.intent.payee == payee then 1 else 0
  }

  /** Three settled payments make a payee trusted, one makes it seen. */
  function TrustBy(ledger: Ledger, payee: string): TrustLevel {
    var n := Sum(ledger.intents, PaymentTo(payee));
    if n <= 0 then New else if n <= 2 then Seen else Trusted
  }

  /** Settled under the mandate since an instant. */
  predicate Charged(s: StoredIntent, id: string, start: Instant) {
    && s.status == Settled && s.mandateId.Some? && s.mandateId.value == id
    && s.settledAt.Some? && start <= s.settledAt.value
  }

  /** What the entry weighs, under a weight on amounts net of refunds and their instants. */
  function Weight(id: string, start: Instant, f: PriorSpend -> int): StoredIntent -> int {
    (s: StoredIntent) =>
      if Charged(s, id, start) then
        f(PriorSpend(s.intent.amount - (if s.refundedMinor.Some? then s.refundedMinor.value else 0), s.settledAt.value))
      else 0
  }

  lemma {:induction false} SpendMeans(intents: seq<StoredIntent>, id: string, start: Instant, f: PriorSpend -> int)
    ensures Sum(SpendFrom(intents, id, start), f) == Sum(intents, Weight(id, start, f))
  {
    if intents != [] {
      var n := |intents| - 1;
      SpendMeans(intents[..n], id, start, f);
      var earlier := SpendFrom(intents[..n], id, start);
      if CountsFrom(intents[n], id, start) {
        SumAppend(earlier, PriorSpend(intents[n].Net(), intents[n].settledAt.value), f);
      } else {
        assert earlier + [] == earlier;
      }
    }
  }

  /** The spend the gate is shown for a stored mandate: the entries charged to it since its
   *  period began, whatever one asks of them. */
  lemma PeriodSpendMeans(ledger: Ledger, i: nat, now: Instant, f: PriorSpend -> int)
    requires DistinctMandates(ledger.mandates) && i < |ledger.mandates|
    ensures var m := ledger.mandates[i];
            Sum(PeriodSpend(ledger, m.id, now), f) == Sum(ledger.intents, Weight(m.id, PeriodStart(now, m.period), f))
  {
    var m := ledger.mandates[i];
    assert MandateIndex(ledger.mandates, m.id) == i;
    SpendMeans(ledger.intents, m.id, PeriodStart(now, m.period), f);
    hide SpendFrom, Weight, Sum, PeriodStart;
  }

  /** Nothing is charged to an unknown mandate. */
  lemma UnknownSpendMeans(ledger: Ledger, id: string, now: Instant)
    requires forall i :: 0 <= i < |ledger.mandates| ==> ledger.mandates[i].id != id
    ensures PeriodSpend(ledger, id, now) == []
  {
  }

  lemma {:induction false} KnownMeans(intents: seq<StoredIntent>, payee: string)
    ensures payee in KnownPayees(intents) <==>
              exists i :: 0 <= i < |intents| && intents[i].status == Settled && intents[i].intent.payee == payee
  {
    if intents != [] {
      var n := |intents| - 1;
      KnownMeans(intents[..n], payee);
      assert forall i :: 0 <= i < n ==> intents[..n][i] == intents[i];
    }
  }

  lemma {:induction false} CountMeans(intents: seq<StoredIntent>, payee: string)
    ensures SettledCount(intents, payee) == Sum(intents, PaymentTo(payee))
  {
    if intents != [] {
      CountMeans(intents[..|intents| - 1], payee);
    }
  }

  /** The amount in another currency, as the gate is offered it. */
  function Exchanged(env: Env, amount: int, from: string, to: string): Option<int> {
    if env.fx.None? || env.fx.value(from, to).None? then None
    else Some(Fx.ConvertMinorCrossDecimal(amount, env.fx.value(from, to).value, from, to, env.tokenDecimals))
  }

  /** The settling provider's reversibility, else the rail's. */
  function ReversibilityBy(env: Env, rail: RailKind): Reversibility {
    if env.railOf(rail).Some? then env.railOf(rail).value.reversibility else RailDefault(rail)
  }

  /** Everything the executor shows the gate. */
  lemma ContextMeans(env: Env, ledger: Ledger, intent: PaymentIntent, attestation: Option<Attestation>, now: Instant)
    ensures var ctx := Context(env, ledger, intent, attestation, now);
            && ctx.now == now && ctx.attestation == attestation && ctx.denyRules == env.denyRules && ctx.config == env.config
            && (forall payee :: payee in ctx.knownPayees <==> PaidBefore(ledger, payee))
            && (forall payee :: ctx.trustOf.Some? && ctx.trustOf.value(payee) == TrustBy(ledger, payee))
            && ReputationIn(intent, ctx) == env.reputation(intent.payee)
            && SettlesAs(intent, ctx) == ReversibilityBy(env, intent.rail)
            && (forall amount, from, to ::
                  (if ctx.convert.Some? then ctx.convert.value(amount, from, to) else None) == Exchanged(env, amount, from, to))
            && (forall m :: m in ctx.mandates <==> m in ledger.mandates && m.status == Active && now < m.expiresAt)
            && (forall id :: ctx.periodSpend(id) == PeriodSpend(ledger, id, now))
  {
    hide Fx.ConvertMinorCrossDecimal, KnownPayees, SettledCount, ActiveMandates, Sum, PeriodSpend;
    forall payee ensures payee in KnownPayees(ledger.intents) <==> PaidBefore(ledger, payee) {
      KnownMeans(ledger.intents, payee);
    }
    forall payee ensures PayeeTrust(SettledCount(ledger.intents, payee)) == TrustBy(ledger, payee) {
      CountMeans(ledger.intents, payee);
    }
    ActiveAreStored(ledger.mandates, now);
  }

  /** The first active mandate that allows the payment is the first stored one. */
  lemma FirstStoredMeans(mandates: seq<Mandate>, intent: PaymentIntent, ctx: GateContext)
    requires ctx.mandates == ActiveMandates(mandates, ctx.now)
    ensures forall i: nat :: FirstOf(mandates, intent, ctx, i) ==>
              exists k: nat :: FirstToAllow(intent, ctx, k) && ctx.mandates[k] == mandates[i]
    ensures forall k: nat :: FirstToAllow(intent, ctx, k) ==>
              exists i: nat :: FirstOf(mandates, intent, ctx, i) && mandates[i] == ctx.mandates[k]
  {
    ActiveAuthority(mandates, intent, ctx.now, ctx.convert);
    hide Gate.Authority, Allows, ActiveMandates;
    AuthorityIn(mandates, intent, ctx);
    AuthorityIn(ctx.mandates, intent, ctx);
    forall i: nat | FirstOf(mandates, intent, ctx, i)
      ensures exists k: nat :: FirstToAllow(intent, ctx, k) && ctx.mandates[k] == mandates[i]
    {
      FirstIsAuthority(mandates, intent, ctx, i);
    }
    forall k: nat | FirstToAllow(intent, ctx, k)
      ensures exists i: nat :: FirstOf(mandates, intent, ctx, i) && mandates[i] == ctx.mandates[k]
    {
      FirstIsAuthority(ctx.mandates, intent, ctx, k);
    }
  }

  /** The cap, the ceiling and the doubts, in terms of what is stored. */
  ghost predicate Admits(env: Env, ledger: Ledger, m: Mandate, intent: PaymentIntent, ctx: GateContext) {
    var start := PeriodStart(ctx.now, m.period);
    && Price(m, intent, ctx) <= m.perTxCap
    && Sum(ledger.intents, Weight(m.id, start, Paid())) + Price(m, intent, ctx) <= m.perPeriodCap
    && Sum(ledger.intents, Weight(m.id, start, PaidWithin(ctx.now, env.config.velocityWindowMinutes))) < env.config.velocityMaxCount
    && PaidBefore(ledger, intent.payee)
    && Points(m, intent, ctx) < 4
  }

  lemma AdmitsMeans(env: Env, ledger: Ledger, i: nat, intent: PaymentIntent, attestation: Option<Attestation>, now: Instant)
    requires DistinctMandates(ledger.mandates) && i < |ledger.mandates|
    ensures var ctx := Context(env, ledger, intent, attestation, now);
            var m := ledger.mandates[i];
            Admits(env, ledger, m, intent, ctx) <==>
              && Price(m, intent, ctx) <= m.perTxCap && Room(m, intent, ctx) >= 0
              && TrustIn(intent, ctx) != New && Recent(m, ctx) < ctx.config.velocityMaxCount && Points(m, intent, ctx) < 4
  {
    var ctx := Context(env, ledger, intent, attestation, now);
    var m := ledger.mandates[i];
    ContextMeans(env, ledger, intent, attestation, now);
    PeriodSpendMeans(ledger, i, now, Paid());
    PeriodSpendMeans(ledger, i, now, PaidWithin(now, env.config.velocityWindowMinutes));
    KnownIffCounted(ledger.intents, intent.payee);
    CountMeans(ledger.intents, intent.payee);
    KnownMeans(ledger.intents, intent.payee);
    hide Context, Price, Points, Weight, Sum, PeriodStart, PeriodSpend, Paid, PaidWithin, KnownPayees, SettledCount;
  }

  /** WHAT RUNS UNATTENDED, from the ledger. The payment clears the floor; the first stored
   *  mandate that is active, not expired, on its rail, for its payee and in its currency or one
   *  with a rate has room for it under both caps, counting what was settled under it this
   *  period net of refunds; fewer payments than the ceiling were settled under it in the
   *  window; the payee was paid before; and the risk stays below four points. */
  lemma UnattendedFromLedger(env: Env, ledger: Ledger, intent: PaymentIntent, attestation: Option<Attestation>, now: Instant)
    requires DistinctMandates(ledger.mandates)
    ensures var ctx := Context(env, ledger, intent, attestation, now);
            GateVerdict(env, ledger, intent, attestation, now).outcome == AutoExecute <==>
              && ClearsFloor(intent, ctx)
              && exists i: nat :: FirstOf(ledger.mandates, intent, ctx, i) && Admits(env, ledger, ledger.mandates[i], intent, ctx)
  {
    var ctx := Context(env, ledger, intent, attestation, now);
    UnattendedMeans(intent, ctx);
    FirstStoredMeans(ledger.mandates, intent, ctx);
    forall i: nat | i < |ledger.mandates|
      ensures var m := ledger.mandates[i];
              Admits(env, ledger, m, intent, ctx) <==>
                && Price(m, intent, ctx) <= m.perTxCap && Room(m, intent, ctx) >= 0
                && TrustIn(intent, ctx) != New && Recent(m, ctx) < ctx.config.velocityMaxCount && Points(m, intent, ctx) < 4
    {
      AdmitsMeans(env, ledger, i, intent, attestation, now);
    }
    hide Context, ClearsFloor, Allows, Admits, Gate.Decide, Price, Room, TrustIn, Recent, Points;
  }

  // --- what is recorded with a decision ---

  /** A live mandate in another currency, with a rate into it. */
  predicate HasRate(env: Env, m: Mandate, currency: string) {
    m.currency != currency && env.fx.Some? && env.fx.value(currency, m.currency).Some?
  }

  predicate AnyRate(env: Env, mandates: seq<Mandate>, currency: string, to: string) {
    exists i :: 0 <= i < |mandates| && mandates[i].currency == to && HasRate(env, mandates[i], currency)
  }

  lemma SameKey(currency: string, a: string, b: string)
    requires currency + "/" + a == currency + "/" + b
    ensures a == b
  {
    assert a == (currency + "/" + a)[|currency| + 1..] && b == (currency + "/" + b)[|currency| + 1..];
  }

  /** A rate is recorded exactly for each currency that needs one and has one. */
  lemma {:induction false} RateMeans(env: Env, active: seq<Mandate>, currency: string, to: string)
    ensures var rates := RatesInto(env, active, currency);
            var key := currency + "/" + to;
            && (key in rates <==> AnyRate(env, active, currency, to))
            && (key in rates ==> env.fx.Some? && Some(rates[key]) == env.fx.value(currency, to))
  {
    if active != [] && env.fx.Some? {
      var n := |active| - 1;
      RateMeans(env, active[..n], currency, to);
      assert forall i :: 0 <= i < n ==> active[..n][i] == active[i];
      if currency + "/" + to == currency + "/" + active[n].currency {
        SameKey(currency, to, active[n].currency);
      }
    }
  }

  lemma {:induction false} NoOtherRates(env: Env, active: seq<Mandate>, currency: string)
    ensures forall key :: key in RatesInto(env, active, currency) ==>
              exists i :: 0 <= i < |active| && key == currency + "/" + active[i].currency
  {
    if active != [] && env.fx.Some? {
      var n := |active| - 1;
      NoOtherRates(env, active[..n], currency);
      assert forall i :: 0 <= i < n ==> active[..n][i] == active[i];
    }
  }

  /** THE RECORD. A decision is recorded with everything the gate looked at: the settling
   *  provider's reversibility, the attestation, the payee's reputation and trust, and the payees
   *  paid before, */
  lemma InputsMean(env: Env, ledger: Ledger, intent: PaymentIntent, attestation: Option<Attestation>, now: Instant)
    ensures var inputs := InputsOf(env, ledger, intent, attestation, now);
            && inputs.reversibility == ReversibilityBy(env, intent.rail)
            && inputs.attestation == attestation && inputs.reputation == env.reputation(intent.payee)
            && inputs.trust == TrustBy(ledger, intent.payee)
            && (forall payee :: payee in inputs.knownPayees <==> PaidBefore(ledger, payee))
  {
    hide KnownPayees, SettledCount, ActiveMandates, Sum, PeriodSpend, RatesInto;
    forall payee ensures payee in KnownPayees(ledger.intents) <==> PaidBefore(ledger, payee) {
      KnownMeans(ledger.intents, payee);
    }
    CountMeans(ledger.intents, intent.payee);
  }

  /** the spend of the period under every live mandate, and under no other, */
  lemma RecordedSpendMeans(env: Env, ledger: Ledger, intent: PaymentIntent, attestation: Option<Attestation>, now: Instant, id: string)
    ensures var spend := InputsOf(env, ledger, intent, attestation, now).periodSpendByMandate;
            && (id in spend <==> exists m :: m in ledger.mandates && m.id == id && m.status == Active && now < m.expiresAt)
            && (id in spend ==> spend[id] == PeriodSpend(ledger, id, now))
  {
    hide KnownPayees, SettledCount, ActiveMandates, PeriodSpend, RatesInto;
    ActiveAreStored(ledger.mandates, now);
  }

  /** and the rates into the currencies of the live mandates: none is recorded if there is none,
   *  and never one into the payment's own currency. */
  lemma RecordedRatesMean(env: Env, ledger: Ledger, intent: PaymentIntent, attestation: Option<Attestation>, now: Instant, to: string)
    ensures var recorded := InputsOf(env, ledger, intent, attestation, now).fxRates;
            var active := ActiveMandates(ledger.mandates, now);
            var key := intent.currency + "/" + to;
            && recorded != Some(map[])
            && (recorded.Some? && key in recorded.value <==> AnyRate(env, active, intent.currency, to))
            && (recorded.Some? && key in recorded.value ==> env.fx.Some? && Some(recorded.value[key]) == env.fx.value(intent.currency, to))
            && (recorded.Some? ==> forall k :: k in recorded.value ==>
                  exists i :: 0 <= i < |active| && k == intent.currency + "/" + active[i].currency)
  {
    hide KnownPayees, SettledCount, ActiveMandates, PeriodSpend, RatesInto, AnyRate;
    RateMeans(env, ActiveMandates(ledger.mandates, now), intent.currency, to);
    NoOtherRates(env, ActiveMandates(ledger.mandates, now), intent.currency);
  }
}
