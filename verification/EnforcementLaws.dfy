/** When proof of enforcement is faithful: exactly which recorded decisions replay to an
 *  equal verdict under the policy disclosed with them. */
module EnforcementLaws {
  import opened Prelude
  import opened Types
  import opened Risk
  import opened Gate
  import opened GateLaws
  import opened Store
  import opened Fx
  import opened Trail
  import opened FxLaws
  import opened Enforcement
  import opened RiskChain
  import opened Executor

  // --- sorting by id ---

  /** Ids strictly increase. */
  ghost predicate Ascending(mandates: seq<Mandate>) {
    forall i, j :: 0 <= i < j < |mandates| ==> StringLess(mandates[i].id, mandates[j].id)
  }

  lemma {:induction false} InsertAscending(m: Mandate, sorted: seq<Mandate>)
    requires Ascending(sorted)
    requires forall x :: x in sorted ==> x.id != m.id
    ensures Ascending(InsertById(m, sorted))
    ensures forall x :: x in InsertById(m, sorted) <==> x == m || x in sorted
  {
    if sorted == [] {
    } else if !StringLess(sorted[0].id, m.id) {
      StringOrder(sorted[0].id, m.id);
      assert sorted[0] in sorted;
      forall j | 1 <= j < |sorted| ensures StringLess(m.id, sorted[j].id) {
        StringLessTransitive(m.id, sorted[0].id, sorted[j].id);
      }
    } else {
      var rest := InsertById(m, sorted[1..]);
      InsertAscending(m, sorted[1..]);
      forall j | 0 <= j < |rest| ensures StringLess(sorted[0].id, rest[j].id) {
        assert rest[j] in rest;
        if rest[j] != m {
          var k :| 0 <= k < |sorted[1..]| && sorted[1..][k] == rest[j];
          assert sorted[k + 1] == rest[j];
        }
      }
    }
  }

  lemma {:induction false} SortAscending(mandates: seq<Mandate>)
    requires DistinctMandates(mandates)
    ensures Ascending(SortById(mandates))
    ensures forall x :: x in SortById(mandates) <==> x in mandates
  {
    if mandates != [] {
      SortAscending(mandates[1..]);
      forall x | x in SortById(mandates[1..]) ensures x.id != mandates[0].id {
        var k :| 0 <= k < |mandates[1..]| && mandates[1..][k] == x;
        assert mandates[k + 1] == x;
      }
      InsertAscending(mandates[0], SortById(mandates[1..]));
    }
  }

  // --- the rebuilt context ---

  /** The live conversion, were there no decimals table. */
  function StandardConvert(env: Env): Option<Converter> {
    LiveConvert(env.(tokenDecimals := None))
  }

  lemma KeysDiffer(from: string, a: string, b: string)
    requires RateKey(from, a) == RateKey(from, b)
    ensures a == b
  {
    assert a == RateKey(from, a)[|from| + 1..];
    assert b == RateKey(from, b)[|from| + 1..];
  }

  /** The recorded rates are the live ones, for every currency a live mandate uses. */
  lemma {:induction false} RatesRecorded(env: Env, active: seq<Mandate>, currency: string, m: Mandate)
    requires env.fx.Some? && m.currency != currency
    ensures var rates := RatesInto(env, active, currency);
            var key := RateKey(currency, m.currency);
            && (key in rates ==> env.fx.value(currency, m.currency) == Some(rates[key]))
            && (m in active && env.fx.value(currency, m.currency).Some? ==> key in rates)
  {
    if active != [] {
      var n := |active| - 1;
      RatesRecorded(env, active[..n], currency, m);
      var to := active[n].currency;
      if to != m.currency && RateKey(currency, to) == RateKey(currency, m.currency) {
        KeysDiffer(currency, to, m.currency);
      }
    }
  }

  /** Seen through the record, a live mandate covers a payment as it did live, and measures it
   *  as it would have without a decimals table. */
  lemma SameMeasure(env: Env, ledger: Ledger, intent: PaymentIntent, att: Option<Attestation>, now: Instant, m: Mandate)
    requires m in ActiveMandates(ledger.mandates, now)
    ensures var inputs := InputsOf(env, ledger, intent, att, now);
            var recorded := if inputs.fxRates.Some? then Some(RecordedConvert(inputs.fxRates.value)) else None;
            && Covers(m, intent, LiveConvert(env)) == Covers(m, intent, recorded)
            && (Covers(m, intent, recorded) ==> AmountIn(m, intent, recorded) == AmountIn(m, intent, StandardConvert(env)))
  {
    var active := ActiveMandates(ledger.mandates, now);
    if env.fx.Some? && m.currency != intent.currency {
      RatesRecorded(env, active, intent.currency, m);
    }
    hide ConvertMinorCrossDecimal, MinorUnitExponent, InScope, PeriodSpend, KnownPayees;
  }

  lemma SameFloor(env: Env, w: World, intent: PaymentIntent, att: Option<Attestation>, now: Instant)
    ensures var e := DecisionEvent(env, w, intent, att, now);
            Floor(intent, Context(env, w.ledger, intent, att, now)) == Floor(intent, ReplayContext(e, e.policy, env.denyRules))
  {
  }

  /** The replay picks the covering mandate with the least id. */
  lemma ReplayPick(env: Env, w: World, intent: PaymentIntent, att: Option<Attestation>, now: Instant)
    requires DistinctMandates(w.ledger.mandates)
    ensures var e := DecisionEvent(env, w, intent, att, now);
            var ctx := ReplayContext(e, e.policy, env.denyRules);
            var live := LiveConvert(env);
            match Authority(ctx.mandates, intent, now, ctx.convert) {
              case None => forall m :: m in w.ledger.mandates ==> !Authorizes(m, intent, now, live)
              case Some(p) =>
                && p in w.ledger.mandates && Authorizes(p, intent, now, live)
                && forall m :: m in w.ledger.mandates && Authorizes(m, intent, now, live) ==> m == p || StringLess(p.id, m.id)
            }
  {
    var e := DecisionEvent(env, w, intent, att, now);
    var ctx := ReplayContext(e, e.policy, env.denyRules);
    var sorted := ctx.mandates;
    SortAscending(w.ledger.mandates);
    AuthorityIsFirst(sorted, intent, now, ctx.convert);
    ActiveAreStored(w.ledger.mandates, now);
    forall m | m in w.ledger.mandates && IsLive(m, now)
      ensures Covers(m, intent, LiveConvert(env)) == Covers(m, intent, ctx.convert)
    {
      SameMeasure(env, w.ledger, intent, att, now, m);
    }
    hide Covers, SortById, InputsOf;
    match Authority(sorted, intent, now, ctx.convert) {
      case None =>
      case Some(p) =>
        forall m | m in w.ledger.mandates && Authorizes(m, intent, now, LiveConvert(env))
          ensures m == p || StringLess(p.id, m.id)
        {
          assert m in sorted;
        }
    }
  }

  /** The live gate picks the covering mandate listed first. */
  lemma LivePick(env: Env, ledger: Ledger, intent: PaymentIntent, att: Option<Attestation>, now: Instant)
    ensures match Authority(ActiveMandates(ledger.mandates, now), intent, now, LiveConvert(env)) {
              case None => forall m :: m in ledger.mandates ==> !Authorizes(m, intent, now, LiveConvert(env))
              case Some(p) => p in ledger.mandates && Authorizes(p, intent, now, LiveConvert(env))
            }
  {
    AuthorityIsFirst(ActiveMandates(ledger.mandates, now), intent, now, LiveConvert(env));
    ActiveAreStored(ledger.mandates, now);
  }

  /** The same pick is judged the same. */
  lemma SameJudgement(env: Env, w: World, intent: PaymentIntent, att: Option<Attestation>, now: Instant, p: Mandate)
    requires p in w.ledger.mandates && Authorizes(p, intent, now, LiveConvert(env))
    ensures var live := Context(env, w.ledger, intent, att, now);
            var e := DecisionEvent(env, w, intent, att, now);
            var ctx := ReplayContext(e, e.policy, env.denyRules);
            && SignalsOf(intent, live) == SignalsOf(intent, ctx)
            && live.periodSpend(p.id) == ctx.periodSpend(p.id)
            && AmountIn(p, intent, ctx.convert) == AmountIn(p, intent, StandardConvert(env))
  {
    ActiveAreStored(w.ledger.mandates, now);
    SameMeasure(env, w.ledger, intent, att, now, p);
  }

  /** The detectors turned an unattended payment into one to confirm. */
  predicate WasEscalated(env: Env, w: World, intent: PaymentIntent, att: Option<Attestation>, now: Instant) {
    && GateVerdict(env, w.ledger, intent, att, now).outcome == AutoExecute
    && Verdict(env, w, intent, att, now).outcome != AutoExecute
  }

  /** The mandate the gate picked, if it came to that, has the least id among those it
   *  could have picked. One covering mandate at most always satisfies it. */
  ghost predicate PickHasLeastId(env: Env, ledger: Ledger, intent: PaymentIntent, att: Option<Attestation>, now: Instant) {
    var live := Context(env, ledger, intent, att, now);
    var pick := Authority(live.mandates, intent, now, live.convert);
    || Floor(intent, live).Some?
    || pick.None?
    || forall m :: m in ledger.mandates && Authorizes(m, intent, now, live.convert)
                   ==> m == pick.value || StringLess(pick.value.id, m.id)
  }

  /** Live and replayed, the gate judges the same mandate by the same spend and signals, but
   *  for the amount; or it names different mandates. */
  lemma ReplayedVerdict(env: Env, w: World, intent: PaymentIntent, att: Option<Attestation>, now: Instant)
    requires DistinctMandates(w.ledger.mandates)
    ensures var ctx := Context(env, w.ledger, intent, att, now);
            var live := GateVerdict(env, w.ledger, intent, att, now);
            var e := DecisionEvent(env, w, intent, att, now);
            var replayed := Decide(intent, ReplayContext(e, e.policy, env.denyRules));
            var pick := Authority(ctx.mandates, intent, now, ctx.convert);
            if Floor(intent, ctx).Some? || pick.None? then replayed == live
            else if PickHasLeastId(env, w.ledger, intent, att, now) then
              var p := pick.value;
              && live == Judge(intent, p, AmountIn(p, intent, LiveConvert(env)), ctx.periodSpend(p.id), SignalsOf(intent, ctx), now, env.config)
              && replayed == Judge(intent, p, AmountIn(p, intent, StandardConvert(env)), ctx.periodSpend(p.id), SignalsOf(intent, ctx), now, env.config)
            else replayed.mandateId != live.mandateId
  {
    var live := Context(env, w.ledger, intent, att, now);
    var e := DecisionEvent(env, w, intent, att, now);
    var ctx := ReplayContext(e, e.policy, env.denyRules);
    SameFloor(env, w, intent, att, now);
    LivePick(env, w.ledger, intent, att, now);
    ReplayPick(env, w, intent, att, now);
    var p := Authority(live.mandates, intent, now, live.convert);
    var q := Authority(ctx.mandates, intent, now, ctx.convert);
    assert live.convert == LiveConvert(env) && live.now == now == ctx.now && live.config == ctx.config == env.config;
    assert live.mandates == ActiveMandates(w.ledger.mandates, now);
    if p.Some? {
      SameJudgement(env, w, intent, att, now, p.value);
    }
    hide Floor, Authorizes, SortById, Authority, SignalsOf, AmountIn, DecisionEvent, ReplayContext, Context, StringLess, Judge,
         StandardConvert, LiveConvert;
    if Floor(intent, live).None? && p.Some? {
      if p == q {
        assert PickHasLeastId(env, w.ledger, intent, att, now);
      } else {
        VerdictNamesPick(intent, live);
        VerdictNamesPick(intent, ctx);
        MandatesWithOneId(w.ledger.mandates, p.value, q.value);
        StringOrder(p.value.id, q.value.id);
      }
    }
  }

  predicate OverACap(m: Mandate, spend: seq<PriorSpend>, amount: int) {
    amount > m.perTxCap || Sum(spend, SpendAmount()) + amount > m.perPeriodCap
  }

  /** The converted amount does not matter to the comparison only where both are over a cap. */
  predicate MeasuredAlike(env: Env, ledger: Ledger, intent: PaymentIntent, att: Option<Attestation>, now: Instant) {
    var ctx := Context(env, ledger, intent, att, now);
    var pick := Authority(ctx.mandates, intent, now, ctx.convert);
    || Floor(intent, ctx).Some?
    || pick.None?
    || var m := pick.value;
       var live, standard := AmountIn(m, intent, LiveConvert(env)), AmountIn(m, intent, StandardConvert(env));
       || live == standard
       || (OverACap(m, ctx.periodSpend(m.id), live) && OverACap(m, ctx.periodSpend(m.id), standard))
  }

  lemma JudgedAlikeIff(
    intent: PaymentIntent, m: Mandate, a: int, b: int, spend: seq<PriorSpend>, signals: Signals, now: Instant, config: GateConfig)
    ensures var x, y := Judge(intent, m, a, spend, signals, now, config), Judge(intent, m, b, spend, signals, now, config);
            && (VerdictsEqual(x, y) <==> a == b || (OverACap(m, spend, a) && OverACap(m, spend, b)))
            && (x.outcome != y.outcome ==> x.outcome == Block || y.outcome == Block)
            && x.mandateId == y.mandateId == Some(m.id)
  {
    hide ClassifySpendRisk, RecentCount, Sum;
  }

  /** FAITHFULNESS, exactly. A recorded decision replays to an equal verdict under its own
   *  policy snapshot if and only if the detectors did not escalate it, the mandate the gate
   *  picked in list order is also the first in id order, and the standard decimals measure
   *  the payment as the operator's did, or both find it over a cap. */
  lemma ReplayMatchesIff(env: Env, w: World, intent: PaymentIntent, att: Option<Attestation>, now: Instant)
    requires DistinctMandates(w.ledger.mandates)
    ensures var e := DecisionEvent(env, w, intent, att, now);
            ReplayMatches(e, e.policy, env.denyRules) <==>
              && !WasEscalated(env, w, intent, att, now)
              && PickHasLeastId(env, w.ledger, intent, att, now)
              && MeasuredAlike(env, w.ledger, intent, att, now)
  {
    ReplayedVerdict(env, w, intent, att, now);
    var ctx := Context(env, w.ledger, intent, att, now);
    var pick := Authority(ctx.mandates, intent, now, ctx.convert);
    if Floor(intent, ctx).None? && pick.Some? && PickHasLeastId(env, w.ledger, intent, att, now) {
      var p := pick.value;
      JudgedAlikeIff(intent, p, AmountIn(p, intent, StandardConvert(env)), AmountIn(p, intent, LiveConvert(env)),
                     ctx.periodSpend(p.id), SignalsOf(intent, ctx), now, env.config);
    }
    assert Floor(intent, ctx).Some? || pick.None? ==> PickHasLeastId(env, w.ledger, intent, att, now);
    hide GateVerdict, ChainVerdict, PickHasLeastId, Decide, ReplayContext, IsStreaming, Judge, Floor, Authority, OverACap, AmountIn, SignalsOf,
         Context, InputsOf;
  }

  lemma MandatesWithOneId(mandates: seq<Mandate>, a: Mandate, b: Mandate)
    requires DistinctMandates(mandates) && a in mandates && b in mandates && a != b
    ensures a.id != b.id
  {
  }

  // --- token decimals ---

  /** An operator's decimals table leaves every conversion this decision can need unchanged. */
  predicate DecimalsAgree(env: Env, active: seq<Mandate>, currency: string) {
    forall i :: 0 <= i < |active| ==> Shift(currency, active[i].currency, env.tokenDecimals) == Shift(currency, active[i].currency, None)
  }

  lemma SameShiftSameAmount(env: Env, intent: PaymentIntent, m: Mandate)
    requires Shift(intent.currency, m.currency, env.tokenDecimals) == Shift(intent.currency, m.currency, None)
    ensures AmountIn(m, intent, LiveConvert(env)) == AmountIn(m, intent, StandardConvert(env))
  {
    hide Shift, ConvertMinorCrossDecimal;
    if env.fx.Some? {
      var rate := env.fx.value(intent.currency, m.currency);
      if rate.Some? {
        SameShiftSameConversion(intent.amount, rate.value, intent.currency, m.currency, env.tokenDecimals);
      }
    }
  }

  lemma AgreeingDecimals(env: Env, ledger: Ledger, intent: PaymentIntent, att: Option<Attestation>, now: Instant)
    requires DecimalsAgree(env, ActiveMandates(ledger.mandates, now), intent.currency)
    ensures MeasuredAlike(env, ledger, intent, att, now)
  {
    var ctx := Context(env, ledger, intent, att, now);
    var pick := Authority(ctx.mandates, intent, now, ctx.convert);
    AuthorityIsFirst(ctx.mandates, intent, now, ctx.convert);
    if pick.Some? {
      SameShiftSameAmount(env, intent, pick.value);
    }
    hide Floor, Authority, Covers, AmountIn, Shift, LiveConvert;
  }

  /** With at most one live mandate covering the payment, and no table that moves the amount,
   *  only escalation can spoil replay. */
  lemma FaithfulUnderOneMandate(env: Env, w: World, intent: PaymentIntent, att: Option<Attestation>, now: Instant)
    requires DistinctMandates(w.ledger.mandates)
    requires DecimalsAgree(env, ActiveMandates(w.ledger.mandates, now), intent.currency)
    requires AtMostOneAuthorizes(w.ledger.mandates, intent, now, LiveConvert(env))
    requires !WasEscalated(env, w, intent, att, now)
    ensures var e := DecisionEvent(env, w, intent, att, now); ReplayMatches(e, e.policy, env.denyRules)
  {
    ReplayMatchesIff(env, w, intent, att, now);
    AgreeingDecimals(env, w.ledger, intent, att, now);
    LivePick(env, w.ledger, intent, att, now);
    hide ReplayMatches, DecisionEvent, WasEscalated, MeasuredAlike, Floor, Authorizes;
  }

  // --- tampering ---

  /** A record that replays stops replaying exactly when its outcome, its mandate, its risk tier
   *  or its remaining budget is changed; its reasons and the score are not part of the claim. */
  lemma TamperingShows(record: Event, policy: EffectivePolicy, denyRules: seq<DenyRule>, forged: GateDecision)
    requires record.AgentDecision? && ReplayMatches(record, policy, denyRules)
    ensures ReplayMatches(record.(verdict := forged), policy, denyRules) <==>
              && forged.outcome == record.verdict.outcome && forged.mandateId == record.verdict.mandateId
              && forged.risk.tier == record.verdict.risk.tier && forged.remaining == record.verdict.remaining
  {
    hide Decide;
    assert ReplayContext(record.(verdict := forged), policy, denyRules) == ReplayContext(record, policy, denyRules);
  }
}
