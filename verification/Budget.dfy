/** Budget and velocity over whole runs.
 *
 *  A meter adds up what ran unattended under one mandate, in one period bucket and
 *  optionally one time window: money net of refunds, or a count of payments. */
module Budget {
  import opened Prelude
  import opened Types
  import opened Calendar
  import opened Store
  import opened Trail
  import opened RiskChain
  import opened Executor
  import opened Effects
  import opened Invariants
  import Gate

  datatype Window = Window(first: Instant, last: Instant)

  datatype Meter = Meter(mandate: Mandate, bucket: Instant, window: Option<Window>, counting: bool)

  predicate InMeter(meter: Meter, at: Instant) {
    && PeriodStart(at, meter.mandate.period) == meter.bucket
    && (meter.window.Some? ==> meter.window.value.first <= at <= meter.window.value.last)
  }

  predicate Metered(meter: Meter, s: StoredIntent) {
    && s.status == Settled
    && s.mandateId == Some(meter.mandate.id)
    && s.settledAt.Some?
    && InMeter(meter, s.settledAt.value)
  }

  function SettledLoad(meter: Meter, auto: set<string>): StoredIntent -> int {
    (s: StoredIntent) =>
      if Metered(meter, s) && s.intent.id in auto then (if meter.counting then 1 else s.Net()) else 0
  }

  function FlightLoad(meter: Meter): Flight -> int {
    (f: Flight) =>
      if f.verdict.mandateId == Some(meter.mandate.id) && InMeter(meter, f.now)
      then (if meter.counting then 1 else f.intent.amount)
      else 0
  }

  /** Settled unattended, net of refunds, plus authorized and still in flight. */
  function Load(w: World, meter: Meter): int {
    Sum(w.ledger.intents, SettledLoad(meter, AutoIds(w.audit))) + Sum(w.flights, FlightLoad(meter))
  }

  // --- the terms of a mandate, and the runs that leave them alone ---

  predicate SameTerms(a: Mandate, b: Mandate) {
    && a.id == b.id && a.currency == b.currency && a.period == b.period
    && a.perTxCap == b.perTxCap && a.perPeriodCap == b.perPeriodCap
  }

  /** The mandate has these terms as soon as it is stored; it may be granted later. */
  predicate TermsIfStored(w: World, m: Mandate) {
    var found := GetMandate(w.ledger.mandates, m.id);
    found.Some? ==> SameTerms(found.value, m)
  }

  /** The step neither amends the mandate's currency, period or caps, nor grants it others. */
  predicate KeepsTerms(step: Step, m: Mandate) {
    && (step.AmendIt? && step.id == m.id ==>
          step.patch.currency.None? && step.patch.period.None? && step.patch.perTxCap.None? && step.patch.perPeriodCap.None?)
    && (step.GrantIt? && step.mandate.id == m.id ==> SameTerms(step.mandate, m))
  }

  /** The step does not launch a converted payment on the mandate: the ledger adds up raw
   *  amounts. Other mandates may be charged in whatever currency they like. */
  predicate SameCurrency(env: Env, w: World, step: Step, m: Mandate) {
    (Launches(env, w, step) && LaunchOf(env, w, step).verdict.mandateId == Some(m.id)) ==>
      env.fx.None? || step.intent.currency == m.currency
  }

  ghost predicate OneCurrency(env: Env, start: World, steps: seq<Step>, m: Mandate) {
    forall n {:trigger steps[n]} :: 0 <= n < |steps| ==> SameCurrency(env, Run(env, start, steps[..n]), steps[n], m)
  }

  ghost predicate Overlap(env: Env, start: World, steps: seq<Step>, k: nat) {
    forall n :: 0 <= n <= |steps| ==> |Run(env, start, steps[..n]).flights| <= k
  }

  /** Runs from a fresh installation with unused ids, at most k executions overlapping, in which
   *  a mandate, whenever it comes to be granted, has the same terms at every moment. */
  ghost predicate TermsKept(env: Env, start: World, steps: seq<Step>, m: Mandate, k: nat) {
    && IsFresh(start)
    && FreshIds(env, start, steps)
    && Overlap(env, start, steps, k)
    && forall n :: 0 <= n <= |steps| ==> TermsIfStored(Run(env, start, steps[..n]), m)
  }

  /** Such a run that charges the mandate in its own currency only. */
  ghost predicate OrderlyRun(env: Env, start: World, steps: seq<Step>, m: Mandate, k: nat) {
    TermsKept(env, start, steps, m, k) && OneCurrency(env, start, steps, m)
  }

  lemma TermsPrefix(env: Env, start: World, steps: seq<Step>, m: Mandate, k: nat)
    requires TermsKept(env, start, steps, m, k) && steps != []
    ensures TermsKept(env, start, steps[..|steps| - 1], m, k)
  {
    hide Next, TermsIfStored;
    var n := |steps| - 1;
    FreshPrefix(env, start, steps);
    forall j | 0 <= j <= n
      ensures |Run(env, start, steps[..n][..j]).flights| <= k && TermsIfStored(Run(env, start, steps[..n][..j]), m)
    {
      RunPrefix(steps, j, n);
    }
  }

  lemma TermsNow(env: Env, start: World, steps: seq<Step>, m: Mandate, k: nat)
    requires TermsKept(env, start, steps, m, k)
    ensures TermsIfStored(Run(env, start, steps), m) && |Run(env, start, steps).flights| <= k
  {
    hide Run, TermsIfStored;
    assert steps[..|steps|] == steps;
  }

  lemma OneCurrencyPrefix(env: Env, start: World, steps: seq<Step>, m: Mandate)
    requires OneCurrency(env, start, steps, m) && steps != []
    ensures OneCurrency(env, start, steps[..|steps| - 1], m)
    ensures SameCurrency(env, Run(env, start, steps[..|steps| - 1]), steps[|steps| - 1], m)
  {
    hide Run, SameCurrency;
    var n := |steps| - 1;
    forall j | 0 <= j < n ensures SameCurrency(env, Run(env, start, steps[..n][..j]), steps[..n][j], m) {
      RunPrefix(steps, j, n);
      assert steps[..n][j] == steps[j];
    }
  }

  lemma MandateIndexIs(mandates: seq<Mandate>, j: nat)
    requires DistinctMandates(mandates) && j < |mandates|
    ensures MandateIndex(mandates, mandates[j].id) == j
  {
  }

  lemma PatchSpares(mandates: seq<Mandate>, id: string, p: MandatePatch, m: Mandate)
    requires DistinctMandates(mandates) && GetMandate(mandates, m.id) == Some(m)
    ensures GetMandate(PatchMandate(mandates, id, p), m.id) == Some(if id == m.id then Patched(m, p) else m)
  {
    var i, j := MandateIndex(mandates, id), MandateIndex(mandates, m.id);
    if i >= 0 {
      var patched := PatchMandate(mandates, id, p);
      assert patched[j].id == m.id;
      MandateIndexIs(patched, j);
    }
  }

  lemma NextKeepsTerms(env: Env, w: World, step: Step, m: Mandate)
    requires DistinctMandates(w.ledger.mandates) && TermsIfStored(w, m) && KeepsTerms(step, m)
    ensures TermsIfStored(Next(env, w, step), m)
  {
    NextMandates(env, w, step);
    hide Next;
    var mandates := w.ledger.mandates;
    var j := MandateIndex(mandates, m.id);
    match step {
      case GrantIt(g, now) =>
        if j >= 0 {
          assert (mandates + [g])[j].id == m.id;
        }
      case AmendIt(id, patch, now) => PatchKeepsTerms(w, id, patch, m);
      case RevokeIt(id, now) => PatchKeepsTerms(w, id, REVOKE, m);
      case _ =>
    }
  }

  lemma PatchKeepsTerms(w: World, id: string, patch: MandatePatch, m: Mandate)
    requires DistinctMandates(w.ledger.mandates) && TermsIfStored(w, m)
    requires id == m.id ==> patch.currency.None? && patch.period.None? && patch.perTxCap.None? && patch.perPeriodCap.None?
    ensures var found := GetMandate(PatchMandate(w.ledger.mandates, id, patch), m.id); found.Some? ==> SameTerms(found.value, m)
  {
    var j := MandateIndex(w.ledger.mandates, m.id);
    if j >= 0 {
      PatchSpares(w.ledger.mandates, id, patch, w.ledger.mandates[j]);
    } else if MandateIndex(w.ledger.mandates, id) >= 0 {
      var patched := PatchMandate(w.ledger.mandates, id, patch);
      assert forall i :: 0 <= i < |patched| ==> patched[i].id == w.ledger.mandates[i].id;
    }
  }

  /** The terms of a mandate are kept by every run that never amends them and grants it no
   *  others. */
  lemma {:induction false} UnamendedTermsStay(env: Env, start: World, steps: seq<Step>, m: Mandate)
    requires IsFresh(start) && TermsIfStored(start, m) && forall step :: step in steps ==> KeepsTerms(step, m)
    ensures forall n :: 0 <= n <= |steps| ==> TermsIfStored(Run(env, start, steps[..n]), m)
    ensures DistinctMandates(Run(env, start, steps).ledger.mandates)
  {
    hide Next, TermsIfStored, KeepsTerms;
    if steps != [] {
      var k := |steps| - 1;
      assert steps[..|steps|] == steps;
      assert forall step :: step in steps[..k] ==> step in steps;
      UnamendedTermsStay(env, start, steps[..k], m);
      assert steps[..k][..k] == steps[..k];
      NextKeepsTerms(env, Run(env, start, steps[..k]), steps[k], m);
      MandatesStayDistinct(env, Run(env, start, steps[..k]), steps[k]);
      forall n | 0 <= n <= |steps|
        ensures TermsIfStored(Run(env, start, steps[..n]), m)
      {
        if n < |steps| {
          RunPrefix(steps, n, k);
        }
      }
    } else {
      assert steps[..0] == steps;
    }
  }

  // --- how each step moves a meter ---

  /** The settled part of a meter reads the unattended ids only at the ids it stores. */
  lemma NewAutoId(intents: seq<StoredIntent>, meter: Meter, auto: set<string>, id: string)
    requires forall s :: s in intents ==> s.intent.id != id
    ensures Sum(intents, SettledLoad(meter, auto + {id})) == Sum(intents, SettledLoad(meter, auto))
  {
    SumEq(intents, SettledLoad(meter, auto + {id}), SettledLoad(meter, auto));
  }

  lemma LaunchingLoad(w: World, f: Flight, w': World, meter: Meter)
    requires w'.ledger.intents == w.ledger.intents && w'.flights == w.flights + [f]
    requires AutoIds(w'.audit) == AutoIds(w.audit) + {f.intent.id} && !IdInUse(w, f.intent.id)
    ensures Load(w', meter) == Load(w, meter) + FlightLoad(meter)(f)
  {
    SumAppend(w.flights, f, FlightLoad(meter));
    UnusedIsNotStored(w, f.intent.id);
    NewAutoId(w.ledger.intents, meter, AutoIds(w.audit), f.intent.id);
  }

  lemma LandingLoad(w: World, i: nat, s: StoredIntent, events: seq<Event>, w': World, meter: Meter)
    requires Shape(w, w', Landing(i, s), events) && LandingEvents(w.flights[i], s, events)
    requires SoundFlight(w.flights[i]) && AutoIds(w'.audit) == AutoIds(w.audit)
    ensures Load(w', meter) <= Load(w, meter)
  {
    var load := SettledLoad(meter, AutoIds(w.audit));
    SumRemove(w.flights, i, FlightLoad(meter));
    SumAppend(w.ledger.intents, s, load);
    assert load(s) <= FlightLoad(meter)(w.flights[i]);
  }

  lemma ChangingLoad(w: World, i: nat, s: StoredIntent, events: seq<Event>, w': World, meter: Meter)
    requires Inv(w) && Shape(w, w', Changing(i, s), events) && ChangingEvents(w.ledger.intents[i], s, events)
    requires AutoIds(w'.audit) == AutoIds(w.audit)
    ensures Load(w', meter) <= Load(w, meter)
  {
    var load := SettledLoad(meter, AutoIds(w.audit));
    SumUpdate(w.ledger.intents, i, s, load);
    var was := w.ledger.intents[i];
    assert was.status == Pending ==> was.intent.id !in AutoIds(w.audit);
    assert load(s) <= load(was);
  }

  /** Only an authorization adds to a meter, and it adds its own weight. */
  lemma EffectLoad(w: World, step: Step, w': World, effect: Effect, events: seq<Event>, meter: Meter)
    requires Inv(w) && FreshStep(w, step)
    requires Shape(w, w', effect, events) && Explains(w, step, effect, events)
    ensures if effect.Launching? then Load(w', meter) == Load(w, meter) + FlightLoad(meter)(effect.f)
            else Load(w', meter) <= Load(w, meter)
  {
    EffectAutoIds(w, step, w', effect, events);
    assert !effect.Launching? ==> AutoIds(w'.audit) == AutoIds(w.audit);
    match effect {
      case Filing(s) =>
        SumAppend(w.ledger.intents, s, SettledLoad(meter, AutoIds(w.audit)));
      case Launching(f) => LaunchingLoad(w, f, w', meter);
      case Landing(i, s) => LandingLoad(w, i, s, events, w', meter);
      case Changing(i, s) => ChangingLoad(w, i, s, events, w', meter);
      case Standing =>
    }
  }

  // --- what an authorization proves ---

  /** What the meter has seen settle is part of what the gate is shown. */
  lemma {:induction false} MeterSeenByGate(intents: seq<StoredIntent>, meter: Meter, auto: set<string>)
    requires forall s :: s in intents ==> SoundIntent(s)
    requires !meter.counting
    ensures Sum(intents, SettledLoad(meter, auto)) <= Sum(SpendFrom(intents, meter.mandate.id, meter.bucket), Gate.SpendAmount())
  {
    if intents != [] {
      var n := |intents| - 1;
      var s := intents[n];
      assert s in intents;
      MeterSeenByGate(intents[..n], meter, auto);
      if s.settledAt.Some? {
        PeriodBuckets(s.settledAt.value, s.settledAt.value, meter.mandate.period);
      }
      if CountsFrom(s, meter.mandate.id, meter.bucket) {
        SumAppend(SpendFrom(intents[..n], meter.mandate.id, meter.bucket), PriorSpend(s.Net(), s.settledAt.value), Gate.SpendAmount());
      } else {
        assert SpendFrom(intents, meter.mandate.id, meter.bucket) == SpendFrom(intents[..n], meter.mandate.id, meter.bucket);
      }
    }
  }

  lemma {:induction false} CountSeenByGate(intents: seq<StoredIntent>, meter: Meter, auto: set<string>, since: Instant)
    requires meter.counting && meter.window.Some? && since <= meter.window.value.first
    ensures Sum(intents, SettledLoad(meter, auto)) <= Sum(SpendFrom(intents, meter.mandate.id, meter.bucket), Gate.SpentSince(since))
  {
    if intents != [] {
      var n := |intents| - 1;
      var s := intents[n];
      CountSeenByGate(intents[..n], meter, auto, since);
      if s.settledAt.Some? {
        PeriodBuckets(s.settledAt.value, s.settledAt.value, meter.mandate.period);
      }
      if CountsFrom(s, meter.mandate.id, meter.bucket) {
        SumAppend(SpendFrom(intents[..n], meter.mandate.id, meter.bucket), PriorSpend(s.Net(), s.settledAt.value), Gate.SpentSince(since));
      } else {
        assert SpendFrom(intents, meter.mandate.id, meter.bucket) == SpendFrom(intents[..n], meter.mandate.id, meter.bucket);
      }
    }
  }

  /** The mandate a launch is charged to is the stored one. */
  lemma ChargedMandate(env: Env, w: World, step: Step, m: Mandate)
    requires Inv(w) && Launches(env, w, step)
    requires LaunchOf(env, w, step).verdict.mandateId == Some(m.id)
    ensures GetMandate(w.ledger.mandates, m.id).Some?
    ensures var ctx := Context(env, w.ledger, step.intent, step.attestation, step.now);
            && LaunchOf(env, w, step).verdict == Gate.Decide(step.intent, ctx)
            && Gate.Floor(step.intent, ctx).None?
            && Gate.Authority(ctx.mandates, step.intent, ctx.now, ctx.convert) == GetMandate(w.ledger.mandates, m.id)
  {
    hide Verdict, Gate.Decide, Gate.Floor, Gate.Authority, Gate.Covers, ActiveMandates, Inv;
    AutoVerdict(env, w, step.intent, step.attestation, step.now);
    var ctx := Context(env, w.ledger, step.intent, step.attestation, step.now);
    Gate.AutoExecuteIff(step.intent, ctx);
    VerdictNamesAuthority(step.intent, ctx);
    Gate.AuthorityIsFirst(ctx.mandates, step.intent, ctx.now, ctx.convert);
    ActiveAreStored(w.ledger.mandates, step.now);
    var chosen := Gate.Authority(ctx.mandates, step.intent, ctx.now, ctx.convert).value;
    StoredUnderItsId(w, chosen);
  }

  lemma VerdictNamesAuthority(intent: PaymentIntent, ctx: GateContext)
    requires Gate.Decide(intent, ctx).outcome == AutoExecute
    ensures var found := Gate.Authority(ctx.mandates, intent, ctx.now, ctx.convert);
            found.Some? && Gate.Decide(intent, ctx).mandateId == Some(found.value.id)
  {
    hide Gate.Floor, Gate.Authority;
  }

  lemma StoredUnderItsId(w: World, m: Mandate)
    requires Inv(w) && m in w.ledger.mandates
    ensures GetMandate(w.ledger.mandates, m.id) == Some(m)
  {
    hide SoundIntent, SoundFlight, AutoIdsPlaced, AutoIds, FlightsApart;
  }

  /** What a launch is worth in the currency of the mandate it is charged to. */
  function WorthIn(env: Env, step: Step, m: Mandate): int
    requires step.Begin?
  {
    Gate.AmountIn(m, step.intent, LiveConvert(env))
  }

  /** A launch on a mandate fits both caps and the ceiling as the ledger stands; the amount is
   *  the converted one. */
  lemma LaunchWithinCaps(env: Env, w: World, step: Step, m: Mandate)
    requires Inv(w) && TermsIfStored(w, m) && Launches(env, w, step)
    requires LaunchOf(env, w, step).verdict.mandateId == Some(m.id)
    ensures var spend := SpendFrom(w.ledger.intents, m.id, PeriodStart(step.now, m.period));
            && 0 < step.intent.amount && WorthIn(env, step, m) <= m.perTxCap
            && Sum(spend, Gate.SpendAmount()) + WorthIn(env, step, m) <= m.perPeriodCap
            && Sum(spend, Gate.SpentSince(Gate.WindowStart(step.now, env.config))) < env.config.velocityMaxCount
  {
    hide Verdict, Inv, Gate.Decide, Gate.Authority, Gate.Floor, ActiveMandates, SpendFrom;
    ChargedMandate(env, w, step, m);
    PositiveLaunch(env, w, step);
    Gate.AutoExecuteIff(step.intent, Context(env, w.ledger, step.intent, step.attestation, step.now));
  }

  lemma PositiveLaunch(env: Env, w: World, step: Step)
    requires Launches(env, w, step)
    ensures step.intent.amount > 0
  {
    hide Verdict;
    AutoVerdict(env, w, step.intent, step.attestation, step.now);
  }

  /** Within one currency a payment is worth its amount. */
  lemma WorthIsAmount(env: Env, w: World, step: Step, m: Mandate)
    requires Launches(env, w, step) && SameCurrency(env, w, step, m)
    requires LaunchOf(env, w, step).verdict.mandateId == Some(m.id)
    ensures WorthIn(env, step, m) == step.intent.amount
  {
    hide Launches, LaunchOf;
  }

  /** A launch that a meter sees was measured against everything the meter has seen settle. */
  lemma LaunchWithinMeter(env: Env, w: World, step: Step, meter: Meter, limit: int)
    requires Inv(w) && TermsIfStored(w, meter.mandate) && Launches(env, w, step)
    requires FitsMeter(env, meter, limit) && (meter.counting || SameCurrency(env, w, step, meter.mandate))
    requires FlightLoad(meter)(LaunchOf(env, w, step)) > 0
    ensures Sum(w.ledger.intents, SettledLoad(meter, AutoIds(w.audit))) + FlightLoad(meter)(LaunchOf(env, w, step)) <= limit
    ensures FlightLoad(meter)(LaunchOf(env, w, step)) <= Unit(meter)
  {
    hide Inv, Launches, LaunchOf, SameCurrency, WorthIn, TermsIfStored, SettledLoad, AutoIds;
    LaunchIsItsStep(env, w, step);
    IntentsAreSound(w);
    LaunchWithinCaps(env, w, step, meter.mandate);
    SettledIsNoDebt(w.ledger.intents, meter, AutoIds(w.audit));
    if meter.counting {
      CountSeenByGate(w.ledger.intents, meter, AutoIds(w.audit), Gate.WindowStart(step.now, env.config));
    } else {
      WorthIsAmount(env, w, step, meter.mandate);
      MeterSeenByGate(w.ledger.intents, meter, AutoIds(w.audit));
    }
  }

  lemma LaunchIsItsStep(env: Env, w: World, step: Step)
    requires Launches(env, w, step)
    ensures step.Begin? && LaunchOf(env, w, step).intent == step.intent && LaunchOf(env, w, step).now == step.now
  {
  }

  lemma IntentsAreSound(w: World)
    requires Inv(w)
    ensures forall s :: s in w.ledger.intents ==> SoundIntent(s)
  {
  }

  lemma SettledIsNoDebt(intents: seq<StoredIntent>, meter: Meter, auto: set<string>)
    requires forall s :: s in intents ==> SoundIntent(s)
    ensures Sum(intents, SettledLoad(meter, auto)) >= 0
  {
    SumNonNegative(intents, SettledLoad(meter, auto));
  }

  // --- the theorems ---

  /** The most one payment can add to a meter. */
  function Unit(meter: Meter): int {
    if meter.counting then 1 else Min(meter.mandate.perTxCap, meter.mandate.perPeriodCap)
  }

  /** A budget meter is held to the period cap; a counting meter no wider than the
   *  velocity window is held to the velocity ceiling. */
  predicate FitsMeter(env: Env, meter: Meter, limit: int) {
    && 0 <= meter.mandate.perTxCap && 0 <= limit
    && if meter.counting then
         && limit == env.config.velocityMaxCount
         && meter.window.Some?
         && meter.window.value.last - meter.window.value.first <= env.config.velocityWindowMinutes * MINUTE
       else limit == meter.mandate.perPeriodCap
  }

  ghost predicate FlightsFit(w: World, meter: Meter) {
    forall f :: f in w.flights ==> FlightLoad(meter)(f) <= Unit(meter)
  }

  lemma EffectKeepsFlightsFit(w: World, step: Step, w': World, effect: Effect, events: seq<Event>, meter: Meter)
    requires Shape(w, w', effect, events) && FlightsFit(w, meter)
    requires effect.Launching? ==> FlightLoad(meter)(effect.f) <= Unit(meter)
    ensures FlightsFit(w', meter)
  {
    if effect.Landing? {
      LandedFlights(w, effect.i, w'.flights);
    }
  }

  ghost predicate MeterKept(w: World, meter: Meter, limit: int, k: nat) {
    && Inv(w) && TermsIfStored(w, meter.mandate) && FlightsFit(w, meter)
    && Load(w, meter) <= limit + (k - 1) * Unit(meter)
  }

  lemma Times(a: int, b: int, unit: int)
    requires a <= b && 0 <= unit
    ensures a * unit <= b * unit
  {
  }

  /** What the gate measured, plus the k - 1 other flights it could not see. */
  lemma RoomForOneMore(w: World, f: Flight, meter: Meter, limit: int, k: nat)
    requires Sum(w.ledger.intents, SettledLoad(meter, AutoIds(w.audit))) + FlightLoad(meter)(f) <= limit
    requires 0 < FlightLoad(meter)(f) <= Unit(meter)
    requires FlightsFit(w, meter) && |w.flights| + 1 <= k
    ensures Load(w, meter) + FlightLoad(meter)(f) <= limit + (k - 1) * Unit(meter)
  {
    SumBound(w.flights, FlightLoad(meter), Unit(meter));
    Times(|w.flights|, k - 1, Unit(meter));
  }

  /** One step keeps a meter within its limit, if no more than k executions overlap after it. */
  lemma MeterStep(env: Env, w: World, step: Step, meter: Meter, limit: int, k: nat)
    requires MeterKept(w, meter, limit, k) && FitsMeter(env, meter, limit)
    requires FreshStep(w, step) && TermsIfStored(Next(env, w, step), meter.mandate) && (meter.counting || SameCurrency(env, w, step, meter.mandate))
    requires |Next(env, w, step).flights| <= k
    ensures MeterKept(Next(env, w, step), meter, limit, k)
  {
    hide Next, Launches, LaunchOf, Explains, Inv, TermsIfStored, Load, SameCurrency;
    var effect, events := SoundEffect(env, w, step);
    NextKeepsInv(env, w, step);
    var w' := Next(env, w, step);
    EffectLoad(w, step, w', effect, events, meter);
    if effect.Launching? && FlightLoad(meter)(effect.f) > 0 {
      LaunchWithinMeter(env, w, step, meter, limit);
      assert w'.flights == w.flights + [effect.f];
      RoomForOneMore(w, effect.f, meter, limit, k);
    }
    EffectKeepsFlightsFit(w, step, w', effect, events, meter);
  }

  /** With at most k executions overlapping, a meter never exceeds its limit by more than
   *  k - 1 payments. */
  lemma {:induction false} MeterHolds(env: Env, start: World, steps: seq<Step>, meter: Meter, limit: int, k: nat)
    requires k >= 1 && TermsKept(env, start, steps, meter.mandate, k)
    requires FitsMeter(env, meter, limit) && (meter.counting || OneCurrency(env, start, steps, meter.mandate))
    ensures MeterKept(Run(env, start, steps), meter, limit, k)
  {
    hide Next, SameCurrency, TermsIfStored;
    TermsNow(env, start, steps, meter.mandate, k);
    if steps != [] {
      var n := |steps| - 1;
      TermsPrefix(env, start, steps, meter.mandate, k);
      if !meter.counting {
        OneCurrencyPrefix(env, start, steps, meter.mandate);
      }
      FreshPrefix(env, start, steps);
      MeterHolds(env, start, steps[..n], meter, limit, k);
      assert steps[..n + 1] == steps;
      assert steps[n] in steps;
      MeterStep(env, Run(env, start, steps[..n]), steps[n], meter, limit, k);
    } else {
      assert (k - 1) * Unit(meter) >= 0;
    }
  }

  /** BUDGET. In every run with at most k executions overlapping, what ran unattended
   *  under a mandate in one period, net of refunds, plus what is still in flight, is at
   *  most the period cap and k - 1 times the most one payment can be. */
  lemma BudgetHolds(env: Env, start: World, steps: seq<Step>, m: Mandate, bucket: Instant, k: nat)
    requires k >= 1 && OrderlyRun(env, start, steps, m, k)
    requires 0 <= m.perTxCap && 0 <= m.perPeriodCap
    ensures Load(Run(env, start, steps), Meter(m, bucket, None, false)) <= m.perPeriodCap + (k - 1) * Min(m.perTxCap, m.perPeriodCap)
  {
    hide Next;
    MeterHolds(env, start, steps, Meter(m, bucket, None, false), m.perPeriodCap, k);
  }

  /** One execution at a time keeps exactly to the period cap. */
  lemma SequentialBudgetHolds(env: Env, start: World, steps: seq<Step>, m: Mandate, bucket: Instant)
    requires OrderlyRun(env, start, steps, m, 1)
    requires 0 <= m.perTxCap && 0 <= m.perPeriodCap
    ensures Load(Run(env, start, steps), Meter(m, bucket, None, false)) <= m.perPeriodCap
  {
    hide Next, Run, OrderlyRun, Load;
    BudgetHolds(env, start, steps, m, bucket, 1);
  }

  /** Why the bound grows with the overlap: the gate is not shown what is in flight. Two
   *  payments it would each let run from the same state are both let run, and the load grows
   *  by both, whatever was left of the cap. */
  lemma FlightsAreInvisible(env: Env, w: World, first: Step, second: Step, meter: Meter)
    requires Inv(w) && Launches(env, w, first) && Launches(env, w, second)
    requires FreshStep(w, first) && FreshStep(w, second) && first.intent.id != second.intent.id
    requires ChainQuiet(env, Next(env, w, first), second)
    ensures var after := Next(env, w, first);
            && Launches(env, after, second)
            && Load(Next(env, after, second), meter)
               == Load(w, meter) + FlightLoad(meter)(LaunchOf(env, w, first)) + FlightLoad(meter)(LaunchOf(env, w, second))
  {
    var after := Next(env, w, first);
    var effect, events := SoundEffect(env, w, first);
    LedgerKept(env, w, first);
    NextKeepsInv(env, w, first);
    AutoVerdict(env, w, second.intent, second.attestation, second.now);
    hide Next, GateVerdict, ChainVerdict, Load, Shape, Inv;
    assert Verdict(env, after, second.intent, second.attestation, second.now)
        == Verdict(env, w, second.intent, second.attestation, second.now);
    EffectLoad(w, first, after, effect, events, meter);
    StaysFresh(w, first, after, effect, events, second);
    var effect2, events2 := SoundEffect(env, after, second);
    EffectLoad(after, second, Next(env, after, second), effect2, events2, meter);
  }

  /** The detectors have nothing to say about a payment. */
  predicate ChainQuiet(env: Env, w: World, step: Step) {
    step.Begin? ==>
      ChainVerdict(step.intent, w.audit,
                   IsStreaming(w.ledger.mandates, GateVerdict(env, w.ledger, step.intent, step.attestation, step.now)),
                   step.now) == NoAlert
  }

  lemma LedgerKept(env: Env, w: World, step: Step)
    requires Launches(env, w, step)
    ensures Next(env, w, step).ledger == w.ledger
  {
    hide Verdict;
  }

  lemma StaysFresh(w: World, step: Step, w': World, effect: Effect, events: seq<Event>, other: Step)
    requires Shape(w, w', effect, events) && effect.Launching? && other.Begin? && FreshStep(w, other)
    requires effect.f.intent.id != other.intent.id
    ensures FreshStep(w', other)
  {
  }

  /** What the gate counts against a budget although it did not run unattended in the bucket:
   *  payments an operator approved, and any dated after the bucket. */
  function OtherSpend(meter: Meter, auto: set<string>): StoredIntent -> int {
    (s: StoredIntent) =>
      if CountsFrom(s, meter.mandate.id, meter.bucket) && !(Metered(meter, s) && s.intent.id in auto) then s.Net() else 0
  }

  lemma {:induction false} GateCountsBoth(intents: seq<StoredIntent>, meter: Meter, auto: set<string>)
    requires !meter.counting
    ensures Sum(SpendFrom(intents, meter.mandate.id, meter.bucket), Gate.SpendAmount())
         == Sum(intents, SettledLoad(meter, auto)) + Sum(intents, OtherSpend(meter, auto))
  {
    if intents != [] {
      var n := |intents| - 1;
      var s := intents[n];
      GateCountsBoth(intents[..n], meter, auto);
      if s.settledAt.Some? {
        PeriodBuckets(s.settledAt.value, s.settledAt.value, meter.mandate.period);
      }
      if CountsFrom(s, meter.mandate.id, meter.bucket) {
        SumAppend(SpendFrom(intents[..n], meter.mandate.id, meter.bucket), PriorSpend(s.Net(), s.settledAt.value), Gate.SpendAmount());
      } else {
        assert SpendFrom(intents, meter.mandate.id, meter.bucket) == SpendFrom(intents[..n], meter.mandate.id, meter.bucket);
      }
    }
  }

  /** The room the gate reports with a launch is the cap less the ledger's spend and what the
   *  payment is worth. */
  lemma LaunchRoom(env: Env, w: World, step: Step, m: Mandate)
    requires Inv(w) && TermsIfStored(w, m) && Launches(env, w, step)
    requires LaunchOf(env, w, step).verdict.mandateId == Some(m.id)
    ensures LaunchOf(env, w, step).verdict.remaining
         == Some(m.perPeriodCap - Sum(SpendFrom(w.ledger.intents, m.id, PeriodStart(step.now, m.period)), Gate.SpendAmount()) - WorthIn(env, step, m))
  {
    hide Verdict, Inv, Gate.Decide, Gate.Authority, Gate.Floor, ActiveMandates, SpendFrom;
    ChargedMandate(env, w, step, m);
    Gate.AutoRemaining(step.intent, Context(env, w.ledger, step.intent, step.attestation, step.now));
  }

  /** Exactly when a launch keeps to the cap: if and only if what is already in flight fits
   *  into the room the gate reported together with the spend the meter does not count. */
  lemma LaunchKeepsCapIff(env: Env, w: World, step: Step, m: Mandate, bucket: Instant)
    requires Inv(w) && TermsIfStored(w, m) && FreshStep(w, step) && Launches(env, w, step) && SameCurrency(env, w, step, m)
    requires LaunchOf(env, w, step).verdict.mandateId == Some(m.id) && PeriodStart(step.now, m.period) == bucket
    ensures LaunchOf(env, w, step).verdict.remaining.Some?
    ensures var meter := Meter(m, bucket, None, false);
            Load(Next(env, w, step), meter) <= m.perPeriodCap <==>
              Sum(w.flights, FlightLoad(meter))
              <= LaunchOf(env, w, step).verdict.remaining.value + Sum(w.ledger.intents, OtherSpend(meter, AutoIds(w.audit)))
  {
    LaunchRoom(env, w, step, m);
    WorthIsAmount(env, w, step, m);
    hide Next, Verdict, Inv, TermsIfStored, WorthIn, SameCurrency;
    var meter := Meter(m, bucket, None, false);
    var effect, events := SoundEffect(env, w, step);
    EffectLoad(w, step, Next(env, w, step), effect, events, meter);
    GateCountsBoth(w.ledger.intents, meter, AutoIds(w.audit));
  }

  /** VELOCITY. Within one period bucket, any span no longer than the velocity window
   *  holds at most velocityMaxCount + k - 1 unattended payments under a mandate. */
  lemma VelocityHolds(env: Env, start: World, steps: seq<Step>, m: Mandate, bucket: Instant, span: Window, k: nat)
    requires k >= 1 && TermsKept(env, start, steps, m, k)
    requires 0 <= m.perTxCap && 0 <= env.config.velocityMaxCount
    requires span.last - span.first <= env.config.velocityWindowMinutes * MINUTE
    ensures Load(Run(env, start, steps), Meter(m, bucket, Some(span), true)) <= env.config.velocityMaxCount + (k - 1)
  {
    hide Next;
    MeterHolds(env, start, steps, Meter(m, bucket, Some(span), true), env.config.velocityMaxCount, k);
  }

  /** The number of unattended payments settled under a mandate within a span, whatever
   *  buckets it touches. */
  function SettledWithin(w: World, m: Mandate, span: Window): int {
    Sum(w.ledger.intents, SpanCount(m, AutoIds(w.audit), span))
  }

  function SpanCount(m: Mandate, auto: set<string>, span: Window): StoredIntent -> int {
    (s: StoredIntent) =>
      if && s.status == Settled && s.mandateId == Some(m.id) && s.settledAt.Some?
         && span.first <= s.settledAt.value <= span.last && s.intent.id in auto
      then 1 else 0
  }

  /** Across a bucket boundary the ceiling can be reached once on each side, so a span
   *  shorter than every period holds at most twice as many. */
  lemma VelocityAcrossBoundary(env: Env, start: World, steps: seq<Step>, m: Mandate, span: Window, k: nat)
    requires k >= 1 && TermsKept(env, start, steps, m, k)
    requires 0 <= m.perTxCap && 0 <= env.config.velocityMaxCount
    requires 0 <= span.last - span.first <= env.config.velocityWindowMinutes * MINUTE
    requires span.last - span.first < ShortestPeriod(m.period)
    ensures SettledWithin(Run(env, start, steps), m, span) <= 2 * (env.config.velocityMaxCount + (k - 1))
  {
    hide Next;
    var w := Run(env, start, steps);
    var b, c := PeriodStart(span.first, m.period), PeriodStart(span.last, m.period);
    var early, late := Meter(m, b, Some(span), true), Meter(m, c, Some(span), true);
    VelocityHolds(env, start, steps, m, b, span, k);
    VelocityHolds(env, start, steps, m, c, span, k);
    SumNonNegative(w.flights, FlightLoad(early));
    SumNonNegative(w.flights, FlightLoad(late));
    var auto := AutoIds(w.audit);
    forall s | s in w.ledger.intents
      ensures SpanCount(m, auto, span)(s) <= SettledLoad(early, auto)(s) + SettledLoad(late, auto)(s)
    {
      if SpanCount(m, auto, span)(s) == 1 {
        TwoBucketsAtMost(span, s.settledAt.value, m.period);
      }
    }
    SumSplitsBetween(w.ledger.intents, SpanCount(m, auto, span), SettledLoad(early, auto), SettledLoad(late, auto));
  }

  /** A span shorter than every period of its kind meets at most two buckets: those of its ends. */
  lemma TwoBucketsAtMost(span: Window, at: Instant, period: Period)
    requires span.first <= at <= span.last && span.last - span.first < ShortestPeriod(period)
    ensures PeriodStart(at, period) == PeriodStart(span.first, period) || PeriodStart(at, period) == PeriodStart(span.last, period)
  {
    hide PeriodStart;
    PeriodBuckets(span.first, at, period);
    PeriodBuckets(at, span.last, period);
    PeriodBuckets(span.last, span.last, period);
    // A bucket other than the last one's ends within the span, hence starts before it.
    if PeriodStart(at, period) != PeriodStart(span.last, period) {
      StartsApart(at, span.last, period);
    }
  }
}
