/** The budget in the mandate's own currency, when payments are converted into it: exactly when
 *  a launch, and a whole run, keeps to the period cap. */
module FxBudget {
  import opened Prelude
  import opened Types
  import opened Calendar
  import opened Store
  import opened Fx
  import opened FxLaws
  import opened Trail
  import opened Executor
  import opened Effects
  import opened Invariants
  import opened Budget
  import Gate

  /** What an amount of a payment's currency is worth in the mandate's. */
  function Worth(env: Env, m: Mandate, intent: PaymentIntent, amount: int): int {
    Gate.AmountIn(m, intent.(amount := amount), LiveConvert(env))
  }

  function InBucket(m: Mandate, bucket: Instant): Meter {
    Meter(m, bucket, None, false)
  }

  function SettledWorth(env: Env, m: Mandate, bucket: Instant, auto: set<string>): StoredIntent -> int {
    (s: StoredIntent) => if Metered(InBucket(m, bucket), s) && s.intent.id in auto then Worth(env, m, s.intent, s.Net()) else 0
  }

  function FlightWorth(env: Env, m: Mandate, bucket: Instant): Flight -> int {
    (f: Flight) =>
      if f.verdict.mandateId == Some(m.id) && InMeter(InBucket(m, bucket), f.now) then Worth(env, m, f.intent, f.intent.amount) else 0
  }

  /** The load of a budget, each payment at its worth in the mandate's currency. */
  function WorthLoad(env: Env, w: World, m: Mandate, bucket: Instant): int {
    Sum(w.ledger.intents, SettledWorth(env, m, bucket, AutoIds(w.audit))) + Sum(w.flights, FlightWorth(env, m, bucket))
  }

  /** Without conversion the worth is the amount. */
  lemma WorthLoadIsLoad(env: Env, w: World, m: Mandate, bucket: Instant)
    requires env.fx.None?
    ensures WorthLoad(env, w, m, bucket) == Load(w, InBucket(m, bucket))
  {
    SumEq(w.ledger.intents, SettledWorth(env, m, bucket, AutoIds(w.audit)), SettledLoad(InBucket(m, bucket), AutoIds(w.audit)));
    SumEq(w.flights, FlightWorth(env, m, bucket), FlightLoad(InBucket(m, bucket)));
  }

  // --- one launch ---

  /** A launch adds its worth. */
  lemma LaunchingWorth(env: Env, w: World, f: Flight, w': World, m: Mandate, bucket: Instant)
    requires w'.ledger.intents == w.ledger.intents && w'.flights == w.flights + [f]
    requires AutoIds(w'.audit) == AutoIds(w.audit) + {f.intent.id} && !IdInUse(w, f.intent.id)
    ensures WorthLoad(env, w', m, bucket) == WorthLoad(env, w, m, bucket) + FlightWorth(env, m, bucket)(f)
  {
    SumAppend(w.flights, f, FlightWorth(env, m, bucket));
    UnusedIsNotStored(w, f.intent.id);
    SumEq(w.ledger.intents, SettledWorth(env, m, bucket, AutoIds(w.audit) + {f.intent.id}), SettledWorth(env, m, bucket, AutoIds(w.audit)));
  }

  lemma LaunchWorth(env: Env, w: World, step: Step, m: Mandate, bucket: Instant)
    requires Inv(w) && FreshStep(w, step) && Launches(env, w, step)
    ensures WorthLoad(env, Next(env, w, step), m, bucket)
         == WorthLoad(env, w, m, bucket) + FlightWorth(env, m, bucket)(LaunchOf(env, w, step))
  {
    hide Next, Launches, LaunchOf, Inv, WorthLoad, AutoIds;
    var effect, events := SoundEffect(env, w, step);
    EffectAutoIds(w, step, Next(env, w, step), effect, events);
    LaunchingWorth(env, w, effect.f, Next(env, w, step), m, bucket);
  }

  /** What the raw amounts understate, plus the worth in flight, fits the room the gate reports
   *  with the launch. The room being the cap less the raw spend and the payment's worth, this
   *  says that the worth so far and the payment's own are within the cap, put in terms of what
   *  the gate knows and of what it leaves out. */
  predicate FitsRoom(env: Env, w: World, step: Step, m: Mandate, bucket: Instant)
    requires step.Begin?
  {
    var room := LaunchOf(env, w, step).verdict.remaining;
    && room.Some?
    && WorthLoad(env, w, m, bucket) - Sum(SpendFrom(w.ledger.intents, m.id, bucket), Gate.SpendAmount()) <= room.value
  }

  predicate ChargedTo(env: Env, w: World, step: Step, m: Mandate, bucket: Instant) {
    && Launches(env, w, step)
    && LaunchOf(env, w, step).verdict.mandateId == Some(m.id)
    && PeriodStart(step.now, m.period) == bucket
  }

  lemma LaunchIsWorth(env: Env, w: World, step: Step, m: Mandate, bucket: Instant)
    requires ChargedTo(env, w, step, m, bucket)
    ensures FlightWorth(env, m, bucket)(LaunchOf(env, w, step)) == WorthIn(env, step, m)
  {
    hide Verdict;
  }

  /** Exactly when a launch, converted or not, keeps the worth of what runs unattended to the
   *  cap. */
  lemma ConvertedLaunchKeepsCapIff(env: Env, w: World, step: Step, m: Mandate, bucket: Instant)
    requires Inv(w) && TermsIfStored(w, m) && FreshStep(w, step) && ChargedTo(env, w, step, m, bucket)
    ensures LaunchOf(env, w, step).verdict.remaining.Some?
    ensures WorthLoad(env, Next(env, w, step), m, bucket) <= m.perPeriodCap <==> FitsRoom(env, w, step, m, bucket)
  {
    hide Next, Inv, TermsIfStored, WorthLoad, WorthIn, LaunchOf, Launches, FlightWorth;
    LaunchRoom(env, w, step, m);
    LaunchWorth(env, w, step, m, bucket);
    LaunchIsWorth(env, w, step, m, bucket);
  }

  // --- whole runs ---

  /** Rates are not negative. */
  ghost predicate SaneRates(env: Env) {
    env.fx.Some? ==> forall from, to :: env.fx.value(from, to).Some? ==> env.fx.value(from, to).value >= 0.0
  }

  lemma ScaleMonotone(a: real, b: real, rate: real, scale: real)
    requires 0.0 <= a <= b && rate >= 0.0 && scale >= 0.0
    ensures 0.0 <= a * rate * scale <= b * rate * scale
  {
    assert 0.0 <= a * rate <= b * rate;
  }

  lemma ConvertMonotone(a: int, b: int, rate: real, from: string, to: string, table: Option<map<string, int>>)
    requires 0 <= a <= b && rate >= 0.0
    ensures 0 <= ConvertMinorCrossDecimal(a, rate, from, to, table) <= ConvertMinorCrossDecimal(b, rate, from, to, table)
  {
    hide TenTo, Shift;
    TenToPositive(Shift(from, to, table));
    ScaleMonotone(a as real, b as real, rate, TenTo(Shift(from, to, table)));
  }

  /** More of a currency is worth no less. */
  lemma WorthMonotone(env: Env, m: Mandate, intent: PaymentIntent, a: int, b: int)
    requires SaneRates(env) && 0 <= a <= b
    ensures 0 <= Worth(env, m, intent, a) <= Worth(env, m, intent, b)
  {
    hide ConvertMinorCrossDecimal;
    if env.fx.Some? && m.currency != intent.currency {
      var rate := env.fx.value(intent.currency, m.currency);
      if rate.Some? {
        ConvertMonotone(a, b, rate.value, intent.currency, m.currency, env.tokenDecimals);
      }
    }
  }

  lemma LandingWorth(env: Env, w: World, i: nat, s: StoredIntent, events: seq<Event>, w': World, m: Mandate, bucket: Instant)
    requires SaneRates(env) && Shape(w, w', Landing(i, s), events) && LandingEvents(w.flights[i], s, events)
    requires SoundFlight(w.flights[i]) && AutoIds(w'.audit) == AutoIds(w.audit)
    ensures WorthLoad(env, w', m, bucket) <= WorthLoad(env, w, m, bucket)
  {
    hide Worth, SaneRates, AutoIds;
    var f, worth := w.flights[i], SettledWorth(env, m, bucket, AutoIds(w.audit));
    WorthMonotone(env, m, f.intent, f.intent.amount, f.intent.amount);
    SumRemove(w.flights, i, FlightWorth(env, m, bucket));
    SumAppend(w.ledger.intents, s, worth);
    assert worth(s) <= FlightWorth(env, m, bucket)(f);
  }

  lemma ChangingWorth(env: Env, w: World, i: nat, s: StoredIntent, events: seq<Event>, w': World, m: Mandate, bucket: Instant)
    requires SaneRates(env) && Inv(w) && Shape(w, w', Changing(i, s), events) && ChangingEvents(w.ledger.intents[i], s, events)
    requires AutoIds(w'.audit) == AutoIds(w.audit)
    ensures WorthLoad(env, w', m, bucket) <= WorthLoad(env, w, m, bucket)
  {
    hide Worth, SaneRates, AutoIds;
    var was, worth := w.ledger.intents[i], SettledWorth(env, m, bucket, AutoIds(w.audit));
    SumUpdate(w.ledger.intents, i, s, worth);
    assert SoundIntent(was);
    assert was.status == Pending ==> was.intent.id !in AutoIds(w.audit);
    if was.status == Settled {
      WorthMonotone(env, m, s.intent, s.Net(), was.Net());
    }
    assert worth(s) <= worth(was);
  }

  /** Nothing but a launch adds to the worth. */
  lemma OtherStepsAddNothing(env: Env, w: World, step: Step, m: Mandate, bucket: Instant)
    requires SaneRates(env) && Inv(w) && FreshStep(w, step) && !Launches(env, w, step)
    ensures WorthLoad(env, Next(env, w, step), m, bucket) <= WorthLoad(env, w, m, bucket)
  {
    hide Next, Launches, WorthLoad, SaneRates, AutoIds;
    var effect, events := SoundEffect(env, w, step);
    var w' := Next(env, w, step);
    EffectAutoIds(w, step, w', effect, events);
    match effect {
      case Filing(s) => FilingWorth(env, w, s, w', m, bucket);
      case Landing(i, s) => LandingWorth(env, w, i, s, events, w', m, bucket);
      case Changing(i, s) => ChangingWorth(env, w, i, s, events, w', m, bucket);
      case Standing => SameWorth(env, w, w', m, bucket);
    }
  }

  lemma FilingWorth(env: Env, w: World, s: StoredIntent, w': World, m: Mandate, bucket: Instant)
    requires w'.flights == w.flights && w'.ledger.intents == w.ledger.intents + [s] && s.status != Settled
    requires AutoIds(w'.audit) == AutoIds(w.audit)
    ensures WorthLoad(env, w', m, bucket) == WorthLoad(env, w, m, bucket)
  {
    hide Worth;
    SumAppend(w.ledger.intents, s, SettledWorth(env, m, bucket, AutoIds(w.audit)));
  }

  lemma SameWorth(env: Env, w: World, w': World, m: Mandate, bucket: Instant)
    requires w'.flights == w.flights && w'.ledger.intents == w.ledger.intents && AutoIds(w'.audit) == AutoIds(w.audit)
    ensures WorthLoad(env, w', m, bucket) == WorthLoad(env, w, m, bucket)
  {
  }

  /** A launch on another mandate or in another bucket does not move the worth. */
  lemma OtherLaunches(env: Env, w: World, step: Step, m: Mandate, bucket: Instant)
    requires Inv(w) && FreshStep(w, step) && Launches(env, w, step) && !ChargedTo(env, w, step, m, bucket)
    ensures WorthLoad(env, Next(env, w, step), m, bucket) == WorthLoad(env, w, m, bucket)
  {
    LaunchWorth(env, w, step, m, bucket);
    hide Next, Verdict, Inv, WorthLoad, Worth;
  }

  ghost predicate AlwaysFits(env: Env, start: World, steps: seq<Step>, m: Mandate, bucket: Instant) {
    forall n {:trigger steps[n]} :: 0 <= n < |steps| && ChargedTo(env, Run(env, start, steps[..n]), steps[n], m, bucket) ==>
      FitsRoom(env, Run(env, start, steps[..n]), steps[n], m, bucket)
  }

  ghost predicate AlwaysWithinCap(env: Env, start: World, steps: seq<Step>, m: Mandate, bucket: Instant) {
    forall n :: 0 <= n <= |steps| ==> WorthLoad(env, Run(env, start, steps[..n]), m, bucket) <= m.perPeriodCap
  }

  lemma PrefixOfFits(env: Env, start: World, steps: seq<Step>, m: Mandate, bucket: Instant)
    requires steps != []
    ensures AlwaysFits(env, start, steps, m, bucket) <==>
              && AlwaysFits(env, start, steps[..|steps| - 1], m, bucket)
              && var w, step := Run(env, start, steps[..|steps| - 1]), steps[|steps| - 1];
                 ChargedTo(env, w, step, m, bucket) ==> FitsRoom(env, w, step, m, bucket)
  {
    hide Run, ChargedTo, FitsRoom;
    var n := |steps| - 1;
    var fewer := steps[..n];
    assert forall i {:trigger steps[i]} :: 0 <= i < n ==> fewer[i] == steps[i] && fewer[..i] == steps[..i];
    assert forall i {:trigger fewer[i]} :: 0 <= i < n ==> fewer[i] == steps[i] && fewer[..i] == steps[..i];
  }

  lemma PrefixOfWithin(env: Env, start: World, steps: seq<Step>, m: Mandate, bucket: Instant)
    requires steps != []
    ensures AlwaysWithinCap(env, start, steps, m, bucket) <==>
              && AlwaysWithinCap(env, start, steps[..|steps| - 1], m, bucket)
              && WorthLoad(env, Run(env, start, steps), m, bucket) <= m.perPeriodCap
  {
    hide Run, WorthLoad;
    var n := |steps| - 1;
    assert steps[..|steps|] == steps;
    assert forall i :: 0 <= i <= n ==> steps[..n][..i] == steps[..i];
  }

  /** One step from within the cap leads outside it exactly when it is a launch that does not
   *  fit. */
  lemma StepStaysIff(env: Env, w: World, step: Step, m: Mandate, bucket: Instant)
    requires SaneRates(env) && Inv(w) && TermsIfStored(w, m) && FreshStep(w, step)
    requires WorthLoad(env, w, m, bucket) <= m.perPeriodCap
    ensures WorthLoad(env, Next(env, w, step), m, bucket) <= m.perPeriodCap <==>
              (ChargedTo(env, w, step, m, bucket) ==> FitsRoom(env, w, step, m, bucket))
  {
    if ChargedTo(env, w, step, m, bucket) {
      ConvertedLaunchKeepsCapIff(env, w, step, m, bucket);
    } else if Launches(env, w, step) {
      OtherLaunches(env, w, step, m, bucket);
    } else {
      OtherStepsAddNothing(env, w, step, m, bucket);
    }
    hide Next, Launches, LaunchOf, Inv, TermsIfStored, WorthLoad, SaneRates, FitsRoom;
  }

  /** BUDGET with conversion, exactly. Through a whole run, overlapping or not, the worth of what
   *  ran unattended under a mandate in a period stays within its cap if and only if every launch
   *  charged to it in the period fits the room the gate reports, once what the raw amounts
   *  understate and the worth in flight are added. */
  lemma {:induction false} ConvertedBudgetIff(env: Env, start: World, steps: seq<Step>, m: Mandate, bucket: Instant, k: nat)
    requires TermsKept(env, start, steps, m, k) && SaneRates(env) && 0 <= m.perPeriodCap
    ensures AlwaysWithinCap(env, start, steps, m, bucket) <==> AlwaysFits(env, start, steps, m, bucket)
    ensures Inv(Run(env, start, steps)) && TermsIfStored(Run(env, start, steps), m)
  {
    hide Next, WorthLoad, SaneRates, FitsRoom, ChargedTo, Inv, TermsIfStored;
    TermsNow(env, start, steps, m, k);
    if steps == [] {
      FreshWorth(env, start, m, bucket);
      RunKeepsInv(env, start, steps);
    } else {
      var n := |steps| - 1;
      TermsPrefix(env, start, steps, m, k);
      FreshPrefix(env, start, steps);
      assert steps[n] in steps;
      hide TermsKept, Run, AlwaysFits, AlwaysWithinCap;
      ConvertedBudgetIff(env, start, steps[..n], m, bucket, k);
      PrefixOfFits(env, start, steps, m, bucket);
      PrefixOfWithin(env, start, steps, m, bucket);
      var w := Run(env, start, steps[..n]);
      RunsOn(env, start, steps);
      NextKeepsInv(env, w, steps[n]);
      if AlwaysWithinCap(env, start, steps[..n], m, bucket) {
        WithinNow(env, start, steps[..n], m, bucket);
        StepStaysIff(env, w, steps[n], m, bucket);
      }
    }
  }

  lemma RunsOn(env: Env, start: World, steps: seq<Step>)
    requires steps != []
    ensures Run(env, start, steps) == Next(env, Run(env, start, steps[..|steps| - 1]), steps[|steps| - 1])
  {
    hide Next;
  }

  lemma WithinNow(env: Env, start: World, steps: seq<Step>, m: Mandate, bucket: Instant)
    requires AlwaysWithinCap(env, start, steps, m, bucket)
    ensures WorthLoad(env, Run(env, start, steps), m, bucket) <= m.perPeriodCap
  {
    hide Run, WorthLoad;
    assert steps[..|steps|] == steps;
  }

  lemma FreshWorth(env: Env, start: World, m: Mandate, bucket: Instant)
    requires IsFresh(start)
    ensures WorthLoad(env, start, m, bucket) == 0
  {
    SumOfNone(SettledWorth(env, m, bucket, AutoIds(start.audit)));
    SumOfNone(FlightWorth(env, m, bucket));
  }
}
