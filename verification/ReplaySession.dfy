/** Sessions of one payment at a time, with approvals in between: the simulator's account is
 *  the part of the ledger that ran unattended, and only what an operator let through, or an
 *  alert, can make it report a change. */
module ReplaySession {
  import opened Prelude
  import opened Types
  import opened Calendar
  import opened Gate
  import opened Store
  import opened Trail
  import opened RiskChain
  import opened Executor
  import opened Effects
  import opened Invariants
  import opened EnforcementLaws
  import opened ReplaySim

  /** One execution at a time, every id new, no refunds, and rails that answer with a receipt.
   *  The ledger may start with payments of its own. */
  ghost predicate OneByOne(env: Env, start: World, steps: seq<Step>) {
    && FixedPolicy(env, start, steps)
    && Inv(start) && start.flights == []
    && FreshIds(env, start, steps)
    && (forall step :: step in steps ==> Succeeds(env, step))
    && forall n {:trigger steps[n]} :: 0 <= n < |steps| && steps[n].Begin? ==> Run(env, start, steps[..n]).flights == []
  }

  predicate Succeeds(env: Env, step: Step) {
    && !step.RefundIt?
    && (step.Begin? ==> env.railOf(step.intent.rail).Some?)
    && (step.Finish? ==> step.answer.Receipted?)
  }

  // --- the unattended part of the ledger ---

  /** What the simulator counts too: ran unattended, and under a mandate whose id is not empty. */
  predicate KeptFrom(s: StoredIntent, auto: set<string>, id: string, start: Instant) {
    CountsFrom(s, id, start) && s.intent.id in auto && id != ""
  }

  function KeptSpend(intents: seq<StoredIntent>, auto: set<string>, id: string, start: Instant): seq<PriorSpend> {
    if intents == [] then []
    else
      var n := |intents| - 1;
      var s := intents[n];
      KeptSpend(intents[..n], auto, id, start) + (if KeptFrom(s, auto, id, start) then [PriorSpend(s.Net(), s.settledAt.value)] else [])
  }

  function InAir(flights: seq<Flight>, id: string, start: Instant): seq<PriorSpend> {
    if flights == [] then []
    else
      var f := flights[0];
      if id != "" && f.verdict.mandateId == Some(id) && f.now >= start then [PriorSpend(f.intent.amount, f.now)] else []
  }

  ghost predicate Tracks(w: World) {
    forall id, start ::
      From(Spent(Unattended(w.audit), id), start) == KeptSpend(w.ledger.intents, AutoIds(w.audit), id, start) + InAir(w.flights, id, start)
  }

  lemma KeptAppend(intents: seq<StoredIntent>, s: StoredIntent, auto: set<string>, id: string, start: Instant)
    ensures KeptSpend(intents + [s], auto, id, start)
         == KeptSpend(intents, auto, id, start) + (if KeptFrom(s, auto, id, start) then [PriorSpend(s.Net(), s.settledAt.value)] else [])
  {
    assert (intents + [s])[..|intents|] == intents;
  }

  lemma {:induction false} KeptUpdate(intents: seq<StoredIntent>, i: nat, s: StoredIntent, auto: set<string>, id: string, start: Instant)
    requires i < |intents| && intents[i].intent.id !in auto && s.intent.id == intents[i].intent.id
    ensures KeptSpend(intents[i := s], auto, id, start) == KeptSpend(intents, auto, id, start)
  {
    var n := |intents| - 1;
    if i == n {
      assert intents[i := s][..n] == intents[..n];
    } else {
      assert intents[i := s][..n] == intents[..n][i := s];
      KeptUpdate(intents[..n], i, s, auto, id, start);
    }
  }

  lemma {:induction false} KeptNewId(intents: seq<StoredIntent>, auto: set<string>, newId: string, id: string, start: Instant)
    requires forall s :: s in intents ==> s.intent.id != newId
    ensures KeptSpend(intents, auto + {newId}, id, start) == KeptSpend(intents, auto, id, start)
  {
    if intents != [] {
      assert intents[|intents| - 1] in intents;
      KeptNewId(intents[..|intents| - 1], auto, newId, id, start);
    }
  }

  lemma FromAppend(spend: seq<PriorSpend>, p: PriorSpend, start: Instant)
    ensures From(spend + [p], start) == From(spend, start) + (if p.at >= start then [p] else [])
  {
    assert (spend + [p])[..|spend|] == spend;
  }

  lemma {:induction false} NothingAbsorbed(audit: seq<Event>, events: seq<Event>)
    requires forall e :: e in events ==> AutoIdOf(e) == {}
    ensures Unattended(audit + events) == Unattended(audit)
  {
    if events == [] {
      assert audit + events == audit;
    } else {
      var n := |events| - 1;
      NothingAbsorbed(audit, events[..n]);
      var e := events[n];
      assert |AutoIdOf(e)| == 0;
      assert audit + events == (audit + events[..n]) + [events[n]];
      UnattendedAppend(audit + events[..n], events[n]);
    }
  }

  lemma LaunchTracks(w: World, step: Step, f: Flight, w': World, events: seq<Event>)
    requires Shape(w, w', Launching(f), events) && LaunchingEvents(f, events)
    requires Tracks(w) && w.flights == [] && !IdInUse(w, f.intent.id) && f.now == f.intent.createdAt
    requires AutoIds(w'.audit) == AutoIds(w.audit) + {f.intent.id}
    ensures Tracks(w')
  {
    UnattendedAppend(w.audit, events[0]);
    assert events == [events[0]];
    var p := PriorSpend(f.intent.amount, f.now);
    UnusedIsNotStored(w, f.intent.id);
    forall id, start
      ensures From(Spent(Unattended(w'.audit), id), start)
           == KeptSpend(w'.ledger.intents, AutoIds(w'.audit), id, start) + InAir(w'.flights, id, start)
    {
      KeptNewId(w.ledger.intents, AutoIds(w.audit), f.intent.id, id, start);
      FromAppend(Spent(Unattended(w.audit), id), p, start);
      assert From(Spent(Unattended(w.audit), id), start) == KeptSpend(w.ledger.intents, AutoIds(w.audit), id, start) + [];
    }
  }

  lemma LandingTracks(w: World, f: Flight, s: StoredIntent, w': World, events: seq<Event>)
    requires Shape(w, w', Landing(0, s), events) && LandingEvents(f, s, events) && s.status == Settled
    requires Tracks(w) && w.flights == [f] && f.intent.id in AutoIds(w.audit)
    requires AutoIds(w'.audit) == AutoIds(w.audit) && Unattended(w'.audit) == Unattended(w.audit)
    ensures Tracks(w')
  {
    assert w'.flights == [];
    forall id, start
      ensures From(Spent(Unattended(w'.audit), id), start)
           == KeptSpend(w'.ledger.intents, AutoIds(w'.audit), id, start) + InAir(w'.flights, id, start)
    {
      KeptAppend(w.ledger.intents, s, AutoIds(w.audit), id, start);
      assert From(Spent(Unattended(w.audit), id), start) == KeptSpend(w.ledger.intents, AutoIds(w.audit), id, start) + InAir([f], id, start);
    }
  }

  /** Whatever else happens touches no entry that ran unattended. */
  lemma OtherTracks(w: World, w': World, effect: Effect, events: seq<Event>)
    requires Shape(w, w', effect, events) && Tracks(w)
    requires AutoIds(w'.audit) == AutoIds(w.audit) && Unattended(w'.audit) == Unattended(w.audit)
    requires match effect {
               case Filing(s) => s.status != Settled
               case Changing(i, s) => w.ledger.intents[i].intent.id !in AutoIds(w.audit) && s.intent.id == w.ledger.intents[i].intent.id
               case Standing => true
               case _ => false
             }
    ensures Tracks(w')
  {
    forall id, start
      ensures From(Spent(Unattended(w'.audit), id), start)
           == KeptSpend(w'.ledger.intents, AutoIds(w'.audit), id, start) + InAir(w'.flights, id, start)
    {
      match effect {
        case Filing(s) => KeptAppend(w.ledger.intents, s, AutoIds(w.audit), id, start);
        case Changing(i, s) => KeptUpdate(w.ledger.intents, i, s, AutoIds(w.audit), id, start);
        case _ =>
      }
    }
  }

  /** What holds along a session: at most one flight, dated when it was made, on a rail with a
   *  provider; and the two accounts of unattended spend agree. */
  ghost predicate Orderly(env: Env, w: World) {
    && Inv(w) && Tracks(w) && |w.flights| <= 1
    && forall f :: f in w.flights ==> f.now == f.intent.createdAt && env.railOf(f.intent.rail).Some?
  }

  lemma PaidRailSettles(env: Env, w: World, step: Step)
    requires step.Finish? && step.flight < |w.flights| && step.answer.Receipted?
    requires env.railOf(w.flights[step.flight].intent.rail).Some?
    ensures |Next(env, w, step).audit| == |w.audit| + 2
  {
  }

  lemma StandingKeepsFlights(env: Env, w: World, step: Step, effect: Effect, events: seq<Event>)
    requires Shape(w, Next(env, w, step), effect, events) && Explains(w, step, effect, events)
    requires effect.Landing? || effect.Changing?
    requires |w.flights| <= 1
    ensures effect.Landing? ==> effect.i == 0 && step.Finish? && step.flight == 0
    ensures effect.Changing? ==> step.ApproveIt? || step.RefundIt?
  {
    hide Verdict, GateVerdict, RefundAmount, Settle, RequiresChallenge;
  }

  lemma ApprovalIsNoRefund(env: Env, w: World, step: Step)
    requires step.ApproveIt? && |Next(env, w, step).audit| > |w.audit|
    ensures !Next(env, w, step).audit[|w.audit|].PaymentRefunded?
  {
    hide GateVerdict, Settle, RequiresChallenge;
  }

  lemma StepKeepsOrderly(env: Env, w: World, step: Step)
    requires Orderly(env, w) && FreshStep(w, step) && KeepsPolicy(step) && Succeeds(env, step)
    requires step.Begin? ==> w.flights == []
    ensures Orderly(env, Next(env, w, step))
  {
    hide Tracks, Next, Inv, Unattended, AutoIds;
    var w' := Next(env, w, step);
    var effect, events := SoundEffect(env, w, step);
    NextKeepsInv(env, w, step);
    EffectAutoIds(w, step, w', effect, events);
    if effect.Launching? {
      InvIds(w);
      LaunchTracks(w, step, effect.f, w', events);
    } else {
      QuietEvents(w, step, effect, events);
      NothingAbsorbed(w.audit, events);
      if effect.Landing? || effect.Changing? {
        StandingKeepsFlights(env, w, step, effect, events);
        InvIds(w);
        if effect.Changing? {
          ApprovalIsNoRefund(env, w, step);
        }
      }
      if effect.Landing? {
        assert w.flights == [w.flights[0]];
        PaidRailSettles(env, w, step);
        LandingTracks(w, w.flights[0], effect.s, w', events);
      } else {
        OtherTracks(w, w', effect, events);
      }
    }
  }

  lemma InvIds(w: World)
    requires Inv(w)
    ensures forall i :: 0 <= i < |w.flights| ==> w.flights[i].intent.id in AutoIds(w.audit)
    ensures forall i :: 0 <= i < |w.ledger.intents| && w.ledger.intents[i].status == Pending
              ==> w.ledger.intents[i].intent.id !in AutoIds(w.audit)
  {
  }

  lemma OneByOnePrefix(env: Env, start: World, steps: seq<Step>)
    requires steps != [] && OneByOne(env, start, steps)
    ensures OneByOne(env, start, steps[..|steps| - 1])
  {
    hide Run, Inv, FixedPolicy, FreshIds, Succeeds;
    var n := |steps| - 1;
    var fewer := steps[..n];
    FixedPrefix(env, start, steps);
    FreshPrefix(env, start, steps);
    assert forall step :: step in fewer ==> step in steps;
    assert forall i {:trigger fewer[i]} :: 0 <= i < n ==> fewer[i] == steps[i] && fewer[..i] == steps[..i];
  }

  lemma FixedPrefix(env: Env, start: World, steps: seq<Step>)
    requires steps != [] && FixedPolicy(env, start, steps)
    ensures FixedPolicy(env, start, steps[..|steps| - 1])
  {
    hide LocalRules, KeepsPolicy;
    assert forall step :: step in steps[..|steps| - 1] ==> step in steps;
  }

  lemma {:induction false} SessionIsOrderly(env: Env, start: World, steps: seq<Step>)
    requires OneByOne(env, start, steps)
    ensures Orderly(env, Run(env, start, steps))
  {
    hide Next, LocalRules, Inv, IdInUse;
    if steps == [] {
      StartTracks(start);
    } else {
      var n := |steps| - 1;
      OneByOnePrefix(env, start, steps);
      SessionIsOrderly(env, start, steps[..n]);
      FreshPrefix(env, start, steps);
      assert steps[n] in steps;
      hide Orderly;
      StepKeepsOrderly(env, Run(env, start, steps[..n]), steps[n]);
    }
  }

  lemma StartTracks(w: World)
    requires (forall e :: e in w.audit ==> !e.AgentDecision?) && w.flights == []
    ensures Tracks(w)
  {
    NoAutoIds(w.audit);
    NothingAbsorbed([], w.audit);
    assert [] + w.audit == w.audit;
    forall id, start
      ensures KeptSpend(w.ledger.intents, AutoIds(w.audit), id, start) == []
    {
      NothingKept(w.ledger.intents, id, start);
    }
  }

  lemma {:induction false} NothingKept(intents: seq<StoredIntent>, id: string, start: Instant)
    ensures KeptSpend(intents, {}, id, start) == []
  {
    if intents != [] {
      NothingKept(intents[..|intents| - 1], id, start);
    }
  }

  // --- what an operator let through ---

  /** What ran unattended under a mandate in the current period, as the ledger has it. */
  function UnattendedSpend(w: World, m: Mandate, now: Instant): seq<PriorSpend> {
    KeptSpend(w.ledger.intents, AutoIds(w.audit), m.id, PeriodStart(now, m.period))
  }

  /** What an operator let through, or the session started with, does not change how the
   *  payment is judged; nor does an alert. */
  predicate Immaterial(env: Env, w: World, intent: PaymentIntent, att: Option<Attestation>) {
    var m := Weighed(env, w, intent, att);
    m.Some? ==>
      Alike(m.value, intent, PeriodSpend(w.ledger, m.value.id, intent.createdAt), UnattendedSpend(w, m.value, intent.createdAt),
            Alerted(env, w, intent, att), SignalsOf(intent, Context(env, w.ledger, intent, att, intent.createdAt)), env.config)
  }

  predicate Judged(env: Env, w: World, step: Step) {
    step.Begin? && HaltReason(env, w.ledger).None?
  }

  ghost predicate AllImmaterial(env: Env, start: World, steps: seq<Step>) {
    forall n {:trigger steps[n]} :: 0 <= n < |steps| && Judged(env, Run(env, start, steps[..n]), steps[n]) ==>
      Immaterial(env, Run(env, start, steps[..n]), steps[n].intent, steps[n].attestation)
  }

  lemma WeighedIsStored(env: Env, w: World, intent: PaymentIntent, att: Option<Attestation>)
    requires DistinctMandates(w.ledger.mandates) && Weighed(env, w, intent, att).Some?
    ensures var m := Weighed(env, w, intent, att).value;
            GetMandate(w.ledger.mandates, m.id) == Some(m)
  {
    AuthorityIsFirst(w.ledger.mandates, intent, intent.createdAt, None);
    hide Floor, Context;
  }

  /** With nothing in flight the trail's account is the unattended part of the ledger. */
  lemma TrailIsUnattended(env: Env, w: World, m: Mandate, now: Instant)
    requires Orderly(env, w) && w.flights == [] && GetMandate(w.ledger.mandates, m.id) == Some(m)
    ensures TrailSpend(w, m.id, now) == UnattendedSpend(w, m, now)
  {
    hide Unattended, AutoIds, PeriodStart;
    var start := PeriodStart(now, m.period);
    assert From(Spent(Unattended(w.audit), m.id), start) == KeptSpend(w.ledger.intents, AutoIds(w.audit), m.id, start) + [];
  }

  lemma SteadyIffImmaterial(env: Env, w: World, intent: PaymentIntent, att: Option<Attestation>)
    requires Orderly(env, w) && w.flights == []
    ensures Steady(env, w, intent, att) <==> Immaterial(env, w, intent, att)
  {
    var m := Weighed(env, w, intent, att);
    if m.Some? {
      WeighedIsStored(env, w, intent, att);
      TrailIsUnattended(env, w, m.value, intent.createdAt);
    }
    hide Orderly, Context, Alike, Alerted, Weighed, SignalsOf, TrailSpend, UnattendedSpend, PeriodSpend;
  }

  lemma SessionPoint(env: Env, start: World, steps: seq<Step>, n: nat)
    requires OneByOne(env, start, steps) && n <= |steps|
    ensures OneByOne(env, start, steps[..n]) && Orderly(env, Run(env, start, steps[..n]))
    decreases |steps| - n
  {
    hide OneByOne, Orderly, Run;
    if n == |steps| {
      assert steps[..n] == steps;
      SessionIsOrderly(env, start, steps);
    } else {
      SessionPoint(env, start, steps, n + 1);
      assert steps[..n + 1][..|steps[..n + 1]| - 1] == steps[..n];
      OneByOnePrefix(env, start, steps[..n + 1]);
      SessionIsOrderly(env, start, steps[..n]);
    }
  }

  /** FIXPOINT of a session, exactly, in terms of the ledger alone: no change is reported if
   *  and only if, for every judged payment, what an operator let through (or the ledger
   *  started with) under the picked mandate in the current period tips neither the cap, nor
   *  the velocity ceiling, nor the risk tier, and no alert does. */
  lemma SessionFixpointIff(env: Env, start: World, steps: seq<Step>)
    requires OneByOne(env, start, steps)
    ensures var c := Candidate(start.ledger.mandates, env.config, env.denyRules);
            Sum(ReplayOf(Run(env, start, steps).audit, c).records, IsChange()) == 0 <==> AllImmaterial(env, start, steps)
  {
    ReplayFixpointIff(env, start, steps);
    hide ReplayOf, Next, Steady, Immaterial, Orderly, FixedPolicy, FreshIds, Inv;
    forall n | 0 <= n < |steps|
      ensures SteadyStep(env, Run(env, start, steps[..n]), steps[n]) <==>
                (Judged(env, Run(env, start, steps[..n]), steps[n]) ==>
                   Immaterial(env, Run(env, start, steps[..n]), steps[n].intent, steps[n].attestation))
    {
      if steps[n].Begin? {
        SessionPoint(env, start, steps, n);
        SteadyIffImmaterial(env, Run(env, start, steps[..n]), steps[n].intent, steps[n].attestation);
      }
    }
    hide Run, SteadyStep, Judged;
  }

  // --- sessions the operator stayed out of ---

  /** Everything the gate weighs against the payment ran unattended: no approved and no
   *  carried-in payment is charged to the mandate in the current period. */
  predicate Untouched(env: Env, w: World, intent: PaymentIntent, att: Option<Attestation>) {
    var m := Weighed(env, w, intent, att);
    m.Some? ==>
      forall s :: s in w.ledger.intents && CountsFrom(s, m.value.id, PeriodStart(intent.createdAt, m.value.period)) ==>
        s.intent.id in AutoIds(w.audit) && m.value.id != ""
  }

  lemma {:induction false} KeptIsAll(intents: seq<StoredIntent>, auto: set<string>, id: string, start: Instant)
    requires forall s :: s in intents && CountsFrom(s, id, start) ==> KeptFrom(s, auto, id, start)
    ensures KeptSpend(intents, auto, id, start) == SpendFrom(intents, id, start)
  {
    if intents != [] {
      assert intents[|intents| - 1] in intents;
      KeptIsAll(intents[..|intents| - 1], auto, id, start);
    }
  }

  /** The detectors held a payment back exactly when it was weighed, within its caps and of
   *  no concern to the gate, and an alert was due. */
  lemma EscalatedIff(env: Env, w: World, intent: PaymentIntent, att: Option<Attestation>)
    requires env.fx.None? && LocalRules(env.denyRules)
    ensures var m := Weighed(env, w, intent, att);
            WasEscalated(env, w, intent, att, intent.createdAt) <==>
              && m.Some?
              && var spend := PeriodSpend(w.ledger, m.value.id, intent.createdAt);
                 && !OverCap(m.value, spend, intent.amount)
                 && !Asks(intent, spend, SignalsOf(intent, Context(env, w.ledger, intent, att, intent.createdAt)), env.config)
                 && Alerted(env, w, intent, att)
  {
    var live := Context(env, w.ledger, intent, att, intent.createdAt);
    var pick := Authority(w.ledger.mandates, intent, intent.createdAt, None);
    SimulatedVerdict(env, w, intent, att);
    if Floor(intent, live).None? && pick.Some? {
      JudgedOutcome(intent, pick.value, PeriodSpend(w.ledger, pick.value.id, intent.createdAt), SignalsOf(intent, live), env.config);
    }
    hide Judge, Floor, SignalsOf, Authority, Replayed, GateVerdict, OverCap, Asks, Context, InputsOf, ChainVerdict, IsStreaming,
         TrailSpend, Refusal;
  }

  lemma UntouchedIsImmaterial(env: Env, w: World, intent: PaymentIntent, att: Option<Attestation>)
    requires Inv(w) && env.fx.None? && LocalRules(env.denyRules) && Untouched(env, w, intent, att)
    ensures Immaterial(env, w, intent, att) <==> !WasEscalated(env, w, intent, att, intent.createdAt)
  {
    EscalatedIff(env, w, intent, att);
    var m := Weighed(env, w, intent, att);
    if m.Some? {
      WeighedIsStored(env, w, intent, att);
      var start := PeriodStart(intent.createdAt, m.value.period);
      KeptIsAll(w.ledger.intents, AutoIds(w.audit), m.value.id, start);
      assert UnattendedSpend(w, m.value, intent.createdAt) == PeriodSpend(w.ledger, m.value.id, intent.createdAt);
    }
    hide Inv, LocalRules, Weighed, WasEscalated, OverCap, Asks, Alerted, Context, SignalsOf, UnattendedSpend, PeriodSpend;
  }

  ghost predicate AllUntouched(env: Env, start: World, steps: seq<Step>) {
    forall n {:trigger steps[n]} :: 0 <= n < |steps| && Judged(env, Run(env, start, steps[..n]), steps[n]) ==>
      Untouched(env, Run(env, start, steps[..n]), steps[n].intent, steps[n].attestation)
  }

  ghost predicate NeverEscalated(env: Env, start: World, steps: seq<Step>) {
    forall n {:trigger steps[n]} :: 0 <= n < |steps| && Judged(env, Run(env, start, steps[..n]), steps[n]) ==>
      !WasEscalated(env, Run(env, start, steps[..n]), steps[n].intent, steps[n].attestation, steps[n].now)
  }

  /** Where no attended payment is weighed, the session reports no change if and only if the
   *  detectors held nothing back. */
  lemma UntouchedFixpointIff(env: Env, start: World, steps: seq<Step>)
    requires OneByOne(env, start, steps) && AllUntouched(env, start, steps)
    ensures var c := Candidate(start.ledger.mandates, env.config, env.denyRules);
            Sum(ReplayOf(Run(env, start, steps).audit, c).records, IsChange()) == 0 <==> NeverEscalated(env, start, steps)
  {
    SessionFixpointIff(env, start, steps);
    hide ReplayOf, Next, Immaterial, Untouched, WasEscalated, FreshIds, Inv, LocalRules;
    forall n | 0 <= n < |steps| && Judged(env, Run(env, start, steps[..n]), steps[n])
      ensures Immaterial(env, Run(env, start, steps[..n]), steps[n].intent, steps[n].attestation) <==>
                !WasEscalated(env, Run(env, start, steps[..n]), steps[n].intent, steps[n].attestation, steps[n].now)
    {
      SessionPoint(env, start, steps, n);
      assert steps[n] in steps;
      UntouchedIsImmaterial(env, Run(env, start, steps[..n]), steps[n].intent, steps[n].attestation);
    }
    hide Run, Judged;
  }
}
