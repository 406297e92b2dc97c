/** What every step keeps, whatever order executions begin and finish in. */
module Invariants {
  import opened Types
  import opened Store
  import opened Trail
  import opened Executor
  import opened Effects

  /** Ids the trail says were authorized to run unattended. */
  function AutoIds(audit: seq<Event>): set<string> {
    if audit == [] then {}
    else
      var n := |audit| - 1;
      AutoIds(audit[..n]) + AutoIdOf(audit[n])
  }

  function AutoIdOf(e: Event): set<string> {
    if e.AgentDecision? && e.verdict.outcome == AutoExecute then {e.intent.id} else {}
  }

  lemma AutoIdsAppend(audit: seq<Event>, e: Event)
    ensures AutoIds(audit + [e]) == AutoIds(audit) + AutoIdOf(e)
  {
    assert (audit + [e])[..|audit|] == audit;
  }

  lemma {:induction false} AutoIdsConcat(audit: seq<Event>, events: seq<Event>)
    ensures AutoIds(audit + events) == AutoIds(audit) + AutoIds(events)
  {
    if events == [] {
      assert audit + events == audit;
    } else {
      var n := |events| - 1;
      AutoIdsConcat(audit, events[..n]);
      assert audit + events == (audit + events[..n]) + [events[n]];
      AutoIdsAppend(audit + events[..n], events[n]);
    }
  }

  lemma {:induction false} NoAutoIds(events: seq<Event>)
    requires forall e :: e in events ==> AutoIdOf(e) == {}
    ensures AutoIds(events) == {}
  {
    if events != [] {
      assert events[|events| - 1] in events;
      NoAutoIds(events[..|events| - 1]);
    }
  }

  lemma AutoIdsGrow(before: seq<Event>, after: seq<Event>)
    requires before <= after
    ensures AutoIds(before) <= AutoIds(after)
  {
    assert after == before + after[|before|..];
    AutoIdsConcat(before, after[|before|..]);
  }

  lemma QuietEvents(w: World, step: Step, effect: Effect, events: seq<Event>)
    requires Explains(w, step, effect, events) && !effect.Launching?
    ensures forall e :: e in events ==> AutoIdOf(e) == {}
  {
    match effect {
      case Changing(i, s) =>
        if |events| > 1 {
          assert events == [events[0]] + events[1..];
          assert forall e :: e in events[1..] ==> AutoIdOf(e) == {};
        }
      case _ =>
    }
  }

  /** Only a launch adds an unattended id, and it adds its own. */
  lemma EffectAutoIds(w: World, step: Step, w': World, effect: Effect, events: seq<Event>)
    requires Shape(w, w', effect, events) && Explains(w, step, effect, events)
    ensures AutoIds(w'.audit) == AutoIds(w.audit) + (if effect.Launching? then {effect.f.intent.id} else {})
  {
    if effect.Launching? {
      assert events == [events[0]];
      AutoIdsAppend(w.audit, events[0]);
    } else {
      AutoIdsConcat(w.audit, events);
      QuietEvents(w, step, effect, events);
      NoAutoIds(events);
    }
  }

  /** A stored intent is sound: settled payments are positive and dated, refunds stay
   *  within the amount, and nothing else is ever refunded. */
  predicate SoundIntent(s: StoredIntent) {
    if s.status == Settled then
      && s.settledAt.Some?
      && s.intent.amount > 0
      && 0 <= s.refundedMinor.GetOr(0) <= s.intent.amount
    else s.refundedMinor.None?
  }

  predicate SoundFlight(f: Flight) {
    f.intent.amount > 0 && f.verdict.outcome == AutoExecute && f.verdict.mandateId.Some?
  }

  /** Every flight is authorized, and no pending intent is. */
  ghost predicate AutoIdsPlaced(w: World) {
    && (forall i :: 0 <= i < |w.flights| ==> w.flights[i].intent.id in AutoIds(w.audit))
    && (forall i :: 0 <= i < |w.ledger.intents| && w.ledger.intents[i].status == Pending
          ==> w.ledger.intents[i].intent.id !in AutoIds(w.audit))
  }

  ghost predicate Inv(w: World) {
    && DistinctIntents(w.ledger.intents)
    && DistinctMandates(w.ledger.mandates)
    && (forall i :: 0 <= i < |w.ledger.intents| ==> SoundIntent(w.ledger.intents[i]))
    && (forall i :: 0 <= i < |w.flights| ==> SoundFlight(w.flights[i]))
    && FlightsApart(w)
    && AutoIdsPlaced(w)
    && (forall id :: id in AutoIds(w.audit) ==> IdInUse(w, id))
  }

  lemma HasIntentIff(intents: seq<StoredIntent>, id: string)
    ensures HasIntent(intents, id) <==> exists i :: 0 <= i < |intents| && intents[i].intent.id == id
  {
    var i := IntentIndex(intents, id);
    if i >= 0 {
      assert intents[i].intent.id == id;
    }
  }

  lemma HasIntentAppend(intents: seq<StoredIntent>, s: StoredIntent, id: string)
    ensures HasIntent(intents + [s], id) <==> HasIntent(intents, id) || s.intent.id == id
  {
    HasIntentIff(intents, id);
    HasIntentIff(intents + [s], id);
    if HasIntent(intents, id) {
      var i := IntentIndex(intents, id);
      assert (intents + [s])[i].intent.id == id;
    }
    if s.intent.id == id {
      assert (intents + [s])[|intents|].intent.id == id;
    }
  }

  lemma HasIntentUpdate(intents: seq<StoredIntent>, i: nat, s: StoredIntent, id: string)
    requires i < |intents| && s.intent.id == intents[i].intent.id
    ensures HasIntent(intents[i := s], id) <==> HasIntent(intents, id)
  {
    HasIntentIff(intents, id);
    HasIntentIff(intents[i := s], id);
    if HasIntent(intents, id) {
      var j := IntentIndex(intents, id);
      assert intents[i := s][j].intent.id == id;
    }
  }

  /** How an effect moves the stored ids. */
  lemma EffectId(w: World, step: Step, w': World, effect: Effect, events: seq<Event>, id: string)
    requires Shape(w, w', effect, events) && Explains(w, step, effect, events)
    ensures HasIntent(w'.ledger.intents, id) <==>
            HasIntent(w.ledger.intents, id) || ((effect.Filing? || effect.Landing?) && effect.s.intent.id == id)
  {
    match effect {
      case Filing(s) => HasIntentAppend(w.ledger.intents, s, id);
      case Landing(i, s) => HasIntentAppend(w.ledger.intents, s, id);
      case Changing(i, s) => HasIntentUpdate(w.ledger.intents, i, s, id);
      case _ =>
    }
  }

  lemma EffectIds(w: World, step: Step, w': World, effect: Effect, events: seq<Event>)
    requires Shape(w, w', effect, events) && Explains(w, step, effect, events)
    ensures forall id :: HasIntent(w'.ledger.intents, id) <==>
                         HasIntent(w.ledger.intents, id) || ((effect.Filing? || effect.Landing?) && effect.s.intent.id == id)
  {
    forall id
      ensures HasIntent(w'.ledger.intents, id) <==>
              HasIntent(w.ledger.intents, id) || ((effect.Filing? || effect.Landing?) && effect.s.intent.id == id)
    {
      EffectId(w, step, w', effect, events, id);
    }
  }

  lemma UnusedIsNotStored(w: World, id: string)
    requires !IdInUse(w, id)
    ensures forall s :: s in w.ledger.intents ==> s.intent.id != id
  {
    HasIntentIff(w.ledger.intents, id);
  }

  /** Ids stay in use for ever. */
  lemma IdsStayInUse(w: World, step: Step, w': World, effect: Effect, events: seq<Event>, id: string)
    requires Shape(w, w', effect, events) && Explains(w, step, effect, events)
    requires IdInUse(w, id)
    ensures IdInUse(w', id)
  {
    EffectIds(w, step, w', effect, events);
    if !HasIntent(w'.ledger.intents, id) {
      var k :| 0 <= k < |w.flights| && w.flights[k].intent.id == id;
      match effect {
        case Landing(i, s) => assert w'.flights[if k < i then k else k - 1].intent.id == id;
        case _ => assert w'.flights[k].intent.id == id;
      }
    }
  }

  lemma LandedFlights(w: World, i: nat, flights: seq<Flight>)
    requires i < |w.flights| && flights == w.flights[..i] + w.flights[i + 1..]
    ensures forall k :: 0 <= k < |flights| ==> flights[k] == w.flights[if k < i then k else k + 1]
  {
  }

  lemma EffectKeepsFlights(w: World, step: Step, w': World, effect: Effect, events: seq<Event>)
    requires Inv(w) && FreshStep(w, step)
    requires Shape(w, w', effect, events) && Explains(w, step, effect, events)
    ensures FlightsApart(w')
    ensures forall i :: 0 <= i < |w'.flights| ==> SoundFlight(w'.flights[i])
  {
    hide FilingEvents, ChangingEvents, StandingEvents, SoundIntent, AutoIdsPlaced, AutoIds;
    EffectIds(w, step, w', effect, events);
    if effect.Landing? {
      LandedFlights(w, effect.i, w'.flights);
    }
  }

  lemma EffectKeepsIntents(w: World, step: Step, w': World, effect: Effect, events: seq<Event>)
    requires Inv(w) && FreshStep(w, step)
    requires Shape(w, w', effect, events) && Explains(w, step, effect, events)
    ensures DistinctIntents(w'.ledger.intents)
    ensures forall i :: 0 <= i < |w'.ledger.intents| ==> SoundIntent(w'.ledger.intents[i])
  {
    if effect.Filing? || effect.Landing? {
      HasIntentIff(w.ledger.intents, effect.s.intent.id);
    }
  }

  lemma EffectKeepsAutoIds(w: World, step: Step, w': World, effect: Effect, events: seq<Event>)
    requires Inv(w) && FreshStep(w, step)
    requires Shape(w, w', effect, events) && Explains(w, step, effect, events)
    ensures AutoIdsPlaced(w')
    ensures forall id :: id in AutoIds(w'.audit) ==> IdInUse(w', id)
  {
    hide StandingEvents, AutoIds;
    EffectAutoIds(w, step, w', effect, events);
    forall id | id in AutoIds(w'.audit) ensures IdInUse(w', id) {
      if id in AutoIds(w.audit) {
        IdsStayInUse(w, step, w', effect, events, id);
      } else {
        assert w'.flights[|w.flights|].intent.id == id;
      }
    }
    match effect {
      case Landing(i, s) => LandedFlights(w, i, w'.flights);
      case Launching(f) => UnusedIsNotStored(w, f.intent.id);
      case _ =>
    }
  }

  function MandatesNext(mandates: seq<Mandate>, step: Step): seq<Mandate> {
    match step
    case GrantIt(m, _) => if MandateIndex(mandates, m.id) >= 0 then mandates else mandates + [m]
    case AmendIt(id, patch, _) => PatchMandate(mandates, id, patch)
    case RevokeIt(id, _) => PatchMandate(mandates, id, REVOKE)
    case _ => mandates
  }

  /** Payments leave the mandates alone. */
  lemma NextMandates(env: Env, w: World, step: Step)
    ensures Next(env, w, step).ledger.mandates == MandatesNext(w.ledger.mandates, step)
  {
    hide GateVerdict, Verdict;
  }

  /** Only the start of an execution that no halt stops leaves an agent-phase decision. */
  lemma QuietStep(env: Env, w: World, step: Step)
    requires !(step.Begin? && HaltReason(env, w.ledger).None?)
    ensures w.audit <= Next(env, w, step).audit
    ensures forall k :: |w.audit| <= k < |Next(env, w, step).audit| ==> !Next(env, w, step).audit[k].AgentDecision?
  {
    hide GateVerdict, Verdict;
  }

  lemma MandatesStayDistinct(env: Env, w: World, step: Step)
    requires DistinctMandates(w.ledger.mandates)
    ensures DistinctMandates(Next(env, w, step).ledger.mandates)
  {
    NextMandates(env, w, step);
    hide Next;
  }

  lemma InvPending(w: World)
    requires Inv(w)
    ensures forall s :: s in w.ledger.intents && s.status == Pending ==> s.refundedMinor.None?
  {
  }

  /** The effect of a step from a sound world. */
  lemma SoundEffect(env: Env, w: World, step: Step) returns (effect: Effect, events: seq<Event>)
    requires Inv(w) && FreshStep(w, step)
    ensures Shape(w, Next(env, w, step), effect, events)
    ensures Explains(w, step, effect, events)
    ensures effect.Launching? <==> Launches(env, w, step)
    ensures effect.Launching? ==> effect.f == LaunchOf(env, w, step)
  {
    hide Next, Launches, LaunchOf, Shape, Explains;
    InvPending(w);
    effect, events := StepEffect(env, w, step);
  }

  lemma NextKeepsInv(env: Env, w: World, step: Step)
    requires Inv(w) && FreshStep(w, step)
    ensures Inv(Next(env, w, step))
  {
    hide Next, Launches, LaunchOf, Shape, Explains;
    var effect, events := SoundEffect(env, w, step);
    MandatesStayDistinct(env, w, step);
    var w' := Next(env, w, step);
    EffectKeepsFlights(w, step, w', effect, events);
    EffectKeepsIntents(w, step, w', effect, events);
    EffectKeepsAutoIds(w, step, w', effect, events);
  }

  /** Every world a run reaches is sound. */
  lemma {:induction false} RunKeepsInv(env: Env, start: World, steps: seq<Step>)
    requires IsFresh(start) && FreshIds(env, start, steps)
    ensures Inv(Run(env, start, steps))
  {
    hide Next;
    if steps != [] {
      FreshPrefix(env, start, steps);
      RunKeepsInv(env, start, steps[..|steps| - 1]);
      NextKeepsInv(env, Run(env, start, steps[..|steps| - 1]), steps[|steps| - 1]);
    }
  }
}
