/** The executor's steps seen from outside: which entry of the ledger or of the flights
 *  each one touches, and the events it leaves. Every proof about runs works on these. */
module Effects {
  import opened Prelude
  import opened Types
  import opened Store
  import opened Trail
  import opened RiskChain
  import opened Executor
  import Gate

  datatype Effect =
    | Filing(s: StoredIntent)               // a new intent is filed, blocked or pending
    | Launching(f: Flight)                  // a new intent is authorized to run unattended
    | Landing(i: nat, s: StoredIntent)      // the rail answered for flight i
    | Changing(i: nat, s: StoredIntent)     // intent i of the ledger is decided or refunded
    | Standing                              // intents and flights are left alone

  /** The shape of the change. */
  ghost predicate Shape(w: World, w': World, effect: Effect, events: seq<Event>) {
    && w'.audit == w.audit + events
    && match effect {
         case Filing(s) =>
           w'.flights == w.flights && w'.ledger.intents == w.ledger.intents + [s]
         case Launching(f) =>
           w'.flights == w.flights + [f] && w'.ledger.intents == w.ledger.intents
         case Landing(i, s) =>
           && i < |w.flights|
           && w'.flights == w.flights[..i] + w.flights[i + 1..]
           && w'.ledger.intents == w.ledger.intents + [s]
         case Changing(i, s) =>
           && i < |w.ledger.intents|
           && w'.flights == w.flights && w'.ledger.intents == w.ledger.intents[i := s]
         case Standing =>
           w'.flights == w.flights && w'.ledger.intents == w.ledger.intents
       }
  }

  predicate IsSettlement(events: seq<Event>, s: StoredIntent) {
    && |events| == 2
    && s.settledAt.Some? && s.receiptId.Some?
    && events[0] == PaymentSettled(s.settledAt.value, s.intent.id, s.receiptId.value, s.intent.amount, s.intent.currency, s.intent.rail)
    && events[1].PaymentVerified? && events[1].ts == s.settledAt.value
  }

  predicate IsFailure(events: seq<Event>, id: string) {
    events == [] || (|events| == 1 && events[0].PaymentFailed? && events[0].intentId == id)
  }

  predicate FilingEvents(s: StoredIntent, events: seq<Event>) {
    && |events| == 1
    && s.refundedMinor.None?
    && if events[0].PaymentHalted? then
         s.status == Blocked && events[0].phase == AgentPhase && events[0].intentId == s.intent.id
       else
         && events[0].AgentDecision? && events[0].intent == s.intent
         && events[0].verdict.outcome != AutoExecute
         && s.status == (if events[0].verdict.outcome == Block then Blocked else Pending)
  }

  predicate LaunchingEvents(f: Flight, events: seq<Event>) {
    && |events| == 1
    && events[0].AgentDecision?
    && events[0].intent == f.intent && events[0].ts == f.now && events[0].verdict == f.verdict
    && f.verdict.outcome == AutoExecute && f.verdict.mandateId.Some? && f.intent.amount > 0
  }

  predicate LandingEvents(f: Flight, s: StoredIntent, events: seq<Event>) {
    && s.intent == f.intent && s.mandateId == f.verdict.mandateId && s.refundedMinor.None?
    && if s.status == Settled then s.settledAt == Some(f.now) && IsSettlement(events, s)
       else s.status == Failed && IsFailure(events, s.intent.id)
  }

  predicate IsPermission(e: Event, id: string) {
    e.OperatorDecision? && e.intentId == id && e.outcome != Block
  }

  predicate ChangingEvents(was: StoredIntent, s: StoredIntent, events: seq<Event>) {
    && s.intent == was.intent && s.mandateId == was.mandateId
    && if was.status == Settled then
         // a refund
         && |events| == 1 && events[0].PaymentRefunded? && events[0].intentId == s.intent.id
         && events[0].amount > 0
         && was.refundedMinor.GetOr(0) + events[0].amount <= s.intent.amount
         && s == was.(refundedMinor := Some(was.refundedMinor.GetOr(0) + events[0].amount))
       else
         // the operator's answer to a pending intent
         && was.status == Pending && s.refundedMinor == was.refundedMinor
         && |events| >= 1 && events[0].OperatorDecision? && events[0].intentId == s.intent.id
         && match s.status {
              case Blocked => events[0].outcome == Block && |events| == 1
              case Failed => IsPermission(events[0], s.intent.id) && IsFailure(events[1..], s.intent.id)
              case Settled => IsPermission(events[0], s.intent.id) && IsSettlement(events[1..], s) && s.intent.amount > 0
              case Pending => false
            }
  }

  /** Events about an intent that leave it pending, or about a mandate. */
  predicate StandingEvents(intents: seq<StoredIntent>, events: seq<Event>) {
    || events == []
    || (&& |events| == 1
        && match events[0] {
             case MandateGranted(_, _) => true
             case MandateAmended(_, _) => true
             case MandateRevoked(_, _) => true
             case PaymentHalted(_, id, phase) => phase == OperatorPhase && HasIntent(intents, id) && GetIntent(intents, id).value.status == Pending
             case OperatorDecision(_, id, _, _, _, _) => HasIntent(intents, id) && GetIntent(intents, id).value.status == Pending
             case _ => false
           })
  }

  ghost predicate Explains(w: World, step: Step, effect: Effect, events: seq<Event>) {
    match effect
    case Filing(s) =>
      step.Begin? && step.intent == s.intent && FilingEvents(s, events)
    case Launching(f) =>
      step.Begin? && step.intent == f.intent && step.now == f.now && LaunchingEvents(f, events)
    case Landing(i, s) =>
      i < |w.flights| && LandingEvents(w.flights[i], s, events)
    case Changing(i, s) =>
      i < |w.ledger.intents| && ChangingEvents(w.ledger.intents[i], s, events)
    case Standing =>
      StandingEvents(w.ledger.intents, events)
  }

  ghost predicate FlightsApart(w: World) {
    && (forall i, j :: 0 <= i < j < |w.flights| ==> w.flights[i].intent.id != w.flights[j].intent.id)
    && (forall i :: 0 <= i < |w.flights| ==> !HasIntent(w.ledger.intents, w.flights[i].intent.id))
  }

  predicate Launches(env: Env, w: World, step: Step) {
    && step.Begin?
    && HaltReason(env, w.ledger).None?
    && Verdict(env, w, step.intent, step.attestation, step.now).outcome == AutoExecute
  }

  function LaunchOf(env: Env, w: World, step: Step): Flight
    requires step.Begin?
  {
    Flight(step.intent, step.now, Verdict(env, w, step.intent, step.attestation, step.now))
  }

  /** An unattended verdict is the gate's own, for a positive amount under a mandate. */
  lemma AutoVerdict(env: Env, w: World, intent: PaymentIntent, attestation: Option<Attestation>, now: Instant)
    requires Verdict(env, w, intent, attestation, now).outcome == AutoExecute
    ensures Verdict(env, w, intent, attestation, now) == GateVerdict(env, w.ledger, intent, attestation, now)
    ensures intent.amount > 0 && Verdict(env, w, intent, attestation, now).mandateId.Some?
    ensures ChainVerdict(intent, w.audit, IsStreaming(w.ledger.mandates, GateVerdict(env, w.ledger, intent, attestation, now)), now) == NoAlert
  {
    Gate.AutoExecuteIff(intent, Context(env, w.ledger, intent, attestation, now));
  }

  lemma BeginEffect(env: Env, w: World, step: Step) returns (effect: Effect, events: seq<Event>)
    requires step.Begin? && FreshStep(w, step)
    ensures Shape(w, Next(env, w, step), effect, events)
    ensures Explains(w, step, effect, events)
    ensures effect == if Launches(env, w, step) then Launching(LaunchOf(env, w, step)) else effect
    ensures effect.Launching? <==> Launches(env, w, step)
    ensures effect.Filing? || effect.Launching?
    ensures HaltReason(env, w.ledger).None? ==> events == [DecisionEvent(env, w, step.intent, step.attestation, step.now)]
  {
    hide Verdict, InputsOf;
    var Begin(intent, attestation, now) := step;
    var w' := Next(env, w, step);
    events := w'.audit[|w.audit|..];
    if Launches(env, w, step) {
      AutoVerdict(env, w, intent, attestation, now);
      effect := Launching(LaunchOf(env, w, step));
    } else {
      effect := Filing(w'.ledger.intents[|w.ledger.intents|]);
    }
  }

  lemma FinishEffect(env: Env, w: World, i: nat, answer: RailAnswer) returns (s: StoredIntent, events: seq<Event>)
    requires i < |w.flights| && FlightsApart(w)
    ensures Shape(w, FinishExecute(env, w, i, answer), Landing(i, s), events)
    ensures LandingEvents(w.flights[i], s, events)
  {
    events := Settle(env, w.flights[i].intent, w.flights[i].now, answer).events;
    s := FinishExecute(env, w, i, answer).ledger.intents[|w.ledger.intents|];
  }

  /** The money of an approved intent moves, or the rail fails. */
  lemma PayOutEffect(env: Env, w: World, i: nat, now: Instant, answer: RailAnswer)
      returns (s: StoredIntent, events: seq<Event>)
    requires i < |w.ledger.intents| && w.ledger.intents[i].refundedMinor.None?
    ensures Shape(w, PayOut(env, w, i, now, answer), Changing(i, s), events)
    ensures s.intent == w.ledger.intents[i].intent && s.mandateId == w.ledger.intents[i].mandateId && s.refundedMinor.None?
    ensures s.status == Settled || s.status == Failed
    ensures s.status == Settled ==> IsSettlement(events, s)
    ensures s.status == Failed ==> IsFailure(events, s.intent.id)
  {
    events := Settle(env, w.ledger.intents[i].intent, now, answer).events;
    s := PayOut(env, w, i, now, answer).ledger.intents[i];
  }

  lemma PermittedIsPositive(env: Env, ledger: Ledger, intent: PaymentIntent, now: Instant)
    ensures GateVerdict(env, ledger, intent, None, now).outcome != Block ==> intent.amount > 0
  {
  }

  lemma ApproveEffect(env: Env, w: World, id: string, acknowledged: bool, now: Instant, answer: RailAnswer)
      returns (effect: Effect, events: seq<Event>)
    requires forall s :: s in w.ledger.intents && s.status == Pending ==> s.refundedMinor.None?
    ensures Shape(w, Approve(env, w, id, acknowledged, now, answer), effect, events)
    ensures effect.Standing? || effect.Changing?
    ensures Explains(w, ApproveIt(id, acknowledged, now, answer), effect, events)
  {
    hide PayOut, RequiresChallenge, HaltReason, GateVerdict;
    var i := IntentIndex(w.ledger.intents, id);
    var w' := Approve(env, w, id, acknowledged, now, answer);
    if i < 0 || w.ledger.intents[i].status != Pending {
      return Standing, [];
    }
    var was := w.ledger.intents[i];
    if HaltReason(env, w.ledger).Some? {
      return Standing, [PaymentHalted(now, id, OperatorPhase)];
    }
    var verdict := GateVerdict(env, w.ledger, was.intent, None, now);
    PermittedIsPositive(env, w.ledger, was.intent, now);
    var e := OperatorDecision(now, id, verdict.outcome, verdict.reasons, verdict.mandateId, acknowledged);
    if verdict.outcome == Block {
      return Changing(i, w'.ledger.intents[i]), [e];
    }
    if RequiresChallenge(env, was.intent, verdict) && !acknowledged {
      return Standing, [e];
    }
    hide IsSettlement, IsFailure;
    var s, rest := PayOutEffect(env, w.(audit := w.audit + [e]), i, now, answer);
    assert (w.audit + [e]) + rest == w.audit + ([e] + rest);
    assert ([e] + rest)[1..] == rest;
    return Changing(i, s), [e] + rest;
  }

  lemma RefundEffect(env: Env, w: World, id: string, requested: Option<int>, now: Instant, sent: bool)
      returns (effect: Effect, events: seq<Event>)
    ensures Shape(w, Refund(env, w, id, requested, now, sent), effect, events)
    ensures effect.Standing? || effect.Changing?
    ensures Explains(w, RefundIt(id, requested, now, sent), effect, events)
  {
    var amount := RefundAmount(env, w.ledger, id, requested);
    if amount.None? || !sent {
      return Standing, [];
    }
    var i := IntentIndex(w.ledger.intents, id);
    return Changing(i, Refund(env, w, id, requested, now, sent).ledger.intents[i]), [PaymentRefunded(now, id, amount.value)];
  }

  /** Every step has an effect, and the effect explains everything the step did. */
  lemma StepEffect(env: Env, w: World, step: Step) returns (effect: Effect, events: seq<Event>)
    requires FreshStep(w, step) && FlightsApart(w)
    requires forall s :: s in w.ledger.intents && s.status == Pending ==> s.refundedMinor.None?
    ensures Shape(w, Next(env, w, step), effect, events)
    ensures Explains(w, step, effect, events)
    ensures effect.Launching? <==> Launches(env, w, step)
    ensures effect.Launching? ==> effect.f == LaunchOf(env, w, step)
  {
    match step {
      case Begin(intent, attestation, now) => effect, events := BeginEffect(env, w, step);
      case Finish(i, answer) =>
        if i < |w.flights| {
          var s;
          s, events := FinishEffect(env, w, i, answer);
          effect := Landing(i, s);
        } else {
          effect, events := Standing, [];
        }
      case ApproveIt(id, acknowledged, now, answer) => effect, events := ApproveEffect(env, w, id, acknowledged, now, answer);
      case RefundIt(id, requested, now, sent) => effect, events := RefundEffect(env, w, id, requested, now, sent);
      case GrantIt(m, now) =>
        effect, events := Standing, if MandateIndex(w.ledger.mandates, m.id) >= 0 then [] else [MandateGranted(now, m.id)];
      case AmendIt(id, patch, now) => effect, events := Standing, [MandateAmended(now, id)];
      case RevokeIt(id, now) => effect, events := Standing, [MandateRevoked(now, id)];
      case SetKillSwitch(on) => effect, events := Standing, [];
      case ResetBreaker => effect, events := Standing, [];
    }
  }
}
