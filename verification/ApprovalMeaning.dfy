/** What an approval does, branch by branch, and which payments need no acknowledgement
 *  (src/core/executor.ts:195-231, 427-511). */
module ApprovalMeaning {
  import opened Prelude
  import opened Types
  import opened Store
  import opened Trail
  import opened Executor

  predicate Halted(env: Env, ledger: Ledger) {
    ledger.killed || ledger.failures >= env.breakerThreshold
  }

  /** The first entry under the id. */
  predicate IsEntry(intents: seq<StoredIntent>, id: string, i: nat) {
    && i < |intents| && intents[i].intent.id == id
    && forall j :: 0 <= j < i ==> intents[j].intent.id != id
  }

  /** Whether the payment can be taken back: the provider says so, or else the rail does. */
  predicate CanBeTakenBack(env: Env, rail: RailKind) {
    match env.railOf(rail)
    case Some(p) => p.reversibility == Reversible
    case None => rail == Card || rail == Checkout
  }

  /** A payment the operator may let through without acknowledging a challenge. */
  predicate IsLight(env: Env, intent: PaymentIntent, tier: RiskTier) {
    tier != High && CanBeTakenBack(env, intent.rail) && intent.amount < env.challengeThreshold
  }

  function Answered(id: string, verdict: GateDecision, acknowledged: bool, now: Instant): Event {
    OperatorDecision(now, id, verdict.outcome, verdict.reasons, verdict.mandateId, acknowledged)
  }

  /** Whether an approval leads to a payment. */
  predicate LetsThrough(env: Env, w: World, i: nat, acknowledged: bool, now: Instant)
    requires i < |w.ledger.intents|
  {
    var s := w.ledger.intents[i];
    var verdict := GateVerdict(env, w.ledger, s.intent, None, now);
    && s.status == Pending && !Halted(env, w.ledger) && verdict.outcome != Block
    && (acknowledged || IsLight(env, s.intent, verdict.risk.tier))
  }

  /** The entry and the count after the operator ran into a block. */
  function Refused(w: World, i: nat, reasons: seq<Reason>, e: Event): World
    requires i < |w.ledger.intents|
  {
    var s := w.ledger.intents[i];
    World(w.ledger.(intents := w.ledger.intents[i := s.(status := Blocked, reasons := reasons)], failures := w.ledger.failures + 1),
          w.audit + [e], w.flights)
  }

  /** THE CHALLENGE, exactly. A payment is asked for if and only if the intent is pending, no
   *  halt is in force, the gate does not block, and the operator acknowledged or the payment is
   *  light. Otherwise the entry stays as it is, unless the gate blocks it. */
  lemma CheckMeans(env: Env, w: World, id: string, acknowledged: bool, now: Instant, i: nat)
    requires IsEntry(w.ledger.intents, id, i)
    ensures var s := w.ledger.intents[i];
            var verdict := GateVerdict(env, w.ledger, s.intent, None, now);
            var (w', ask) := CheckApproval(env, w, id, acknowledged, now);
            && (ask.Some? <==> LetsThrough(env, w, i, acknowledged, now))
            && (ask.Some? ==> ask.value == Paying(id, s.intent, now))
            && w' == if s.status != Pending then w
                     else if Halted(env, w.ledger) then World(w.ledger, w.audit + [PaymentHalted(now, id, OperatorPhase)], w.flights)
                     else if verdict.outcome == Block then Refused(w, i, verdict.reasons, Answered(id, verdict, acknowledged, now))
                     else World(w.ledger, w.audit + [Answered(id, verdict, acknowledged, now)], w.flights)
  {
    hide GateVerdict;
  }

  /** Nothing is known under the id: nothing happens. */
  lemma CheckUnknown(env: Env, w: World, id: string, acknowledged: bool, now: Instant)
    requires forall j :: 0 <= j < |w.ledger.intents| ==> w.ledger.intents[j].intent.id != id
    ensures CheckApproval(env, w, id, acknowledged, now) == (w, None)
  {
  }

  /** The payment of an approval: the entry is settled or failed, the receipt kept, the count of
   *  bad outcomes cleared or raised. */
  lemma PaymentMeans(env: Env, w: World, id: string, acknowledged: bool, now: Instant, answer: RailAnswer, i: nat)
    requires IsEntry(w.ledger.intents, id, i) && LetsThrough(env, w, i, acknowledged, now)
    ensures var s := w.ledger.intents[i];
            var p := s.intent;
            var said := Answered(id, GateVerdict(env, w.ledger, p, None, now), acknowledged, now);
            var w' := Approve(env, w, id, acknowledged, now, answer);
            && w'.flights == w.flights
            && match (env.railOf(p.rail), answer) {
                 case (None, _) =>
                   && w'.audit == w.audit + [said]
                   && w'.ledger == w.ledger.(intents := w.ledger.intents[i :=
                                               s.(status := Failed, reasons := [RailError("no provider registered")])],
                                             failures := w.ledger.failures + 1)
                 case (Some(_), Declined(error)) =>
                   && w'.audit == w.audit + [said, PaymentFailed(now, id, error)]
                   && w'.ledger == w.ledger.(intents := w.ledger.intents[i := s.(status := Failed, reasons := [RailError(error)])],
                                             failures := w.ledger.failures + 1)
                 case (Some(provider), Receipted(rid, ok)) =>
                   && w'.audit == w.audit + [said, PaymentSettled(now, id, rid, p.amount, p.currency, p.rail),
                                           PaymentVerified(now, id, rid, ok)]
                   && w'.ledger == w.ledger.(
                        intents := w.ledger.intents[i := s.(status := Settled, settledAt := Some(now), receiptId := Some(rid))],
                        receipts := w.ledger.receipts[rid := Receipt(rid, id, p.rail, p.amount, p.currency, now, Some(provider.id))],
                        failures := 0)
               }
  {
    hide GateVerdict;
    var said := Answered(id, GateVerdict(env, w.ledger, w.ledger.intents[i].intent, None, now), acknowledged, now);
    assert forall e :: (w.audit + [said]) + [e] == w.audit + [said, e];
    assert forall e, f :: (w.audit + [said]) + [e, f] == w.audit + [said, e, f];
    assert (w.audit + [said]) + [] == w.audit + [said];
  }

  /** An approval that asks for no payment is its check alone. */
  lemma NoPaymentMeans(env: Env, w: World, id: string, acknowledged: bool, now: Instant, answer: RailAnswer, i: nat)
    requires IsEntry(w.ledger.intents, id, i) && !LetsThrough(env, w, i, acknowledged, now)
    ensures Approve(env, w, id, acknowledged, now, answer) == CheckApproval(env, w, id, acknowledged, now).0
  {
    hide GateVerdict;
  }

  // --- the second halves ---

  function FailedAt(ledger: Ledger, i: nat, error: string): Ledger
    requires i < |ledger.intents|
  {
    ledger.(intents := ledger.intents[i := ledger.intents[i].(status := Failed, reasons := [RailError(error)])],
            failures := ledger.failures + 1)
  }

  /** A rail's answer to a call that waited is written over whatever the entry says by then, and
   *  counted; when there is no entry any more the trail and the receipts still tell. */
  lemma LandMeans(env: Env, w: World, a: Ask, answer: RailAnswer)
    requires a.Paying?
    ensures var p := a.intent;
            var w' := LandPayment(env, w, a, answer);
            var i := IntentIndex(w.ledger.intents, a.id);
            && w'.flights == w.flights
            && match (env.railOf(p.rail), answer) {
                 case (Some(provider), Receipted(rid, ok)) =>
                   var receipts := w.ledger.receipts[rid := Receipt(rid, p.id, p.rail, p.amount, p.currency, a.now, Some(provider.id))];
                   && w'.audit == w.audit + [PaymentSettled(a.now, p.id, rid, p.amount, p.currency, p.rail),
                                           PaymentVerified(a.now, p.id, rid, ok)]
                   && w'.ledger ==
                      if i < 0 then w.ledger.(receipts := receipts)
                      else w.ledger.(
                             intents := w.ledger.intents[i :=
                               w.ledger.intents[i].(status := Settled, settledAt := Some(a.now), receiptId := Some(rid))],
                             receipts := receipts, failures := 0)
                 case (Some(_), Declined(error)) =>
                   && w'.audit == w.audit + [PaymentFailed(a.now, p.id, error)]
                   && w'.ledger == if i < 0 then w.ledger else FailedAt(w.ledger, i, error)
                 case (None, _) =>
                   && w'.audit == w.audit
                   && w'.ledger == if i < 0 then w.ledger else FailedAt(w.ledger, i, "no provider registered")
               }
  {
  }

  /** A refund that was sent raises the sum that was remembered, whatever the entry says by then. */
  lemma LandRefundMeans(w: World, a: Ask, sent: bool)
    requires a.Refunding?
    ensures var i := IntentIndex(w.ledger.intents, a.id);
            LandRefund(w, a, sent) ==
            if !sent || i < 0 then w
            else World(w.ledger.(intents := w.ledger.intents[i := w.ledger.intents[i].(refundedMinor := Some(a.already + a.amount))]),
                       w.audit + [PaymentRefunded(a.now, a.id, a.amount)], w.flights)
  {
  }
}
