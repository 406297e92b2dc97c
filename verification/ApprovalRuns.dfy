/** Every payment a run makes was let through: unattended by an agent-phase decision, or by the
 *  operator, who acknowledged it unless it is light. */
module ApprovalRuns {
  import opened Prelude
  import opened Types
  import opened Store
  import opened Trail
  import opened Executor
  import opened Effects
  import opened Invariants
  import opened ApprovalMeaning

  predicate RanUnattended(trail: seq<Event>, k: nat, id: string) {
    exists j :: 0 <= j < k && j < |trail| && trail[j].AgentDecision? && trail[j].verdict.outcome == AutoExecute && trail[j].intent.id == id
  }

  /** The operator's answer to the intent, with no block. */
  predicate IsConsent(e: Event, id: string) {
    e.OperatorDecision? && e.intentId == id && e.outcome != Block
  }

  /** Small, reversible and not at high risk. */
  predicate PaysLightly(env: Env, said: Event, paid: Event)
    requires said.OperatorDecision? && paid.PaymentSettled?
  {
    paid.amount < env.challengeThreshold && CanBeTakenBack(env, paid.rail) && ElevatedRisk !in said.reasons
  }

  predicate FollowsConsent(env: Env, trail: seq<Event>, k: nat)
    requires k < |trail| && trail[k].PaymentSettled?
  {
    && k > 0 && IsConsent(trail[k - 1], trail[k].intentId)
    && (trail[k - 1].acknowledged || PaysLightly(env, trail[k - 1], trail[k]))
  }

  /** Exactly one of the two ways. */
  ghost predicate Authorized(env: Env, trail: seq<Event>, k: nat)
    requires k < |trail|
  {
    trail[k].PaymentSettled? ==> (RanUnattended(trail, k, trail[k].intentId) <==> !FollowsConsent(env, trail, k))
  }

  ghost predicate AllAuthorized(env: Env, trail: seq<Event>) {
    forall k :: 0 <= k < |trail| ==> Authorized(env, trail, k)
  }

  /** The operator only answers for intents the ledger holds. */
  predicate AnswersAreStored(w: World) {
    forall k :: 0 <= k < |w.audit| && w.audit[k].OperatorDecision? ==> HasIntent(w.ledger.intents, w.audit[k].intentId)
  }

  lemma AutoIdsMean(trail: seq<Event>, id: string)
    ensures id in AutoIds(trail) <==> RanUnattended(trail, |trail|, id)
  {
    if trail != [] {
      var n := |trail| - 1;
      AutoIdsMean(trail[..n], id);
      assert forall j :: 0 <= j < n ==> trail[..n][j] == trail[j];
    }
  }

  lemma AuthorizedBefore(env: Env, trail: seq<Event>, more: seq<Event>, k: nat)
    requires k < |trail|
    ensures Authorized(env, trail + more, k) <==> Authorized(env, trail, k)
  {
    var all := trail + more;
    assert all[k] == trail[k] && (k > 0 ==> all[k - 1] == trail[k - 1]);
    assert forall j :: 0 <= j < k ==> all[j] == trail[j];
  }

  /** A high risk is said to the operator. */
  lemma HighRiskIsSaid(env: Env, ledger: Ledger, intent: PaymentIntent, now: Instant)
    ensures var v := GateVerdict(env, ledger, intent, None, now);
            v.outcome != Block && v.risk.tier != High ==> ElevatedRisk !in v.reasons
  {
  }

  /** The operator's payment is the second event of its step. */
  lemma ApproveAuthorizes(env: Env, w: World, id: string, acknowledged: bool, now: Instant, answer: RailAnswer, k: nat)
    requires Inv(w)
    requires |w.audit| <= k < |Approve(env, w, id, acknowledged, now, answer).audit|
    ensures Authorized(env, Approve(env, w, id, acknowledged, now, answer).audit, k)
  {
    hide Approve, GateVerdict, CheckApproval;
    var trail := Approve(env, w, id, acknowledged, now, answer).audit;
    var i := IntentIndex(w.ledger.intents, id);
    if i >= 0 {
      var intent := w.ledger.intents[i].intent;
      var verdict := GateVerdict(env, w.ledger, intent, None, now);
      CheckMeans(env, w, id, acknowledged, now, i);
      if LetsThrough(env, w, i, acknowledged, now) {
        PaymentMeans(env, w, id, acknowledged, now, answer, i);
        HighRiskIsSaid(env, w.ledger, intent, now);
        assert trail[|w.audit|] == Answered(id, verdict, acknowledged, now);
        if trail[k].PaymentSettled? {
          assert k == |w.audit| + 1 && FollowsConsent(env, trail, k);
          AutoIdsMean(w.audit, id);
          assert forall j :: 0 <= j < |w.audit| ==> trail[j] == w.audit[j];
        }
      } else {
        NoPaymentMeans(env, w, id, acknowledged, now, answer, i);
      }
    } else {
      CheckUnknown(env, w, id, acknowledged, now);
      ApproveIsBothHalves(env, w, id, acknowledged, now, answer);
    }
  }

  /** A rail's answer for a flight pays what the trail let run unattended, and what the
   *  operator never answered for. */
  lemma LandingAuthorizes(env: Env, w: World, step: Step, w': World, i: nat, s: StoredIntent, events: seq<Event>, k: nat)
    requires Inv(w) && AnswersAreStored(w)
    requires Shape(w, w', Landing(i, s), events) && Explains(w, step, Landing(i, s), events)
    requires |w.audit| <= k < |w'.audit|
    ensures Authorized(env, w'.audit, k)
  {
    var id := w.flights[i].intent.id;
    AutoIdsMean(w.audit, id);
    assert forall j :: 0 <= j < |w.audit| ==> w'.audit[j] == w.audit[j];
    hide AutoIds;
    if w'.audit[k].PaymentSettled? {
      assert k == |w.audit| && w'.audit[k].intentId == id;
      assert RanUnattended(w'.audit, k, id);
    }
  }

  lemma FinishAuthorizes(env: Env, w: World, step: Step, k: nat)
    requires Inv(w) && AnswersAreStored(w) && step.Finish?
    requires |w.audit| <= k < |Next(env, w, step).audit|
    ensures Authorized(env, Next(env, w, step).audit, k)
  {
    hide FinishExecute, Authorized, AnswersAreStored;
    var i := step.flight;
    if i < |w.flights| {
      var s, events := FinishEffect(env, w, i, step.answer);
      LandingAuthorizes(env, w, step, Next(env, w, step), i, s, events, k);
    }
  }

  /** The other steps pay nobody. */
  lemma OthersPayNobody(env: Env, w: World, step: Step, k: nat)
    requires !step.Finish? && !step.ApproveIt?
    requires |w.audit| <= k < |Next(env, w, step).audit|
    ensures !Next(env, w, step).audit[k].PaymentSettled?
  {
    hide GateVerdict, Verdict, InputsOf, RefundAmount;
  }

  lemma NewAnswersAreStored(w: World, step: Step, effect: Effect, events: seq<Event>, k: nat)
    requires Explains(w, step, effect, events) && k < |events| && events[k].OperatorDecision?
    ensures HasIntent(w.ledger.intents, events[k].intentId)
  {
    hide HasIntent;
    if effect.Changing? {
      HasIntentIff(w.ledger.intents, w.ledger.intents[effect.i].intent.id);
    }
  }

  lemma EffectKeepsAnswers(w: World, step: Step, w': World, effect: Effect, events: seq<Event>)
    requires AnswersAreStored(w)
    requires Shape(w, w', effect, events) && Explains(w, step, effect, events)
    ensures AnswersAreStored(w')
  {
    hide Explains, HasIntent;
    EffectIds(w, step, w', effect, events);
    forall k | |w.audit| <= k < |w'.audit| && w'.audit[k].OperatorDecision?
      ensures HasIntent(w'.ledger.intents, w'.audit[k].intentId)
    {
      NewAnswersAreStored(w, step, effect, events, k - |w.audit|);
    }
  }

  lemma StepAuthorizes(env: Env, w: World, step: Step)
    requires Inv(w) && AnswersAreStored(w) && FreshStep(w, step) && AllAuthorized(env, w.audit)
    ensures AnswersAreStored(Next(env, w, step)) && AllAuthorized(env, Next(env, w, step).audit)
  {
    hide Inv, Explains, Authorized, AnswersAreStored, Approve, BeginExecute, FinishExecute, Refund, FreshStep;
    var effect, events := SoundEffect(env, w, step);
    var w' := Next(env, w, step);
    EffectKeepsAnswers(w, step, w', effect, events);
    forall k | 0 <= k < |w'.audit| ensures Authorized(env, w'.audit, k) {
      if k < |w.audit| {
        AuthorizedBefore(env, w.audit, events, k);
      } else if step.ApproveIt? {
        ApproveAuthorizes(env, w, step.id, step.acknowledged, step.now, step.answer, k);
      } else if step.Finish? {
        FinishAuthorizes(env, w, step, k);
      } else {
        OthersPayNobody(env, w, step, k);
        NothingPaid(env, w'.audit, k);
      }
    }
  }

  lemma NothingPaid(env: Env, trail: seq<Event>, k: nat)
    requires k < |trail| && !trail[k].PaymentSettled?
    ensures Authorized(env, trail, k)
  {
  }

  /** PAYMENTS ARE LET THROUGH. In every run, executions overlapping or not, every payment
   *  either ran unattended by the verdict recorded for it, or it directly follows the
   *  operator's consent to it, acknowledged or else light: small, reversible, and not at high
   *  risk. Never both. */
  lemma {:induction false} PaymentsAreAuthorized(env: Env, start: World, steps: seq<Step>)
    requires IsFresh(start) && FreshIds(env, start, steps)
    ensures AllAuthorized(env, Run(env, start, steps).audit)
    ensures AnswersAreStored(Run(env, start, steps))
  {
    hide Next, Inv, Authorized;
    if steps != [] {
      var n := |steps| - 1;
      FreshPrefix(env, start, steps);
      PaymentsAreAuthorized(env, start, steps[..n]);
      RunKeepsInv(env, start, steps[..n]);
      StepAuthorizes(env, Run(env, start, steps[..n]), steps[n]);
    }
  }
}
