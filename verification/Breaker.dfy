/** When payments are halted: the kill switch as last set, or as many bad outcomes in a row as
 *  the breaker allows (src/core/executor.ts:169-182, 233-403, 427-511). */
module Breaker {
  import opened Types
  import opened Store
  import opened Executor
  import opened Effects
  import opened Invariants
  import opened ApprovalMeaning
  import opened ExecutionMeaning

  /** An entry that the step filed, or whose status it changed. */
  predicate IsNews(w: World, w': World, i: nat) {
    && i < |w'.ledger.intents|
    && (i >= |w.ledger.intents| || w.ledger.intents[i].status != w'.ledger.intents[i].status)
  }

  /** The step settled a payment. */
  ghost predicate WentWell(w: World, w': World) {
    exists i: nat :: IsNews(w, w', i) && w'.ledger.intents[i].status == Settled
  }

  /** The step failed a payment, or blocked one for another reason than a halt. */
  ghost predicate WentBad(env: Env, w: World, w': World) {
    exists i: nat :: IsNews(w, w', i)
                && (w'.ledger.intents[i].status == Failed || (w'.ledger.intents[i].status == Blocked && !Halted(env, w.ledger)))
  }

  /** The bad outcomes in a row, up to the last good one or the last reset. */
  ghost function BadInARow(env: Env, start: World, steps: seq<Step>): int {
    if steps == [] then start.ledger.failures
    else
      var n := |steps| - 1;
      var w := Run(env, start, steps[..n]);
      if steps[n].ResetBreaker? || WentWell(w, Next(env, w, steps[n])) then 0
      else BadInARow(env, start, steps[..n]) + (if WentBad(env, w, Next(env, w, steps[n])) then 1 else 0)
  }

  /** The switch as last set. */
  function SwitchedOn(start: bool, steps: seq<Step>): bool {
    if steps == [] then start
    else if steps[|steps| - 1].SetKillSwitch? then steps[|steps| - 1].on
    else SwitchedOn(start, steps[..|steps| - 1])
  }

  ghost predicate Counts(env: Env, w: World, step: Step, w': World) {
    && (w'.ledger.failures ==
        if step.ResetBreaker? || WentWell(w, w') then 0
        else if WentBad(env, w, w') then w.ledger.failures + 1
        else w.ledger.failures)
    && (w'.ledger.killed == if step.SetKillSwitch? then step.on else w.ledger.killed)
  }

  /** One more entry, and the count with it. */
  lemma FiledCounts(env: Env, w: World, step: Step, w': World, s: StoredIntent)
    requires w'.ledger.intents == w.ledger.intents + [s] && w'.ledger.killed == w.ledger.killed
    requires !step.ResetBreaker? && !step.SetKillSwitch?
    requires w'.ledger.failures == match s.status {
               case Settled => 0
               case Pending => w.ledger.failures
               case Failed => w.ledger.failures + 1
               case Blocked => if Halted(env, w.ledger) then w.ledger.failures else w.ledger.failures + 1
             }
    ensures Counts(env, w, step, w')
  {
    assert forall i: nat :: IsNews(w, w', i) <==> i == |w.ledger.intents|;
    assert w'.ledger.intents[|w.ledger.intents|] == s;
  }

  /** One entry answered, and the count with it. */
  lemma AnsweredCounts(env: Env, w: World, step: Step, w': World, i: nat, s: StoredIntent)
    requires i < |w.ledger.intents| && w'.ledger.intents == w.ledger.intents[i := s] && w'.ledger.killed == w.ledger.killed
    requires w.ledger.intents[i].status == Pending && s.status != Pending && !Halted(env, w.ledger)
    requires !step.ResetBreaker? && !step.SetKillSwitch?
    requires w'.ledger.failures == if s.status == Settled then 0 else w.ledger.failures + 1
    ensures Counts(env, w, step, w')
  {
    assert forall k: nat :: IsNews(w, w', k) <==> k == i;
    assert IsNews(w, w', i);
  }

  /** No entry changed its status. */
  lemma QuietCounts(env: Env, w: World, step: Step, w': World)
    requires |w'.ledger.intents| == |w.ledger.intents|
    requires forall i :: 0 <= i < |w.ledger.intents| ==> w'.ledger.intents[i].status == w.ledger.intents[i].status
    requires w'.ledger.failures == (if step.ResetBreaker? then 0 else w.ledger.failures)
    requires w'.ledger.killed == (if step.SetKillSwitch? then step.on else w.ledger.killed)
    ensures Counts(env, w, step, w')
  {
  }

  lemma BeginCounts(env: Env, w: World, step: Step)
    requires step.Begin? && FreshStep(w, step)
    ensures Counts(env, w, step, Next(env, w, step))
  {
    hide Counts, BeginExecute, Verdict, HaltReason;
    var Begin(intent, attestation, now) := step;
    var w' := Next(env, w, step);
    TakenMeans(w.ledger.intents, intent.id);
    if Halted(env, w.ledger) {
      HaltMeans(env, w, intent, attestation, now);
      FiledCounts(env, w, step, w', w'.ledger.intents[|w.ledger.intents|]);
    } else {
      BeginMeans(env, w, intent, attestation, now);
      if Verdict(env, w, intent, attestation, now).outcome == AutoExecute {
        QuietCounts(env, w, step, w');
      } else {
        FiledCounts(env, w, step, w', w'.ledger.intents[|w.ledger.intents|]);
      }
    }
  }

  lemma FinishCounts(env: Env, w: World, step: Step)
    requires step.Finish? && FlightsApart(w)
    ensures Counts(env, w, step, Next(env, w, step))
  {
    hide Counts, FinishExecute;
    var w' := Next(env, w, step);
    if step.flight < |w.flights| {
      FinishMeans(env, w, step.flight, step.answer);
      TakenMeans(w.ledger.intents, w.flights[step.flight].intent.id);
      FiledCounts(env, w, step, w', w'.ledger.intents[|w.ledger.intents|]);
    } else {
      QuietCounts(env, w, step, w');
    }
  }

  lemma ApproveCounts(env: Env, w: World, step: Step)
    requires step.ApproveIt?
    ensures Counts(env, w, step, Next(env, w, step))
  {
    hide Counts, Approve, CheckApproval, GateVerdict;
    var ApproveIt(id, acknowledged, now, answer) := step;
    var w' := Next(env, w, step);
    var i := IntentIndex(w.ledger.intents, id);
    if i < 0 {
      CheckUnknown(env, w, id, acknowledged, now);
      ApproveIsBothHalves(env, w, id, acknowledged, now, answer);
      QuietCounts(env, w, step, w');
    } else if LetsThrough(env, w, i, acknowledged, now) {
      PaymentMeans(env, w, id, acknowledged, now, answer, i);
      AnsweredCounts(env, w, step, w', i, w'.ledger.intents[i]);
    } else {
      NoPaymentMeans(env, w, id, acknowledged, now, answer, i);
      CheckMeans(env, w, id, acknowledged, now, i);
      if w'.ledger.intents == w.ledger.intents {
        QuietCounts(env, w, step, w');
      } else {
        AnsweredCounts(env, w, step, w', i, w'.ledger.intents[i]);
      }
    }
  }

  lemma StepCounts(env: Env, w: World, step: Step)
    requires Inv(w) && FreshStep(w, step)
    ensures Counts(env, w, step, Next(env, w, step))
  {
    hide Counts, BeginExecute, FinishExecute, Approve;
    match step {
      case Begin(_, _, _) => BeginCounts(env, w, step);
      case Finish(_, _) => FinishCounts(env, w, step);
      case ApproveIt(_, _, _, _) => ApproveCounts(env, w, step);
      case _ => QuietCounts(env, w, step, Next(env, w, step));
    }
  }

  /** THE BREAKER over runs. Payments are halted exactly when the switch was last set, or there
   *  have been as many bad outcomes in a row as the breaker allows. */
  lemma {:induction false} HaltedIff(env: Env, start: World, steps: seq<Step>)
    requires IsFresh(start) && FreshIds(env, start, steps)
    ensures var w := Run(env, start, steps);
            && w.ledger.failures == BadInARow(env, start, steps)
            && w.ledger.killed == SwitchedOn(start.ledger.killed, steps)
            && (HaltReason(env, w.ledger).Some? <==>
                  SwitchedOn(start.ledger.killed, steps) || BadInARow(env, start, steps) >= env.breakerThreshold)
  {
    hide Next, Inv, WentWell, WentBad;
    if steps != [] {
      var n := |steps| - 1;
      FreshPrefix(env, start, steps);
      HaltedIff(env, start, steps[..n]);
      RunKeepsInv(env, start, steps[..n]);
      StepCounts(env, Run(env, start, steps[..n]), steps[n]);
    }
  }

  /** Under a halt nothing new is launched and the operator pays nothing. */
  lemma NothingUnderHalt(env: Env, w: World, step: Step)
    requires HaltReason(env, w.ledger).Some?
    ensures |Next(env, w, step).flights| <= |w.flights|
    ensures step.ApproveIt? ==> Next(env, w, step).ledger == w.ledger
  {
    hide Verdict, GateVerdict, Settle;
  }
}
