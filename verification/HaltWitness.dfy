/** A settlement the process checker reports as made while halted, although nothing was wrong:
 *  the operator was refused during the halt and approved once it was over. */
module HaltWitness {
  import opened Prelude
  import opened Types
  import opened Store
  import opened Trail
  import opened Executor
  import opened Trajectory
  import opened Scenario

  const HELD_UP: seq<Step> := [OPENING[0], SetKillSwitch(true), OPENING[1], SetKillSwitch(false), OPENING[1]]

  /** The approval that comes during the halt only leaves its mark. */
  lemma RefusedApproval(env: Env, w: World)
    requires w.ledger.killed && |w.ledger.intents| == 1
    requires w.ledger.intents[0].intent == FIRST && w.ledger.intents[0].status == Pending
    ensures Next(env, w, OPENING[1]) == w.(audit := w.audit + [PaymentHalted(0, "first", OperatorPhase)])
  {
    assert IntentIndex(w.ledger.intents, "first") == 0;
  }

  lemma RunFive(env: Env, start: World, s: seq<Step>)
    requires |s| == 5
    ensures Run(env, start, s) == Next(env, Next(env, Next(env, Next(env, Next(env, start, s[0]), s[1]), s[2]), s[3]), s[4])
  {
    hide Next;
    RunSnoc(env, start, [], s[0]);
    RunSnoc(env, start, [] + [s[0]], s[1]);
    RunSnoc(env, start, [] + [s[0]] + [s[1]], s[2]);
    RunSnoc(env, start, [] + [s[0]] + [s[1]] + [s[2]], s[3]);
    RunSnoc(env, start, [] + [s[0]] + [s[1]] + [s[2]] + [s[3]], s[4]);
    assert s == [] + [s[0]] + [s[1]] + [s[2]] + [s[3]] + [s[4]];
    assert Run(env, start, []) == start;
  }

  /** Only the first step starts an execution. */
  lemma HeldUpIsFresh(env: Env, m: Mandate)
    requires IsInstallation(env) && m.scope == ClassScope("tools")
    ensures IsFresh(Start(m)) && FreshIds(env, Start(m), HELD_UP)
  {
    hide Run, Next;
    OpeningIsFresh(env, m);
    assert HELD_UP[..0] == OPENING[..0];
    assert FreshStep(Run(env, Start(m), OPENING[..0]), OPENING[0]);
  }

  lemma Switched(env: Env, w: World, on: bool)
    ensures Next(env, w, SetKillSwitch(on)) == w.(ledger := w.ledger.(killed := on))
  {
  }

  /** The checker's report of a halt is no proof of a fault: this one comes from an approval
   *  refused during a halt and given again afterwards. */
  lemma ReportedThoughApproved() returns (env: Env, start: World, steps: seq<Step>, id: string)
    ensures IsFresh(start) && FreshIds(env, start, steps)
    ensures Broken(Run(env, start, steps).audit, SettleWhileHalted(id))
  {
    hide Run, Next, FreshIds, IsFresh, Broken;
    env := Installation(None, None, 10);
    start, steps, id := Start(DOLLARS), HELD_UP, "first";
    HeldUpIsFresh(env, DOLLARS);
    RunFive(env, start, HELD_UP);
    var w1 := FirstIsParked(env, DOLLARS);
    Switched(env, w1, true);
    var w2 := Next(env, w1, HELD_UP[1]);
    RefusedApproval(env, w2);
    var w3 := Next(env, w2, HELD_UP[2]);
    Switched(env, w3, false);
    var w4 := Next(env, w3, HELD_UP[3]);
    assert w4.ledger == w1.ledger;
    FirstIsApproved(env, DOLLARS, w4);
    Reported(w4.audit, Next(env, w4, HELD_UP[4]).audit);
  }

  lemma Reported(before: seq<Event>, audit: seq<Event>)
    requires |before| == 2 && before[0].AgentDecision? && before[0].intent == FIRST && before[1] == PaymentHalted(0, "first", OperatorPhase)
    requires |audit| == 5 && audit[..2] == before && audit[3].PaymentSettled? && audit[3].intentId == "first"
    ensures Broken(audit, SettleWhileHalted("first"))
  {
    assert audit[0] == audit[..2][0] && audit[1] == audit[..2][1];
    SaysAll(audit, 1, 3);
  }

  lemma SaysAll(audit: seq<Event>, h: nat, p: nat)
    requires 1 <= h < |audit| && p < |audit|
    requires audit[0].AgentDecision? && audit[0].intent == FIRST
    requires audit[h] == PaymentHalted(0, "first", OperatorPhase)
    requires audit[p].PaymentSettled? && audit[p].intentId == "first"
    ensures Broken(audit, SettleWhileHalted("first"))
  {
    assert Says(audit[0], Decided) == Some("first");
    assert Says(audit[h], Halted) == Some("first");
    assert Says(audit[p], PaidOut) == Some("first");
  }
}
