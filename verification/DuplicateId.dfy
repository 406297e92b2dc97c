/** An id used twice, in a run: two payments leave the rail and one reaches the ledger. */
module DuplicateId {
  import opened Prelude
  import opened Types
  import opened Store
  import opened Trail
  import opened Executor
  import opened Effects
  import opened Conservation
  import opened Scenario
  import opened BudgetBound

  const TWICE: seq<Step> :=
    [Purchase(1, 0), Purchase(1, 0), Finish(0, Receipted("a", true)), Finish(0, Receipted("b", true))]

  predicate IsBeginOf(step: Step, id: string) {
    step.Begin? && step.intent.id == id
  }

  lemma RunFour(env: Env, start: World, before: seq<Step>, s: seq<Step>)
    requires |s| == 4
    ensures var w := Run(env, start, before);
            Run(env, start, before + s) == Next(env, Next(env, Next(env, Next(env, w, s[0]), s[1]), s[2]), s[3])
  {
    hide Next;
    RunSnoc(env, start, before, s[0]);
    RunSnoc(env, start, before + [s[0]], s[1]);
    RunSnoc(env, start, before + [s[0]] + [s[1]], s[2]);
    RunSnoc(env, start, before + [s[0]] + [s[1]] + [s[2]], s[3]);
    assert before + s == before + [s[0]] + [s[1]] + [s[2]] + [s[3]];
  }

  /** The gate lets the purchase through as long as the ledger has only the first payment. */
  lemma LaunchesAgain(env: Env, w: World) returns (e: Event)
    requires IsInstallation(env) && w.ledger.mandates == [Plan(1)] && w.ledger.intents == [KNOWN]
    requires !w.ledger.killed && w.ledger.failures == 0 && CalmTrail(w.audit, true)
    ensures var w' := Next(env, w, Purchase(1, 0));
            && w' == w.(audit := w.audit + [e], flights := w.flights + [LaunchOf(env, w, Purchase(1, 0))])
            && LaunchOf(env, w, Purchase(1, 0)).intent.id == Id(1)
            && LaunchOf(env, w, Purchase(1, 0)).intent.rail == Card
            && CalmTrail(w'.audit, true)
    ensures Launches(env, w, Purchase(1, 0)) && LaunchOf(env, w, Purchase(1, 0)).verdict.mandateId == Some("m")
    ensures e.AgentDecision? && e.verdict.outcome == AutoExecute && e.intent == Purchase(1, 0).intent
  {
    hide GateVerdict, CalmTrail, Next;
    var step := Purchase(1, 0);
    PlanAdmits(env, 1, w.ledger, 1);
    assert IsStreaming(w.ledger.mandates, GateVerdict(env, w.ledger, step.intent, None, 0));
    CalmIsQuiet(step.intent, w.audit, true, 0);
    e := LaunchAdds(env, w, step);
    StillCalm(w.audit, e);
  }

  /** What landing the first flight does to the counts of one id. */
  lemma LandsTwice(env: Env, w: World, rid: string, id: string) returns (s: StoredIntent)
    requires env.railOf == Rail && |w.flights| > 0 && w.flights[0].intent.id == id
    ensures var f, w' := w.flights[0], Next(env, w, Finish(0, Receipted(rid, true)));
            && w'.flights == w.flights[1..]
            && Sum(w'.audit, InTrail(TimesPaid(id))) == Sum(w.audit, InTrail(TimesPaid(id))) + 1
            && s == StoredIntent(f.intent, Settled, f.verdict.mandateId, f.verdict.reasons, Some(f.now), Some(rid), None)
            && w'.ledger.intents == if HasIntent(w.ledger.intents, id) then w.ledger.intents else w.ledger.intents + [s]
  {
    var f := w.flights[0];
    s := StoredIntent(f.intent, Settled, f.verdict.mandateId, f.verdict.reasons, Some(f.now), Some(rid), None);
    DuplicateIdEscapesLedger(env, w, 0, rid, true);
    assert w.flights[..0] + w.flights[1..] == w.flights[1..];
  }

  /** Both flights land: two settlements on the trail, one entry in the ledger. */
  lemma BothLand(env: Env, w: World, id: string)
    requires env.railOf == Rail && |w.flights| == 2 && w.flights[0].intent.id == w.flights[1].intent.id == id && id != "first"
    requires w.ledger.intents == [KNOWN] && Sum(w.audit, InTrail(TimesPaid(id))) == 0
    ensures var w' := Next(env, Next(env, w, TWICE[2]), TWICE[3]);
            && Sum(w'.audit, InTrail(TimesPaid(id))) == 2
            && Sum(w'.ledger.intents, InLedger(TimesPaid(id))) == 1
  {
    hide Next;
    var s := LandsTwice(env, w, "a", id);
    var w' := Next(env, w, TWICE[2]);
    assert w'.flights[0] == w.flights[1];
    assert !HasIntent([KNOWN], id);
    InUse(s);
    var _ := LandsTwice(env, w', "b", id);
    SumAppend([KNOWN], s, InLedger(TimesPaid(id)));
    SumOfOne(KNOWN, InLedger(TimesPaid(id)));
  }

  /** Both begins are let through, because the ledger has heard of neither. */
  lemma BothLaunch(env: Env, w: World, id: string)
    requires IsInstallation(env) && Opened(Plan(1), w) && id == Id(1)
    ensures var w' := Next(env, Next(env, w, TWICE[0]), TWICE[1]);
            && |w'.flights| == 2 && w'.flights[0].intent.id == w'.flights[1].intent.id == id
            && w'.ledger == w.ledger && Sum(w'.audit, InTrail(TimesPaid(id))) == 0
  {
    OpenedIsCalm(Plan(1), w, true);
    NeverPaid(w, id);
    hide Next, Launches, LaunchOf, CalmTrail;
    var e1 := LaunchesAgain(env, w);
    var w1 := Next(env, w, TWICE[0]);
    var e2 := LaunchesAgain(env, w1);
    SumAppend(w.audit, e1, InTrail(TimesPaid(id)));
    SumAppend(w1.audit, e2, InTrail(TimesPaid(id)));
  }

  /** Two begins with one id: the trail says the rail was paid twice, the ledger counts it
   *  once. */
  lemma PaidTwiceCountedOnce() returns (env: Env, start: World, steps: seq<Step>, id: string)
    ensures IsFresh(start) && exists i, j :: 0 <= i < j < |steps| && IsBeginOf(steps[i], id) && IsBeginOf(steps[j], id)
    ensures Sum(Run(env, start, steps).audit, InTrail(TimesPaid(id))) == 2
    ensures Sum(Run(env, start, steps).ledger.intents, InLedger(TimesPaid(id))) == 1
  {
    env := Installation(None, None, 10);
    start, steps, id := Start(Plan(1)), OPENING + TWICE, Id(1);
    OpeningRuns(env, Plan(1));
    OpeningIsFresh(env, Plan(1));
    assert IsBeginOf(steps[2], id) && IsBeginOf(steps[3], id);
    hide Run, Next;
    RunFour(env, start, OPENING, TWICE);
    BothLaunch(env, Run(env, start, OPENING), id);
    BothLand(env, Next(env, Next(env, Run(env, start, OPENING), TWICE[0]), TWICE[1]), id);
  }

  lemma InUse(s: StoredIntent)
    ensures HasIntent([KNOWN] + [s], s.intent.id)
  {
    var i := IntentIndex([KNOWN] + [s], s.intent.id);
    assert ([KNOWN] + [s])[1] == s;
  }

  lemma NeverPaid(w: World, id: string)
    requires Opened(Plan(1), w) && w.audit[2].PaymentSettled? && id != "first"
    requires w.audit[2].intentId == "first"
    ensures Sum(w.audit, InTrail(TimesPaid(id))) == 0
  {
    SumZero(w.audit, InTrail(TimesPaid(id)));
  }
}
