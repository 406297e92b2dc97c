/** Two approvals of one intent that overlap, in a run. */
module OverlapWitness {
  import opened Prelude
  import opened Types
  import opened Store
  import opened Trail
  import opened Executor
  import opened Conservation
  import opened OperatorOverlap
  import opened Scenario
  import Gate

  const ASK: Move := AskApproval("first", false, 0)

  const TWO_APPROVALS: seq<Move> :=
    [Through(OPENING[0]), ASK, ASK, Answered(0, Receipted("a", true)), Answered(0, Receipted("b", true))]

  lemma AfterSnoc(env: Env, start: World, before: seq<Move>, move: Move)
    ensures After(env, start, before + [move]) == TakeTurn(env, After(env, start, before), move)
  {
    hide TakeTurn;
    assert (before + [move])[..|before|] == before;
  }

  lemma AfterFive(env: Env, start: World, m: seq<Move>)
    requires |m| == 5
    ensures After(env, start, m)
         == TakeTurn(env, TakeTurn(env, TakeTurn(env, TakeTurn(env, TakeTurn(env, Desk(start, []), m[0]), m[1]), m[2]), m[3]), m[4])
  {
    hide TakeTurn;
    AfterSnoc(env, start, [], m[0]);
    AfterSnoc(env, start, [] + [m[0]], m[1]);
    AfterSnoc(env, start, [] + [m[0]] + [m[1]], m[2]);
    AfterSnoc(env, start, [] + [m[0]] + [m[1]] + [m[2]], m[3]);
    AfterSnoc(env, start, [] + [m[0]] + [m[1]] + [m[2]] + [m[3]], m[4]);
    assert m == [] + [m[0]] + [m[1]] + [m[2]] + [m[3]] + [m[4]];
  }

  /** The first payment waits for the operator. */
  ghost predicate Parked(w: World) {
    && w.ledger == EMPTY.(mandates := [DOLLARS], intents := [KNOWN.(status := Pending, settledAt := None, receiptId := None)])
    && Sum(w.audit, InTrail(TimesPaid("first"))) == 0
  }

  /** The check lets the approval through, and leaves a decision. */
  lemma CheckPasses(env: Env, w: World) returns (e: Event)
    requires IsInstallation(env)
    requires w.ledger == EMPTY.(mandates := [DOLLARS], intents := [KNOWN.(status := Pending, settledAt := None, receiptId := None)])
    ensures CheckApproval(env, w, "first", false, 0) == (w.(audit := w.audit + [e]), Some(Paying("first", FIRST, 0)))
    ensures e.OperatorDecision?
  {
    hide GateVerdict;
    NotCovered(env, w.ledger, DOLLARS);
    assert IntentIndex(w.ledger.intents, "first") == 0;
    var verdict := Gate.UNCOVERED;
    e := OperatorDecision(0, "first", verdict.outcome, verdict.reasons, verdict.mandateId, false);
  }

  /** An approval is asked for; the entry stays pending while the rail is waited for. */
  lemma AskedAgain(env: Env, d: Desk)
    requires IsInstallation(env) && Parked(d.world)
    ensures Parked(TakeTurn(env, d, ASK).world) && TakeTurn(env, d, ASK).waiting == d.waiting + [Paying("first", FIRST, 0)]
  {
    hide CheckApproval, IsInstallation;
    var e := CheckPasses(env, d.world);
    SumAppend(d.world.audit, e, InTrail(TimesPaid("first")));
  }

  /** The rail is paid for the call at the head, whatever the entry says. */
  lemma PaidAgain(env: Env, d: Desk, rid: string) returns (s: StoredIntent)
    requires env.railOf == Rail && |d.waiting| > 0 && d.waiting[0] == Paying("first", FIRST, 0)
    requires |d.world.ledger.intents| == 1 && d.world.ledger.intents[0].intent == FIRST
    ensures var d' := TakeTurn(env, d, Answered(0, Receipted(rid, true)));
            && d'.waiting == d.waiting[1..] && d'.world.ledger.intents == [s]
            && Sum(d'.world.audit, InTrail(TimesPaid("first"))) == Sum(d.world.audit, InTrail(TimesPaid("first"))) + 1
    ensures s.intent == FIRST && s.status == Settled
  {
    var w, events := d.world, Settle(env, FIRST, 0, Receipted(rid, true)).events;
    assert IntentIndex(w.ledger.intents, "first") == 0;
    s := TakeTurn(env, d, Answered(0, Receipted(rid, true))).world.ledger.intents[0];
    assert d.waiting[..0] + d.waiting[1..] == d.waiting[1..];
    SumConcat(w.audit, events, InTrail(TimesPaid("first")));
    assert events == [events[0], events[1]];
    SumOfTwo(events[0], events[1], InTrail(TimesPaid("first")));
  }

  lemma OnlyOneStarts(env: Env)
    requires IsInstallation(env)
    ensures IsFresh(Start(DOLLARS)) && FreshMoves(env, Start(DOLLARS), TWO_APPROVALS)
  {
    OpeningIsFresh(env, DOLLARS);
    assert TWO_APPROVALS[..0] == [];
    assert OPENING[..0] == [];
    assert Run(env, Start(DOLLARS), OPENING[..0]) == Start(DOLLARS);
    assert FreshStep(Run(env, Start(DOLLARS), OPENING[..0]), OPENING[0]);
    assert After(env, Start(DOLLARS), []) == Desk(Start(DOLLARS), []);
    hide After, Run, TakeTurn;
  }

  /** Both approvals find the intent pending before either is paid: the rail is paid twice, and
   *  the ledger knows of one payment. */
  lemma ApprovedTwicePaidTwice() returns (env: Env, start: World, moves: seq<Move>, id: string)
    ensures IsFresh(start) && FreshMoves(env, start, moves)
    ensures Sum(After(env, start, moves).world.audit, InTrail(TimesPaid(id))) == 2
    ensures Sum(After(env, start, moves).world.ledger.intents, InLedger(TimesPaid(id))) == 1
  {
    hide After, TakeTurn, FreshMoves, IsFresh, Next;
    env := Installation(None, None, 10);
    start, moves, id := Start(DOLLARS), TWO_APPROVALS, "first";
    OnlyOneStarts(env);
    AfterFive(env, start, moves);
    var d1 := FirstWaits(env);
    AskedAgain(env, d1);
    var d2 := TakeTurn(env, d1, ASK);
    AskedAgain(env, d2);
    var d3 := TakeTurn(env, d2, ASK);
    var s := PaidAgain(env, d3, "a");
    var d4 := TakeTurn(env, d3, moves[3]);
    var s' := PaidAgain(env, d4, "b");
    SumOfOne(s', InLedger(TimesPaid(id)));
  }

  lemma FirstWaits(env: Env) returns (d: Desk)
    requires IsInstallation(env)
    ensures d == TakeTurn(env, Desk(Start(DOLLARS), []), TWO_APPROVALS[0]) && Parked(d.world) && d.waiting == []
  {
    hide Next;
    var w := FirstIsParked(env, DOLLARS);
    d := Desk(w, []);
    assert w.audit == [w.audit[0]];
    SumOfOne(w.audit[0], InTrail(TimesPaid("first")));
  }
}
