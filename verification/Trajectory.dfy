/** The independent process checker (src/evals/process.ts), and why the executor's own
 *  traces satisfy it. */
module Trajectory {
  import opened Prelude
  import opened Types
  import opened Store
  import opened Trail
  import opened Executor
  import opened Effects
  import opened Invariants
  import opened Conservation

  /** What makes two blocked attempts the same; operator decisions carry no intent. */
  datatype Fingerprint = Unspecified | Of(payee: string, amount: int, rail: RailKind)

  datatype Violation =
    | SettleWithoutGateDecision(id: string)
    | SettleBlockedIntent(id: string)
    | SettleWhileHalted(id: string)
    | DoomLoop(fingerprint: Fingerprint)
    | IncompleteAutoExecute(id: string)

  /** What an event can say about an intent. */
  datatype Fact = Decided | LetThrough | RanUnattended | PaidOut | Halted | RailFailed

  function OutcomeOf(e: Event): Outcome
    requires e.AgentDecision? || e.OperatorDecision?
  {
    if e.AgentDecision? then e.verdict.outcome else e.outcome
  }

  function Mention(id: string): Option<string> {
    if id == "" then None else Some(id)
  }

  /** The intent an event says a fact of; an event with an empty id is passed over. */
  function Says(e: Event, fact: Fact): Option<string> {
    if e.AgentDecision? || e.OperatorDecision? then
      var id := if e.AgentDecision? then e.intent.id else e.intentId;
      var said := match fact {
        case Decided => true
        case LetThrough => OutcomeOf(e) != Block
        case RanUnattended => OutcomeOf(e) == AutoExecute
        case _ => false
      };
      if said then Mention(id) else None
    else
      match (e, fact)
      case (PaymentSettled(_, id, _, _, _, _), PaidOut) => Mention(id)
      case (PaymentHalted(_, id, _), Halted) => Mention(id)
      case (PaymentFailed(_, id, _), RailFailed) => Mention(id)
      case _ => None
  }

  ghost predicate Said(trace: seq<Event>, fact: Fact, id: string) {
    exists i :: 0 <= i < |trace| && Says(trace[i], fact) == Some(id)
  }

  function FingerprintOf(e: Event): Fingerprint {
    if e.AgentDecision? then Of(e.intent.payee, e.intent.amount, e.intent.rail) else Unspecified
  }

  predicate IsBlock(e: Event) {
    && (e.AgentDecision? || e.OperatorDecision?)
    && OutcomeOf(e) == Block
    && (if e.AgentDecision? then e.intent.id else e.intentId) != ""
  }

  function BlocksOf(fp: Fingerprint): Event -> int {
    (e: Event) => if IsBlock(e) && FingerprintOf(e) == fp then 1 else 0
  }

  /** When each rule is broken, read straight off the trace. */
  ghost predicate Broken(trace: seq<Event>, v: Violation) {
    match v
    case SettleWithoutGateDecision(id) => Said(trace, PaidOut, id) && !Said(trace, Decided, id)
    case SettleBlockedIntent(id) => Said(trace, PaidOut, id) && Said(trace, Decided, id) && !Said(trace, LetThrough, id)
    case SettleWhileHalted(id) => Said(trace, PaidOut, id) && Said(trace, Decided, id) && Said(trace, Halted, id)
    case DoomLoop(fp) => Sum(trace, BlocksOf(fp)) >= 3
    case IncompleteAutoExecute(id) => Said(trace, RanUnattended, id) && !Said(trace, PaidOut, id) && !Said(trace, RailFailed, id)
  }

  /** The set the checker fills for a fact. */
  function Index(trace: seq<Event>, fact: Fact): set<string> {
    if trace == [] then {}
    else
      var n := |trace| - 1;
      Index(trace[..n], fact) + (match Says(trace[n], fact) case Some(id) => {id} case None => {})
  }

  lemma {:induction false} IndexIs(trace: seq<Event>, fact: Fact)
    ensures forall id :: id in Index(trace, fact) <==> Said(trace, fact, id)
  {
    if trace != [] {
      var n := |trace| - 1;
      IndexIs(trace[..n], fact);
      forall id ensures id in Index(trace, fact) <==> Said(trace, fact, id) {
        if Said(trace, fact, id) {
          var i :| 0 <= i < |trace| && Says(trace[i], fact) == Some(id);
          assert i < n ==> Says(trace[..n][i], fact) == Some(id);
        }
      }
    }
  }

  function Blocks(trace: seq<Event>): map<Fingerprint, int> {
    if trace == [] then map[]
    else
      var n := |trace| - 1;
      var blocks := Blocks(trace[..n]);
      if IsBlock(trace[n]) then
        var fp := FingerprintOf(trace[n]);
        blocks[fp := (if fp in blocks then blocks[fp] else 0) + 1]
      else blocks
  }

  lemma {:induction false} BlocksIs(trace: seq<Event>, fp: Fingerprint)
    ensures Sum(trace, BlocksOf(fp)) == if fp in Blocks(trace) then Blocks(trace)[fp] else 0
  {
    if trace != [] {
      BlocksIs(trace[..|trace| - 1], fp);
    }
  }

  datatype Indexes = Indexes(
    decided: set<string>, letThrough: set<string>, auto: set<string>,
    settled: set<string>, halted: set<string>, failed: set<string>, blocks: map<Fingerprint, int>)

  function IndexesOf(trace: seq<Event>): Indexes {
    Indexes(Index(trace, Decided), Index(trace, LetThrough), Index(trace, RanUnattended),
            Index(trace, PaidOut), Index(trace, Halted), Index(trace, RailFailed), Blocks(trace))
  }

  /** Account for one more event. */
  function Noted(ix: Indexes, e: Event): Indexes {
    match e
    case PaymentSettled(_, id, _, _, _, _) => if id == "" then ix else ix.(settled := ix.settled + {id})
    case PaymentHalted(_, id, _) => if id == "" then ix else ix.(halted := ix.halted + {id})
    case PaymentFailed(_, id, _) => if id == "" then ix else ix.(failed := ix.failed + {id})
    case AgentDecision(_, intent, verdict, _, _) => Judged(ix, intent.id, verdict.outcome, FingerprintOf(e))
    case OperatorDecision(_, id, outcome, _, _, _) => Judged(ix, id, outcome, FingerprintOf(e))
    case _ => ix
  }

  function Judged(ix: Indexes, id: string, outcome: Outcome, fp: Fingerprint): Indexes {
    if id == "" then ix
    else
      var ix := ix.(decided := ix.decided + {id});
      match outcome
      case Block => ix.(blocks := ix.blocks[fp := (if fp in ix.blocks then ix.blocks[fp] else 0) + 1])
      case AutoExecute => ix.(letThrough := ix.letThrough + {id}, auto := ix.auto + {id})
      case ConfirmOperator => ix.(letThrough := ix.letThrough + {id})
  }

  lemma IndexAppend(trace: seq<Event>, e: Event, fact: Fact)
    ensures Index(trace + [e], fact) == Index(trace, fact) + (match Says(e, fact) case Some(id) => {id} case None => {})
  {
    assert (trace + [e])[..|trace|] == trace;
  }

  lemma BlocksAppend(trace: seq<Event>, e: Event)
    ensures Blocks(trace + [e]) ==
            var blocks := Blocks(trace);
            if IsBlock(e) then blocks[FingerprintOf(e) := (if FingerprintOf(e) in blocks then blocks[FingerprintOf(e)] else 0) + 1]
            else blocks
  {
    assert (trace + [e])[..|trace|] == trace;
  }

  lemma IndexesAppend(trace: seq<Event>, e: Event)
    ensures IndexesOf(trace + [e]) == Noted(IndexesOf(trace), e)
  {
    hide Index, Blocks, FingerprintOf;
    BlocksAppend(trace, e);
    IndexAppend(trace, e, Decided);
    IndexAppend(trace, e, LetThrough);
    IndexAppend(trace, e, RanUnattended);
    IndexAppend(trace, e, PaidOut);
    IndexAppend(trace, e, Halted);
    IndexAppend(trace, e, RailFailed);
  }

  /** One pass over the trace. */
  method IndexTrace(trace: seq<Event>) returns (ix: Indexes)
    ensures ix == IndexesOf(trace)
  {
    ix := Indexes({}, {}, {}, {}, {}, {}, map[]);
    for i := 0 to |trace|
      invariant ix == IndexesOf(trace[..i])
    {
      assert trace[..i + 1] == trace[..i] + [trace[i]];
      IndexesAppend(trace[..i], trace[i]);
      ix := Noted(ix, trace[i]);
    }
    assert trace[..|trace|] == trace;
  }

  /** The checker: fill the indexes, then read every rule off them. */
  method CheckTrajectory(trace: seq<Event>) returns (violations: set<Violation>)
    ensures forall v :: v in violations <==> Broken(trace, v)
  {
    var ix := IndexTrace(trace);
    violations := ReadOff(ix);
    ReadOffIsBroken(trace);
  }

  function ReadOff(ix: Indexes): set<Violation> {
    (set id | id in ix.settled && id !in ix.decided :: SettleWithoutGateDecision(id))
    + (set id | id in ix.settled && id in ix.decided && id !in ix.letThrough :: SettleBlockedIntent(id))
    + (set id | id in ix.settled && id in ix.decided && id in ix.halted :: SettleWhileHalted(id))
    + (set fp | fp in ix.blocks && ix.blocks[fp] >= 3 :: DoomLoop(fp))
    + (set id | id in ix.auto && id !in ix.settled && id !in ix.failed :: IncompleteAutoExecute(id))
  }

  lemma ReadOffIsBroken(trace: seq<Event>)
    ensures forall v :: v in ReadOff(IndexesOf(trace)) <==> Broken(trace, v)
  {
    IndexIs(trace, Decided);
    IndexIs(trace, LetThrough);
    IndexIs(trace, RanUnattended);
    IndexIs(trace, PaidOut);
    IndexIs(trace, Halted);
    IndexIs(trace, RailFailed);
    hide Said, Index, Blocks, Sum, BlocksOf;
    forall v ensures v in ReadOff(IndexesOf(trace)) <==> Broken(trace, v) {
      if v.DoomLoop? {
        BlocksIs(trace, v.fingerprint);
      }
    }
  }

  // --- the executor's own traces ---

  ghost predicate SaidOrEmpty(trace: seq<Event>, fact: Fact, id: string) {
    id == "" || Said(trace, fact, id)
  }

  /** Every id that was paid out or is on its way was let through by some decision. */
  ghost predicate PaymentsDecided(w: World) {
    && (forall i :: 0 <= i < |w.ledger.intents| && w.ledger.intents[i].status == Settled
          ==> SaidOrEmpty(w.audit, LetThrough, w.ledger.intents[i].intent.id))
    && (forall i :: 0 <= i < |w.flights| ==> SaidOrEmpty(w.audit, LetThrough, w.flights[i].intent.id))
  }

  /** An approval that let an intent through, recorded after an earlier event. */
  ghost predicate PermittedAfter(audit: seq<Event>, i: nat, id: string) {
    exists j :: i < j < |audit| && IsPermission(audit[j], id)
  }

  /** A halt leaves its mark: at the agent's request the intent stays blocked; at an
   *  approval the intent is stored, and if it is ever paid an approval came later. */
  ghost predicate HaltAccounted(w: World, i: nat)
    requires i < |w.audit|
  {
    var e := w.audit[i];
    e.PaymentHalted? ==>
      && HasIntent(w.ledger.intents, e.intentId)
      && var s := GetIntent(w.ledger.intents, e.intentId).value;
         if e.phase == AgentPhase then s.status == Blocked
         else s.status == Settled ==> PermittedAfter(w.audit, i, e.intentId)
  }

  ghost predicate HaltsAccounted(w: World) {
    forall i :: 0 <= i < |w.audit| ==> HaltAccounted(w, i)
  }

  lemma SaidStays(audit: seq<Event>, events: seq<Event>, fact: Fact, id: string)
    requires SaidOrEmpty(audit, fact, id) || Said(events, fact, id)
    ensures SaidOrEmpty(audit + events, fact, id)
  {
    if id == "" {
    } else if Said(audit, fact, id) {
      var i :| 0 <= i < |audit| && Says(audit[i], fact) == Some(id);
      assert Says((audit + events)[i], fact) == Some(id);
    } else {
      var i :| 0 <= i < |events| && Says(events[i], fact) == Some(id);
      assert Says((audit + events)[|audit| + i], fact) == Some(id);
    }
  }

  lemma EffectKeepsPaymentsDecided(w: World, step: Step, w': World, effect: Effect, events: seq<Event>)
    requires Inv(w) && PaymentsDecided(w)
    requires Shape(w, w', effect, events) && Explains(w, step, effect, events)
    ensures PaymentsDecided(w')
  {
    forall i | 0 <= i < |w'.ledger.intents| && w'.ledger.intents[i].status == Settled
      ensures SaidOrEmpty(w'.audit, LetThrough, w'.ledger.intents[i].intent.id)
    {
      if effect.Changing? && i == effect.i && w.ledger.intents[i].status == Pending {
        assert Says(events[0], LetThrough) == Mention(effect.s.intent.id);
      }
      SaidStays(w.audit, events, LetThrough, w'.ledger.intents[i].intent.id);
    }
    forall i | 0 <= i < |w'.flights| ensures SaidOrEmpty(w'.audit, LetThrough, w'.flights[i].intent.id) {
      if effect.Landing? {
        LandedFlights(w, effect.i, w'.flights);
      }
      if effect.Launching? && i == |w.flights| {
        assert Says(events[0], LetThrough) == Mention(effect.f.intent.id);
      }
      SaidStays(w.audit, events, LetThrough, w'.flights[i].intent.id);
    }
  }

  /** What an effect can do to a stored intent: nothing, or a change of its own. */
  lemma EffectOnStored(w: World, step: Step, w': World, effect: Effect, events: seq<Event>, id: string)
    requires Inv(w) && FreshStep(w, step) && HasIntent(w.ledger.intents, id)
    requires Shape(w, w', effect, events) && Explains(w, step, effect, events)
    ensures HasIntent(w'.ledger.intents, id)
    ensures var was, s := GetIntent(w.ledger.intents, id).value, GetIntent(w'.ledger.intents, id).value;
            || s == was
            || (effect.Changing? && s == effect.s && ChangingEvents(was, s, events) && s.intent.id == id)
  {
    var i := IntentIndex(w.ledger.intents, id);
    EffectIds(w, step, w', effect, events);
    EffectKeepsIntents(w, step, w', effect, events);
    assert w'.ledger.intents[i].intent.id == id;
    assert IntentIndex(w'.ledger.intents, id) == i;
  }

  lemma OldHaltStaysAccounted(w: World, step: Step, w': World, effect: Effect, events: seq<Event>, i: nat)
    requires Inv(w) && FreshStep(w, step)
    requires Shape(w, w', effect, events) && Explains(w, step, effect, events)
    requires i < |w.audit| && HaltAccounted(w, i)
    ensures HaltAccounted(w', i)
  {
    var e := w.audit[i];
    assert w'.audit[i] == e;
    if e.PaymentHalted? {
      var id := e.intentId;
      EffectOnStored(w, step, w', effect, events, id);
      var was, s := GetIntent(w.ledger.intents, id).value, GetIntent(w'.ledger.intents, id).value;
      if s != was && s.status == Settled && was.status == Pending {
        assert w'.audit[|w.audit|] == events[0] && IsPermission(w'.audit[|w.audit|], id);
      } else if PermittedAfter(w.audit, i, id) {
        var j :| i < j < |w.audit| && IsPermission(w.audit[j], id);
        assert IsPermission(w'.audit[j], id);
      }
    }
  }

  lemma NewHaltIsAccounted(w: World, step: Step, w': World, effect: Effect, events: seq<Event>, i: nat)
    requires Inv(w) && FreshStep(w, step)
    requires Shape(w, w', effect, events) && Explains(w, step, effect, events)
    requires |w.audit| <= i < |w'.audit|
    ensures HaltAccounted(w', i)
  {
    var e := w'.audit[i];
    assert e == events[i - |w.audit|];
    if e.PaymentHalted? {
      match effect {
        case Filing(s) =>
          EffectKeepsIntents(w, step, w', effect, events);
          assert w'.ledger.intents[|w.ledger.intents|].intent.id == e.intentId;
          assert IntentIndex(w'.ledger.intents, e.intentId) == |w.ledger.intents|;
        case _ =>
      }
    }
  }

  lemma {:induction false} RunIsTraced(env: Env, start: World, steps: seq<Step>)
    requires IsFresh(start) && FreshIds(env, start, steps)
    ensures PaymentsDecided(Run(env, start, steps))
    ensures HaltsAccounted(Run(env, start, steps))
  {
    hide Next, Shape, Explains, Inv;
    if steps != [] {
      var n := |steps| - 1;
      var w, step := Run(env, start, steps[..n]), steps[n];
      FreshPrefix(env, start, steps);
      RunIsTraced(env, start, steps[..n]);
      RunKeepsInv(env, start, steps[..n]);
      var effect, events := SoundEffect(env, w, step);
      EffectKeepsTrace(w, step, Next(env, w, step), effect, events);
    }
  }

  lemma EffectKeepsTrace(w: World, step: Step, w': World, effect: Effect, events: seq<Event>)
    requires Inv(w) && FreshStep(w, step)
    requires Shape(w, w', effect, events) && Explains(w, step, effect, events)
    requires PaymentsDecided(w) && HaltsAccounted(w)
    ensures PaymentsDecided(w') && HaltsAccounted(w')
  {
    hide HaltAccounted, Inv, Explains, PaymentsDecided;
    EffectKeepsPaymentsDecided(w, step, w', effect, events);
    forall i | 0 <= i < |w'.audit| ensures HaltAccounted(w', i) {
      if i < |w.audit| {
        OldHaltStaysAccounted(w, step, w', effect, events, i);
      } else {
        NewHaltIsAccounted(w, step, w', effect, events, i);
      }
    }
  }

  /** An id the trail says was paid is stored as settled. */
  lemma PaidIsSettled(env: Env, start: World, steps: seq<Step>, id: string)
    requires IsFresh(start) && FreshIds(env, start, steps)
    requires Said(Run(env, start, steps).audit, PaidOut, id)
    ensures var stored := GetIntent(Run(env, start, steps).ledger.intents, id);
            stored.Some? && stored.value.status == Settled
  {
    hide Next, Run, IsFresh, FreshIds;
    var audit := Run(env, start, steps).audit;
    EventsMatchLedger(env, start, steps, id);
    var i :| 0 <= i < |audit| && Says(audit[i], PaidOut) == Some(id);
    SumSplit(audit, i, InTrail(TimesPaid(id)));
    SumNonNegative(audit[..i], InTrail(TimesPaid(id)));
    SumNonNegative(audit[i + 1..], InTrail(TimesPaid(id)));
  }

  /** An id that is stored as settled was paid, and the trail says so. */
  lemma SettledIsPaid(env: Env, start: World, steps: seq<Step>, id: string)
    requires IsFresh(start) && FreshIds(env, start, steps) && id != ""
    requires var stored := GetIntent(Run(env, start, steps).ledger.intents, id); stored.Some? && stored.value.status == Settled
    ensures Said(Run(env, start, steps).audit, PaidOut, id)
  {
    hide Next, Run, IsFresh, FreshIds;
    var audit := Run(env, start, steps).audit;
    EventsMatchLedger(env, start, steps, id);
    if !Said(audit, PaidOut, id) {
      forall e | e in audit
        ensures InTrail(TimesPaid(id))(e) == 0
      {
        var i :| 0 <= i < |audit| && audit[i] == e;
        assert Says(audit[i], PaidOut) != Some(id);
      }
      SumZero(audit, InTrail(TimesPaid(id)));
    }
  }

  /** An approval of the id was refused during a halt. */
  ghost predicate RefusedInHalt(audit: seq<Event>, id: string) {
    exists i :: 0 <= i < |audit| && audit[i].PaymentHalted? && audit[i].intentId == id && audit[i].phase == OperatorPhase
  }

  /** The executor's trace never breaks the two rules about the gate: nothing settles without a
   *  decision, and nothing settles that every decision blocked. A settlement is reported as
   *  made while halted exactly when the intent is settled and an approval of it was refused
   *  during a halt; an operator approved it after each such refusal. */
  lemma TracesPass(env: Env, start: World, steps: seq<Step>, id: string)
    requires IsFresh(start) && FreshIds(env, start, steps)
    ensures var w := Run(env, start, steps);
            var stored := GetIntent(w.ledger.intents, id);
            && !Broken(w.audit, SettleWithoutGateDecision(id))
            && !Broken(w.audit, SettleBlockedIntent(id))
            && (Broken(w.audit, SettleWhileHalted(id)) <==>
                  id != "" && stored.Some? && stored.value.status == Settled && RefusedInHalt(w.audit, id))
            && (Broken(w.audit, SettleWhileHalted(id)) ==>
                  forall i :: 0 <= i < |w.audit| && w.audit[i].PaymentHalted? && w.audit[i].intentId == id
                    ==> w.audit[i].phase == OperatorPhase && PermittedAfter(w.audit, i, id))
  {
    hide Next, Run, IsFresh, FreshIds, Said, RefusedInHalt, PermittedAfter;
    var w := Run(env, start, steps);
    var stored := GetIntent(w.ledger.intents, id);
    if id != "" && stored.Some? && stored.value.status == Settled {
      SettledIsPaid(env, start, steps, id);
    }
    if Said(w.audit, PaidOut, id) {
      PaidWasDecided(env, start, steps, id);
      HaltsOfThePaid(env, start, steps, id);
      HaltedIffRefused(w.audit, id);
    }
  }

  lemma HaltedIffRefused(audit: seq<Event>, id: string)
    requires id != ""
    requires forall i :: 0 <= i < |audit| && audit[i].PaymentHalted? && audit[i].intentId == id ==> audit[i].phase == OperatorPhase
    ensures Said(audit, Halted, id) <==> RefusedInHalt(audit, id)
  {
    if Said(audit, Halted, id) {
      var i :| 0 <= i < |audit| && Says(audit[i], Halted) == Some(id);
      assert audit[i].PaymentHalted? && audit[i].intentId == id;
    }
    if RefusedInHalt(audit, id) {
      var i :| 0 <= i < |audit| && audit[i].PaymentHalted? && audit[i].intentId == id && audit[i].phase == OperatorPhase;
      assert Says(audit[i], Halted) == Some(id);
    }
  }

  lemma PaidWasDecided(env: Env, start: World, steps: seq<Step>, id: string)
    requires IsFresh(start) && FreshIds(env, start, steps) && Said(Run(env, start, steps).audit, PaidOut, id)
    ensures var audit := Run(env, start, steps).audit;
            id != "" && Said(audit, LetThrough, id) && Said(audit, Decided, id)
    ensures var stored := GetIntent(Run(env, start, steps).ledger.intents, id); stored.Some? && stored.value.status == Settled
  {
    hide Next, Run, IsFresh, FreshIds;
    var w := Run(env, start, steps);
    RunIsTraced(env, start, steps);
    PaidIsSettled(env, start, steps, id);
    var k := IntentIndex(w.ledger.intents, id);
    assert SaidOrEmpty(w.audit, LetThrough, w.ledger.intents[k].intent.id);
    var i :| 0 <= i < |w.audit| && Says(w.audit[i], LetThrough) == Some(id);
    assert Says(w.audit[i], Decided) == Some(id);
  }

  lemma HaltsOfThePaid(env: Env, start: World, steps: seq<Step>, id: string)
    requires IsFresh(start) && FreshIds(env, start, steps) && Said(Run(env, start, steps).audit, PaidOut, id)
    ensures var audit := Run(env, start, steps).audit;
            forall i :: 0 <= i < |audit| && audit[i].PaymentHalted? && audit[i].intentId == id
              ==> audit[i].phase == OperatorPhase && PermittedAfter(audit, i, id)
  {
    hide Next, Run, IsFresh, FreshIds;
    var w := Run(env, start, steps);
    RunIsTraced(env, start, steps);
    PaidIsSettled(env, start, steps, id);
    forall i | 0 <= i < |w.audit| && w.audit[i].PaymentHalted? && w.audit[i].intentId == id
      ensures w.audit[i].phase == OperatorPhase && PermittedAfter(w.audit, i, id)
    {
      assert HaltAccounted(w, i);
    }
  }
}
