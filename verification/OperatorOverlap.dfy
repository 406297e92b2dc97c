/** Operator calls that overlap. `approve` and `refund` check the ledger, wait for a provider, and
 *  then write without a second look (src/core/executor.ts:427-550). Exactly when the trail and
 *  the ledger still tell the same story. */
module OperatorOverlap {
  import opened Prelude
  import opened Types
  import opened Store
  import opened Trail
  import opened Executor
  import opened Effects
  import opened Invariants
  import opened Conservation

  // --- runs in which calls overlap ---

  /** The world, and the operator's calls that wait for a provider. */
  datatype Desk = Desk(world: World, waiting: seq<Ask>)

  datatype Move =
    | Through(step: Step)                                          // anything but approve and refund
    | AskApproval(id: string, acknowledged: bool, now: Instant)
    | AskRefund(id: string, requested: Option<int>, now: Instant)
    | Answered(k: nat, answer: RailAnswer)                         // for the k-th call; a refund is sent or not

  function Landed(env: Env, w: World, a: Ask, answer: RailAnswer): World {
    match a
    case Paying(_, _, _) => LandPayment(env, w, a, answer)
    case Refunding(_, _, _, _) => LandRefund(w, a, answer.Receipted?)
  }

  function Joined(waiting: seq<Ask>, ask: Option<Ask>): seq<Ask> {
    match ask
    case None => waiting
    case Some(a) => waiting + [a]
  }

  function TakeTurn(env: Env, d: Desk, move: Move): Desk {
    match move
    case Through(step) => if step.ApproveIt? || step.RefundIt? then d else d.(world := Next(env, d.world, step))
    case AskApproval(id, acknowledged, now) =>
      var (checked, ask) := CheckApproval(env, d.world, id, acknowledged, now);
      Desk(checked, Joined(d.waiting, ask))
    case AskRefund(id, requested, now) => d.(waiting := Joined(d.waiting, CheckRefund(env, d.world.ledger, id, requested, now)))
    case Answered(k, answer) =>
      if k < |d.waiting| then Desk(Landed(env, d.world, d.waiting[k], answer), d.waiting[..k] + d.waiting[k + 1..]) else d
  }

  function After(env: Env, start: World, moves: seq<Move>): Desk {
    if moves == [] then Desk(start, [])
    else TakeTurn(env, After(env, start, moves[..|moves| - 1]), moves[|moves| - 1])
  }

  predicate FreshMove(d: Desk, move: Move) {
    move.Through? ==> FreshStep(d.world, move.step)
  }

  ghost predicate FreshMoves(env: Env, start: World, moves: seq<Move>) {
    forall n {:trigger moves[n]} :: 0 <= n < |moves| ==> FreshMove(After(env, start, moves[..n]), moves[n])
  }

  function Entry(w: World, id: string): Option<StoredIntent> {
    GetIntent(w.ledger.intents, id)
  }

  /** The call finds the entry as its check left it, as far as it matters: a payment finds it
   *  unpaid, a refund that was sent finds the sum it remembers. */
  predicate Undisturbed(w: World, a: Ask, answer: RailAnswer) {
    var entry := Entry(w, a.id);
    entry.Some? ==>
      match a
      case Paying(_, _, _) => entry.value.status != Settled
      case Refunding(_, already, _, _) => answer.Receipted? ==> entry.value.refundedMinor.GetOr(0) == already
  }

  predicate UndisturbedMove(d: Desk, move: Move) {
    move.Answered? && move.k < |d.waiting| ==> Undisturbed(d.world, d.waiting[move.k], move.answer)
  }

  ghost predicate AllBalance(w: World) {
    forall account :: Balances(w, account)
  }

  // --- what waits ---

  /** What stays true of a waiting call, whatever happens. */
  predicate Waits(w: World, a: Ask) {
    var entry := Entry(w, a.id);
    && entry.Some?
    && match a {
         case Paying(id, intent, _) => entry.value.intent == intent && intent.amount > 0 && id !in AutoIds(w.audit)
         case Refunding(_, already, amount, _) =>
           entry.value.status == Settled && 0 <= already && 0 < amount && already + amount <= entry.value.intent.amount
       }
  }

  ghost predicate DeskInv(d: Desk) {
    Inv(d.world) && forall a :: a in d.waiting ==> Waits(d.world, a)
  }

  /** The entry of an id stays in its place; only the given one is replaced. */
  lemma EntryAfterUpdate(intents: seq<StoredIntent>, i: nat, s: StoredIntent, id: string)
    requires i < |intents| && DistinctIntents(intents) && s.intent.id == intents[i].intent.id
    ensures GetIntent(intents[i := s], id) == if id == s.intent.id then Some(s) else GetIntent(intents, id)
    ensures GetIntent(intents, intents[i].intent.id) == Some(intents[i])
  {
    var j := IntentIndex(intents, id);
    var updated := intents[i := s];
    assert forall k :: 0 <= k < |updated| ==> updated[k].intent.id == intents[k].intent.id;
    var j' := IntentIndex(updated, id);
    if j >= 0 {
      assert updated[j].intent.id == id;
    }
    if j' >= 0 {
      assert intents[j'].intent.id == id;
    }
  }

  lemma EntryInLonger(intents: seq<StoredIntent>, longer: seq<StoredIntent>, id: string)
    requires intents <= longer && GetIntent(intents, id).Some?
    ensures GetIntent(longer, id) == GetIntent(intents, id)
  {
    assert longer[IntentIndex(intents, id)].intent.id == id;
  }

  /** The trail grows by events that authorize nothing. */
  lemma TrailGrows(w: World, events: seq<Event>)
    requires forall e :: e in events ==> AutoIdOf(e) == {}
    ensures AutoIds(w.audit + events) == AutoIds(w.audit)
  {
    AutoIdsConcat(w.audit, events);
    NoAutoIds(events);
  }

  lemma InvAfterEvents(w: World, w': World, events: seq<Event>)
    requires Inv(w) && w' == w.(audit := w.audit + events) && forall e :: e in events ==> AutoIdOf(e) == {}
    ensures Inv(w')
  {
    TrailGrows(w, events);
    hide AutoIds;
    assert forall id :: IdInUse(w, id) ==> IdInUse(w', id);
  }

  /** One entry is replaced, and the trail grows. */
  ghost predicate Replaces(w: World, w': World, i: nat, s: StoredIntent, events: seq<Event>) {
    && i < |w.ledger.intents|
    && w'.ledger.intents == w.ledger.intents[i := s] && w'.ledger.mandates == w.ledger.mandates && w'.flights == w.flights
    && w'.audit == w.audit + events && (forall e :: e in events ==> AutoIdOf(e) == {})
    && s.intent == w.ledger.intents[i].intent
  }

  lemma InvAfterUpdate(w: World, w': World, i: nat, s: StoredIntent, events: seq<Event>)
    requires Inv(w) && Replaces(w, w', i, s, events) && SoundIntent(s)
    requires s.status == Pending ==> w.ledger.intents[i].status == Pending
    ensures Inv(w')
  {
    TrailGrows(w, events);
    hide AutoIds, SoundIntent, SoundFlight;
    forall id
      ensures HasIntent(w'.ledger.intents, id) <==> HasIntent(w.ledger.intents, id)
    {
      HasIntentUpdate(w.ledger.intents, i, s, id);
    }
    assert forall id :: IdInUse(w, id) ==> IdInUse(w', id);
  }

  lemma WaitsAfterUpdate(w: World, w': World, i: nat, s: StoredIntent, events: seq<Event>, a: Ask)
    requires Inv(w) && Replaces(w, w', i, s, events) && Waits(w, a)
    requires a.Refunding? && a.id == s.intent.id ==> s.status == Settled
    ensures Waits(w', a)
  {
    TrailGrows(w, events);
    EntryAfterUpdate(w.ledger.intents, i, s, a.id);
    hide AutoIds, Inv;
  }

  lemma WaitsAfterEvents(w: World, w': World, events: seq<Event>, a: Ask)
    requires Waits(w, a) && w'.ledger.intents == w.ledger.intents && w'.audit == w.audit + events
    requires forall e :: e in events ==> AutoIdOf(e) == {}
    ensures Waits(w', a)
  {
    TrailGrows(w, events);
    hide AutoIds;
  }

  /** A step other than approve and refund leaves the entries in place. */
  lemma EntriesStay(env: Env, w: World, step: Step)
    requires !step.ApproveIt? && !step.RefundIt?
    ensures w.ledger.intents <= Next(env, w, step).ledger.intents
  {
    hide Verdict, GateVerdict;
  }

  lemma WaitsThrough(env: Env, w: World, step: Step, a: Ask)
    requires Inv(w) && FreshStep(w, step) && !step.ApproveIt? && !step.RefundIt? && Waits(w, a)
    ensures Waits(Next(env, w, step), a)
  {
    hide Next, Inv, AutoIds, Launches, LaunchOf;
    var w' := Next(env, w, step);
    var effect, events := SoundEffect(env, w, step);
    EffectAutoIds(w, step, w', effect, events);
    EntriesStay(env, w, step);
    EntryInLonger(w.ledger.intents, w'.ledger.intents, a.id);
    StoredIsUsed(w, a.id);
  }

  lemma StoredIsUsed(w: World, id: string)
    requires Entry(w, id).Some?
    ensures IdInUse(w, id)
  {
  }

  // --- the two landings ---

  /** What the rail's answer does to the entry of a payment that waited. */
  lemma PaymentLands(env: Env, w: World, a: Ask, answer: RailAnswer) returns (i: nat, s: StoredIntent, events: seq<Event>)
    requires a.Paying? && Waits(w, a)
    ensures Replaces(w, LandPayment(env, w, a, answer), i, s, events)
    ensures Entry(w, a.id) == Some(w.ledger.intents[i]) && w.ledger.intents[i].intent.id == a.id
    ensures s.refundedMinor == w.ledger.intents[i].refundedMinor
    ensures if s.status == Settled then IsSettlement(events, s) else s.status == Failed && IsFailure(events, a.id)
  {
    hide AutoIds;
    i := IntentIndex(w.ledger.intents, a.id);
    s := LandPayment(env, w, a, answer).ledger.intents[i];
    events := Settle(env, a.intent, a.now, answer).events;
  }

  lemma RefundLands(w: World, a: Ask) returns (i: nat, s: StoredIntent)
    requires a.Refunding? && Waits(w, a)
    ensures Replaces(w, LandRefund(w, a, true), i, s, [PaymentRefunded(a.now, a.id, a.amount)])
    ensures Entry(w, a.id) == Some(w.ledger.intents[i]) && w.ledger.intents[i].intent.id == a.id
    ensures s == w.ledger.intents[i].(refundedMinor := Some(a.already + a.amount))
  {
    hide AutoIds;
    i := IntentIndex(w.ledger.intents, a.id);
    s := LandRefund(w, a, true).ledger.intents[i];
  }

  /** How a replacement moves the two sides of an account. */
  lemma ReplacedBalance(w: World, w': World, i: nat, s: StoredIntent, events: seq<Event>, account: Account)
    requires Replaces(w, w', i, s, events) && Balances(w, account)
    ensures Balances(w', account) <==>
              Sum(events, InTrail(account)) == InLedger(account)(s) - InLedger(account)(w.ledger.intents[i])
  {
    SumConcat(w.audit, events, InTrail(account));
    SumUpdate(w.ledger.intents, i, s, InLedger(account));
  }

  /** A payment keeps every account balanced exactly when it finds its entry unpaid. */
  lemma PaymentBalancesIff(env: Env, w: World, a: Ask, answer: RailAnswer)
    requires Inv(w) && AllBalance(w) && a.Paying? && Waits(w, a)
    ensures AllBalance(LandPayment(env, w, a, answer)) <==> Undisturbed(w, a, answer)
  {
    hide Inv, Waits, AutoIds;
    var i, s, events := PaymentLands(env, w, a, answer);
    var w', was := LandPayment(env, w, a, answer), w.ledger.intents[i];
    EntryIsSound(w, i);
    hide LandPayment;
    if was.status == Settled {
      ReplacedBalance(w, w', i, s, events, TimesPaid(a.id));
      if s.status == Settled {
        SettlementCounts(events, s);
      } else {
        FailureInTrail(events, a.id, TimesPaid(a.id));
      }
      assert !Balances(w', TimesPaid(a.id));
    } else {
      forall account
        ensures Balances(w', account)
      {
        ReplacedBalance(w, w', i, s, events, account);
        if s.status == Settled {
          SettlementInTrail(events, s, account);
        } else {
          FailureInTrail(events, a.id, account);
        }
      }
    }
  }

  lemma EntryIsSound(w: World, i: nat)
    requires Inv(w) && i < |w.ledger.intents|
    ensures SoundIntent(w.ledger.intents[i])
  {
  }

  lemma SettlementCounts(events: seq<Event>, s: StoredIntent)
    requires IsSettlement(events, s)
    ensures Sum(events, InTrail(TimesPaid(s.intent.id))) == 1
  {
    assert events == [events[0], events[1]];
    SumOfTwo(events[0], events[1], InTrail(TimesPaid(s.intent.id)));
  }

  /** A refund keeps every account balanced exactly when it finds the sum it remembers. */
  lemma RefundBalancesIff(w: World, a: Ask, answer: RailAnswer)
    requires AllBalance(w) && a.Refunding? && Waits(w, a)
    ensures AllBalance(LandRefund(w, a, answer.Receipted?)) <==> Undisturbed(w, a, answer)
  {
    if answer.Receipted? {
      hide AutoIds;
      var i, s := RefundLands(w, a);
      var w', e := LandRefund(w, a, true), PaymentRefunded(a.now, a.id, a.amount);
      hide LandRefund, Waits;
      forall account
        ensures Balances(w', account) <==>
                  (account == RefundedOn(a.id) ==> w.ledger.intents[i].refundedMinor.GetOr(0) == a.already)
      {
        ReplacedBalance(w, w', i, s, [e], account);
        SumOfOne(e, InTrail(account));
      }
      assert Balances(w', RefundedOn(a.id)) <==> w.ledger.intents[i].refundedMinor.GetOr(0) == a.already;
    }
  }

  // --- one move ---

  lemma ThroughKeeps(env: Env, d: Desk, step: Step)
    requires DeskInv(d) && AllBalance(d.world) && FreshStep(d.world, step)
    ensures var d' := TakeTurn(env, d, Through(step)); DeskInv(d') && AllBalance(d'.world)
  {
    if !step.ApproveIt? && !step.RefundIt? {
      hide Next, Inv, Waits, Balances;
      NextKeepsInv(env, d.world, step);
      StepBalances(env, d.world, step);
      forall a | a in d.waiting
        ensures Waits(Next(env, d.world, step), a)
      {
        WaitsThrough(env, d.world, step, a);
      }
    }
  }

  lemma StepBalances(env: Env, w: World, step: Step)
    requires Inv(w) && AllBalance(w) && FreshStep(w, step)
    ensures AllBalance(Next(env, w, step))
  {
    hide Next, Inv, Balances;
    var effect, events := SoundEffect(env, w, step);
    forall account
      ensures Balances(Next(env, w, step), account)
    {
      EffectBalances(w, step, Next(env, w, step), effect, events, account);
    }
  }

  /** A check that sends nothing is the whole approval; one that does leaves a decision. */
  lemma CheckIs(env: Env, w: World, id: string, acknowledged: bool, now: Instant) returns (e: Event)
    requires Inv(w)
    ensures var (checked, ask) := CheckApproval(env, w, id, acknowledged, now);
            && (ask.None? ==> checked == Next(env, w, ApproveIt(id, acknowledged, now, Declined(""))))
            && (ask.Some? ==>
                  && checked == w.(audit := w.audit + [e]) && e.OperatorDecision?
                  && ask.value.Paying? && Waits(w, ask.value))
  {
    hide GateVerdict, RequiresChallenge, AutoIds;
    ApproveIsBothHalves(env, w, id, acknowledged, now, Declined(""));
    var i := IntentIndex(w.ledger.intents, id);
    e := MandateAmended(0, "");
    if CheckApproval(env, w, id, acknowledged, now).1.Some? {
      e := CheckApproval(env, w, id, acknowledged, now).0.audit[|w.audit|];
      PermittedIsPositive(env, w.ledger, w.ledger.intents[i].intent, now);
    }
  }

  /** Where a check blocks an intent, no refund waits for it. */
  lemma WaitsAfterCheck(env: Env, w: World, id: string, acknowledged: bool, now: Instant, a: Ask)
    requires Inv(w) && Waits(w, a) && CheckApproval(env, w, id, acknowledged, now).1.None?
    ensures Waits(CheckApproval(env, w, id, acknowledged, now).0, a)
  {
    hide GateVerdict, RequiresChallenge, AutoIds, Inv, Waits;
    var w', i := CheckApproval(env, w, id, acknowledged, now).0, IntentIndex(w.ledger.intents, id);
    var events := w'.audit[|w.audit|..];
    assert forall e :: e in events ==> AutoIdOf(e) == {};
    if i >= 0 && w.ledger.intents[i].status == Pending && w'.ledger.intents != w.ledger.intents {
      WaitsAfterBlock(w, w', i, w'.ledger.intents[i], events, a);
    } else {
      WaitsAfterEvents(w, w', events, a);
    }
  }

  lemma WaitsAfterBlock(w: World, w': World, i: nat, s: StoredIntent, events: seq<Event>, a: Ask)
    requires Inv(w) && Replaces(w, w', i, s, events) && Waits(w, a) && w.ledger.intents[i].status == Pending
    ensures Waits(w', a)
  {
    EntryAfterUpdate(w.ledger.intents, i, s, a.id);
    WaitsAfterUpdate(w, w', i, s, events, a);
  }

  lemma AskKeeps(env: Env, d: Desk, id: string, acknowledged: bool, now: Instant)
    requires DeskInv(d) && AllBalance(d.world)
    ensures var d' := TakeTurn(env, d, AskApproval(id, acknowledged, now)); DeskInv(d') && AllBalance(d'.world)
  {
    hide Next, Inv, Waits, Balances, CheckApproval;
    var w := d.world;
    var (checked, ask) := CheckApproval(env, w, id, acknowledged, now);
    var step := ApproveIt(id, acknowledged, now, Declined(""));
    var e := CheckIs(env, w, id, acknowledged, now);
    if ask.None? {
      NextKeepsInv(env, w, step);
      StepBalances(env, w, step);
      forall a | a in d.waiting ensures Waits(checked, a) {
        WaitsAfterCheck(env, w, id, acknowledged, now, a);
      }
    } else {
      InvAfterEvents(w, checked, [e]);
      DecisionBalances(w, e);
      forall a | a in d.waiting + [ask.value] ensures Waits(checked, a) {
        WaitsAfterEvents(w, checked, [e], a);
      }
    }
  }

  lemma DecisionBalances(w: World, e: Event)
    requires AllBalance(w) && e.OperatorDecision?
    ensures AllBalance(w.(audit := w.audit + [e]))
  {
    forall account
      ensures Balances(w.(audit := w.audit + [e]), account)
    {
      assert Balances(w, account);
      SumAppend(w.audit, e, InTrail(account));
    }
  }

  lemma AskedRefundWaits(env: Env, w: World, id: string, requested: Option<int>, now: Instant)
    requires Inv(w)
    ensures var ask := CheckRefund(env, w.ledger, id, requested, now); ask.Some? ==> ask.value.Refunding? && Waits(w, ask.value)
  {
    hide AutoIds;
    var i := IntentIndex(w.ledger.intents, id);
    if i >= 0 {
      EntryIsSound(w, i);
    }
    hide Inv;
  }

  lemma LandingKeepsIff(env: Env, d: Desk, k: nat, answer: RailAnswer)
    requires DeskInv(d) && AllBalance(d.world) && k < |d.waiting|
    ensures var d' := TakeTurn(env, d, Answered(k, answer));
            && (AllBalance(d'.world) <==> Undisturbed(d.world, d.waiting[k], answer))
            && (Undisturbed(d.world, d.waiting[k], answer) ==> DeskInv(d'))
  {
    hide Inv, Waits, AllBalance, Undisturbed, LandPayment, LandRefund;
    var w, a := d.world, d.waiting[k];
    var w' := Landed(env, w, a, answer);
    if a.Paying? {
      PaymentBalancesIff(env, w, a, answer);
    } else {
      RefundBalancesIff(w, a, answer);
    }
    if Undisturbed(w, a, answer) {
      LandedKeeps(env, w, a, answer);
      forall b | b in d.waiting[..k] + d.waiting[k + 1..] ensures Waits(w', b) {
        assert b in d.waiting;
        LandedKeepsWaiting(env, w, a, answer, b);
      }
    }
  }

  lemma LandedKeeps(env: Env, w: World, a: Ask, answer: RailAnswer)
    requires Inv(w) && Waits(w, a) && Undisturbed(w, a, answer)
    ensures Inv(Landed(env, w, a, answer))
  {
    hide AutoIds, Inv, LandPayment, LandRefund;
    if a.Paying? {
      var i, s, events := PaymentLands(env, w, a, answer);
      EntryIsSound(w, i);
      InvAfterUpdate(w, LandPayment(env, w, a, answer), i, s, events);
    } else if answer.Receipted? {
      var i, s := RefundLands(w, a);
      EntryIsSound(w, i);
      InvAfterUpdate(w, LandRefund(w, a, true), i, s, [PaymentRefunded(a.now, a.id, a.amount)]);
    } else {
      NotSent(w, a);
    }
  }

  lemma NotSent(w: World, a: Ask)
    requires a.Refunding?
    ensures LandRefund(w, a, false) == w
  {
  }

  lemma LandedKeepsWaiting(env: Env, w: World, a: Ask, answer: RailAnswer, b: Ask)
    requires Inv(w) && Waits(w, a) && Undisturbed(w, a, answer) && Waits(w, b)
    ensures Waits(Landed(env, w, a, answer), b)
  {
    hide AutoIds, Inv, LandPayment, LandRefund;
    if a.Paying? {
      var i, s, events := PaymentLands(env, w, a, answer);
      WaitsAfterUpdate(w, LandPayment(env, w, a, answer), i, s, events, b);
    } else if answer.Receipted? {
      var i, s := RefundLands(w, a);
      WaitsAfterUpdate(w, LandRefund(w, a, true), i, s, [PaymentRefunded(a.now, a.id, a.amount)], b);
    } else {
      NotSent(w, a);
    }
  }

  /** One move keeps the books exactly when it disturbs nothing. */
  lemma MoveKeepsIff(env: Env, d: Desk, move: Move)
    requires DeskInv(d) && AllBalance(d.world) && FreshMove(d, move)
    ensures AllBalance(TakeTurn(env, d, move).world) <==> UndisturbedMove(d, move)
    ensures UndisturbedMove(d, move) ==> DeskInv(TakeTurn(env, d, move))
  {
    hide Next, Inv, Waits, Balances, Undisturbed, CheckApproval, CheckRefund, FreshStep;
    match move {
      case Through(step) => ThroughKeeps(env, d, step);
      case AskApproval(id, acknowledged, now) => AskKeeps(env, d, id, acknowledged, now);
      case AskRefund(id, requested, now) => AskedRefundWaits(env, d.world, id, requested, now);
      case Answered(k, answer) =>
        if k < |d.waiting| {
          LandingKeepsIff(env, d, k, answer);
        }
    }
  }

  // --- whole runs ---

  ghost predicate AlwaysBalanced(env: Env, start: World, moves: seq<Move>) {
    forall n :: 0 <= n <= |moves| ==> AllBalance(After(env, start, moves[..n]).world)
  }

  ghost predicate NeverDisturbed(env: Env, start: World, moves: seq<Move>) {
    forall n {:trigger moves[n]} :: 0 <= n < |moves| ==> UndisturbedMove(After(env, start, moves[..n]), moves[n])
  }

  lemma FreshMovesPrefix(env: Env, start: World, moves: seq<Move>)
    requires moves != [] && FreshMoves(env, start, moves)
    ensures FreshMoves(env, start, moves[..|moves| - 1]) && FreshMove(After(env, start, moves[..|moves| - 1]), moves[|moves| - 1])
  {
    hide After, FreshMove;
    var fewer := moves[..|moves| - 1];
    assert forall i {:trigger fewer[i]} :: 0 <= i < |fewer| ==> fewer[i] == moves[i] && fewer[..i] == moves[..i];
  }

  lemma UndisturbedPrefix(env: Env, start: World, moves: seq<Move>)
    requires moves != []
    ensures NeverDisturbed(env, start, moves) <==>
              NeverDisturbed(env, start, moves[..|moves| - 1]) && UndisturbedMove(After(env, start, moves[..|moves| - 1]), moves[|moves| - 1])
  {
    hide After, UndisturbedMove;
    var fewer := moves[..|moves| - 1];
    assert forall i {:trigger moves[i]} :: 0 <= i < |fewer| ==> fewer[i] == moves[i] && fewer[..i] == moves[..i];
    assert forall i {:trigger fewer[i]} :: 0 <= i < |fewer| ==> fewer[i] == moves[i] && fewer[..i] == moves[..i];
  }

  lemma BalancedPrefix(env: Env, start: World, moves: seq<Move>)
    requires moves != []
    ensures AlwaysBalanced(env, start, moves) <==>
              AlwaysBalanced(env, start, moves[..|moves| - 1]) && AllBalance(After(env, start, moves).world)
  {
    hide After, AllBalance;
    var fewer := moves[..|moves| - 1];
    assert moves[..|moves|] == moves;
    assert forall i :: 0 <= i <= |fewer| ==> fewer[..i] == moves[..i];
  }

  /** CONSERVATION with overlapping operator calls, exactly. In every run in which approvals and
   *  refunds wait for their providers while anything else happens, every account balances at
   *  every moment if and only if no payment finds its entry already paid, and no refund that was
   *  sent finds another sum refunded than it remembers. */
  lemma {:induction false} OverlapBalancesIff(env: Env, start: World, moves: seq<Move>)
    requires IsFresh(start) && FreshMoves(env, start, moves)
    ensures AlwaysBalanced(env, start, moves) <==> NeverDisturbed(env, start, moves)
    ensures NeverDisturbed(env, start, moves) ==> DeskInv(After(env, start, moves)) && AllBalance(After(env, start, moves).world)
  {
    if moves == [] {
      FreshDesk(start);
    } else {
      hide AlwaysBalanced, NeverDisturbed, DeskInv, AllBalance, TakeTurn, UndisturbedMove, FreshMoves, FreshMove, IsFresh;
      var n := |moves| - 1;
      FreshMovesPrefix(env, start, moves);
      UndisturbedPrefix(env, start, moves);
      BalancedPrefix(env, start, moves);
      OverlapBalancesIff(env, start, moves[..n]);
      if NeverDisturbed(env, start, moves[..n]) {
        MoveKeepsIff(env, After(env, start, moves[..n]), moves[n]);
      }
    }
  }

  lemma FreshDesk(start: World)
    requires IsFresh(start)
    ensures DeskInv(Desk(start, [])) && AllBalance(start)
  {
    forall account
      ensures Balances(start, account)
    {
      FreshBalances(start, account);
    }
  }

  // --- one call at a time for each intent ---

  function AskedId(move: Move): Option<string> {
    match move
    case AskApproval(id, _, _) => Some(id)
    case AskRefund(id, _, _) => Some(id)
    case _ => None
  }

  /** No call is made for an intent for which one still waits. */
  ghost predicate OneCallEach(env: Env, start: World, moves: seq<Move>) {
    forall n {:trigger moves[n]} :: 0 <= n < |moves| ==> FreeToAsk(After(env, start, moves[..n]), moves[n])
  }

  predicate FreeToAsk(d: Desk, move: Move) {
    AskedId(move).Some? ==> forall a :: a in d.waiting ==> a.id != AskedId(move).value
  }

  /** Every waiting call finds what it remembers, and no two are for one intent. */
  predicate Calm(d: Desk) {
    && (forall i, j :: 0 <= i < j < |d.waiting| ==> d.waiting[i].id != d.waiting[j].id)
    && forall a :: a in d.waiting ==> Remembers(d.world, a)
  }

  predicate Remembers(w: World, a: Ask) {
    var entry := Entry(w, a.id);
    entry.Some? ==>
      match a
      case Paying(_, _, _) => entry.value.status == Pending
      case Refunding(_, already, _, _) => entry.value.refundedMinor.GetOr(0) == already
  }

  lemma CalmIsUndisturbed(d: Desk, move: Move)
    requires Calm(d)
    ensures UndisturbedMove(d, move)
  {
    if move.Answered? && move.k < |d.waiting| {
      assert d.waiting[move.k] in d.waiting;
    }
  }

  /** A move leaves the entries of the other intents alone. */
  lemma OtherEntriesStay(env: Env, d: Desk, move: Move, id: string)
    requires DeskInv(d) && Entry(d.world, id).Some?
    requires AskedId(move) != Some(id)
    requires move.Answered? && move.k < |d.waiting| ==> d.waiting[move.k].id != id
    ensures Entry(TakeTurn(env, d, move).world, id) == Entry(d.world, id)
  {
    hide Next, Waits, CheckApproval, CheckRefund, LandPayment, LandRefund, AutoIds, Inv;
    match move {
      case Through(step) =>
        if !step.ApproveIt? && !step.RefundIt? {
          EntriesStay(env, d.world, step);
          EntryInLonger(d.world.ledger.intents, Next(env, d.world, step).ledger.intents, id);
        }
      case AskApproval(asked, acknowledged, now) => CheckTouchesOne(env, d.world, asked, acknowledged, now, id);
      case AskRefund(_, _, _) =>
      case Answered(k, answer) =>
        if k < |d.waiting| {
          LandingTouchesOne(env, d.world, d.waiting[k], answer, id);
        }
    }
  }

  lemma CheckTouchesOne(env: Env, w: World, asked: string, acknowledged: bool, now: Instant, id: string)
    requires Inv(w) && asked != id
    ensures Entry(CheckApproval(env, w, asked, acknowledged, now).0, id) == Entry(w, id)
  {
    hide GateVerdict, RequiresChallenge, AutoIds, SoundIntent, SoundFlight;
    var i, w' := IntentIndex(w.ledger.intents, asked), CheckApproval(env, w, asked, acknowledged, now).0;
    if w'.ledger.intents != w.ledger.intents {
      EntryAfterUpdate(w.ledger.intents, i, w'.ledger.intents[i], id);
    }
  }

  lemma LandingTouchesOne(env: Env, w: World, a: Ask, answer: RailAnswer, id: string)
    requires Inv(w) && Waits(w, a) && a.id != id
    ensures Entry(Landed(env, w, a, answer), id) == Entry(w, id)
  {
    hide AutoIds, LandPayment, LandRefund, SoundIntent, SoundFlight, Waits;
    if a.Paying? {
      var i, s, events := PaymentLands(env, w, a, answer);
      EntryAfterUpdate(w.ledger.intents, i, s, id);
    } else if answer.Receipted? {
      var i, s := RefundLands(w, a);
      EntryAfterUpdate(w.ledger.intents, i, s, id);
    } else {
      NotSent(w, a);
    }
  }

  /** A fresh call remembers what is there. */
  lemma AskedRemembers(env: Env, d: Desk, move: Move)
    requires DeskInv(d) && AskedId(move).Some?
    ensures var d' := TakeTurn(env, d, move);
            d'.waiting == d.waiting
            || (|d'.waiting| == |d.waiting| + 1 && d'.waiting[..|d.waiting|] == d.waiting
                && d'.waiting[|d.waiting|].id == AskedId(move).value && Remembers(d'.world, d'.waiting[|d.waiting|]))
  {
    hide GateVerdict, RequiresChallenge, AutoIds, Inv;
  }

  lemma StaysCalm(env: Env, d: Desk, move: Move)
    requires DeskInv(d) && Calm(d) && FreeToAsk(d, move)
    ensures Calm(TakeTurn(env, d, move))
  {
    hide TakeTurn, Remembers, DeskInv, Waits, Entry;
    var d' := TakeTurn(env, d, move);
    WaitingAfter(env, d, move);
    if AskedId(move).Some? {
      AskedRemembers(env, d, move);
    }
    forall a | a in d'.waiting
      ensures Remembers(d'.world, a)
    {
      if a in d.waiting {
        StillRemembers(env, d, move, a);
      }
    }
  }

  /** Which calls wait after a move. */
  lemma WaitingAfter(env: Env, d: Desk, move: Move)
    requires DeskInv(d) && Calm(d)
    ensures var waiting := TakeTurn(env, d, move).waiting;
            match move {
              case Through(_) => waiting == d.waiting
              case Answered(k, _) =>
                if k < |d.waiting| then
                  waiting == d.waiting[..k] + d.waiting[k + 1..] && forall a :: a in waiting ==> a in d.waiting && a.id != d.waiting[k].id
                else waiting == d.waiting
              case _ => true
            }
  {
  }

  lemma StillRemembers(env: Env, d: Desk, move: Move, a: Ask)
    requires DeskInv(d) && Calm(d) && FreeToAsk(d, move) && a in d.waiting && a in TakeTurn(env, d, move).waiting
    ensures Remembers(TakeTurn(env, d, move).world, a)
  {
    hide TakeTurn, Entry, Calm;
    WaitingAfter(env, d, move);
    CalmHere(d, a);
    EntryHere(d, a);
    OtherEntriesStay(env, d, move, a.id);
  }

  lemma CalmHere(d: Desk, a: Ask)
    requires Calm(d) && a in d.waiting
    ensures Remembers(d.world, a)
  {
  }

  lemma EntryHere(d: Desk, a: Ask)
    requires DeskInv(d) && a in d.waiting
    ensures Entry(d.world, a.id).Some?
  {
    hide AutoIds, Inv;
  }

  lemma FreePrefix(env: Env, start: World, moves: seq<Move>)
    requires moves != [] && OneCallEach(env, start, moves)
    ensures OneCallEach(env, start, moves[..|moves| - 1]) && FreeToAsk(After(env, start, moves[..|moves| - 1]), moves[|moves| - 1])
  {
    hide After, FreeToAsk;
    var fewer := moves[..|moves| - 1];
    assert forall i {:trigger fewer[i]} :: 0 <= i < |fewer| ==> fewer[i] == moves[i] && fewer[..i] == moves[..i];
  }

  /** With one call at a time for each intent, whatever overlaps otherwise, the books balance. */
  lemma {:induction false} OneCallEachBalances(env: Env, start: World, moves: seq<Move>)
    requires IsFresh(start) && FreshMoves(env, start, moves) && OneCallEach(env, start, moves)
    ensures AlwaysBalanced(env, start, moves) && NeverDisturbed(env, start, moves) && Calm(After(env, start, moves))
  {
    hide After, AlwaysBalanced, NeverDisturbed, DeskInv, TakeTurn, UndisturbedMove, FreshMoves, FreshMove, IsFresh, FreeToAsk, OneCallEach,
         Calm, AllBalance;
    OverlapBalancesIff(env, start, moves);
    if moves == [] {
      NothingWaits(env, start);
    } else {
      var n := |moves| - 1;
      FreshMovesPrefix(env, start, moves);
      FreePrefix(env, start, moves);
      UndisturbedPrefix(env, start, moves);
      OneCallEachBalances(env, start, moves[..n]);
      OverlapBalancesIff(env, start, moves[..n]);
      CalmIsUndisturbed(After(env, start, moves[..n]), moves[n]);
      StaysCalm(env, After(env, start, moves[..n]), moves[n]);
      OneTurnOn(env, start, moves);
    }
  }

  lemma NothingWaits(env: Env, start: World)
    ensures NeverDisturbed(env, start, []) && Calm(After(env, start, []))
  {
  }

  lemma OneTurnOn(env: Env, start: World, moves: seq<Move>)
    requires moves != []
    ensures After(env, start, moves) == TakeTurn(env, After(env, start, moves[..|moves| - 1]), moves[|moves| - 1])
  {
    hide TakeTurn;
  }
}
