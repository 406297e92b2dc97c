/** The trail and the ledger tell the same story about money.
 *
 *  An account is something both can be asked for: how often an intent was paid, how many
 *  payments were made, how much was paid in a currency, how much of an intent was refunded. */
module Conservation {
  import opened Prelude
  import opened Types
  import opened Store
  import opened Trail
  import opened Executor
  import opened Effects
  import opened Invariants

  datatype Account =
    | TimesPaid(id: string)
    | PaidIn(currency: string)
    | Payments
    | RefundedOn(id: string)

  /** What one event contributes. */
  function InTrail(account: Account): Event -> int {
    (e: Event) =>
      match account {
        case TimesPaid(id) => if e.PaymentSettled? && e.intentId == id then 1 else 0
        case Payments => if e.PaymentSettled? then 1 else 0
        case PaidIn(currency) => if e.PaymentSettled? && e.currency == currency then e.amount else 0
        case RefundedOn(id) => if e.PaymentRefunded? && e.intentId == id then e.amount else 0
      }
  }

  /** What one stored intent accounts for. */
  function InLedger(account: Account): StoredIntent -> int {
    (s: StoredIntent) =>
      match account {
        case TimesPaid(id) => if s.status == Settled && s.intent.id == id then 1 else 0
        case Payments => if s.status == Settled then 1 else 0
        case PaidIn(currency) => if s.status == Settled && s.intent.currency == currency then s.intent.amount else 0
        case RefundedOn(id) => if s.intent.id == id then s.refundedMinor.GetOr(0) else 0
      }
  }

  ghost predicate Balances(w: World, account: Account) {
    Sum(w.audit, InTrail(account)) == Sum(w.ledger.intents, InLedger(account))
  }

  lemma SettlementInTrail(events: seq<Event>, s: StoredIntent, account: Account)
    requires IsSettlement(events, s) && s.status == Settled && s.refundedMinor.None?
    ensures Sum(events, InTrail(account)) == InLedger(account)(s)
  {
    assert events == [events[0], events[1]];
    SumOfTwo(events[0], events[1], InTrail(account));
  }

  lemma FailureInTrail(events: seq<Event>, id: string, account: Account)
    requires IsFailure(events, id)
    ensures Sum(events, InTrail(account)) == 0
  {
    if events != [] {
      assert events == [events[0]];
      SumOfOne(events[0], InTrail(account));
    }
  }

  lemma LandingBalances(f: Flight, s: StoredIntent, events: seq<Event>, account: Account)
    requires LandingEvents(f, s, events)
    ensures Sum(events, InTrail(account)) == InLedger(account)(s)
  {
    if s.status == Settled {
      SettlementInTrail(events, s, account);
    } else {
      FailureInTrail(events, s.intent.id, account);
    }
  }

  lemma ChangingBalances(was: StoredIntent, s: StoredIntent, events: seq<Event>, account: Account)
    requires ChangingEvents(was, s, events) && SoundIntent(was)
    ensures Sum(events, InTrail(account)) == InLedger(account)(s) - InLedger(account)(was)
  {
    hide Sum, IsSettlement, IsFailure;
    assert events == [events[0]] + events[1..];
    SumConcat([events[0]], events[1..], InTrail(account));
    SumOfOne(events[0], InTrail(account));
    SumOfNone(InTrail(account));
    if was.status == Settled {
      assert events[1..] == [];
    } else if s.status == Settled {
      SettlementInTrail(events[1..], s, account);
    } else if s.status == Failed {
      FailureInTrail(events[1..], s.intent.id, account);
    } else {
      assert events[1..] == [];
    }
  }

  /** Every effect moves both sides by the same amount. */
  lemma EffectBalances(w: World, step: Step, w': World, effect: Effect, events: seq<Event>, account: Account)
    requires Inv(w) && Balances(w, account)
    requires Shape(w, w', effect, events) && Explains(w, step, effect, events)
    ensures Balances(w', account)
  {
    SumConcat(w.audit, events, InTrail(account));
    match effect {
      case Filing(s) =>
        assert events == [events[0]];
        SumOfOne(events[0], InTrail(account));
        SumAppend(w.ledger.intents, s, InLedger(account));
      case Launching(f) =>
        assert events == [events[0]];
        SumOfOne(events[0], InTrail(account));
      case Landing(i, s) =>
        LandingBalances(w.flights[i], s, events, account);
        SumAppend(w.ledger.intents, s, InLedger(account));
      case Changing(i, s) =>
        ChangingBalances(w.ledger.intents[i], s, events, account);
        SumUpdate(w.ledger.intents, i, s, InLedger(account));
      case Standing =>
        if events != [] {
          assert events == [events[0]];
          SumOfOne(events[0], InTrail(account));
        }
    }
  }

  /** In every run, however executions overlap, every account balances. */
  lemma {:induction false} BooksBalance(env: Env, start: World, steps: seq<Step>, account: Account)
    requires IsFresh(start) && FreshIds(env, start, steps)
    ensures Balances(Run(env, start, steps), account)
  {
    hide Next, Shape, Explains, Inv, IsFresh;
    if steps != [] {
      var n := |steps| - 1;
      var w := Run(env, start, steps[..n]);
      FreshPrefix(env, start, steps);
      BooksBalance(env, start, steps[..n], account);
      RunKeepsInv(env, start, steps[..n]);
      var effect, events := SoundEffect(env, w, steps[n]);
      EffectBalances(w, steps[n], Next(env, w, steps[n]), effect, events, account);
    } else {
      FreshBalances(start, account);
    }
  }

  lemma FreshBalances(start: World, account: Account)
    requires IsFresh(start)
    ensures Balances(start, account)
  {
  }

  lemma {:induction false} SumAtOne(intents: seq<StoredIntent>, i: nat, f: StoredIntent -> int)
    requires i < |intents| && DistinctIntents(intents)
    requires forall s :: s in intents && s.intent.id != intents[i].intent.id ==> f(s) == 0
    ensures Sum(intents, f) == f(intents[i])
  {
    SumSplit(intents, i, f);
    SumZero(intents[..i], f);
    SumZero(intents[i + 1..], f);
  }

  lemma SumZero<T>(xs: seq<T>, f: T -> int)
    requires forall x :: x in xs ==> f(x) == 0
    ensures Sum(xs, f) == 0
  {
  }

  /** CONSERVATION. A stored intent has one payment.settled event if it is settled and none
   *  otherwise; an intent not stored has none. Its refund events add up to its
   *  refundedMinor, never more than its amount. */
  lemma EventsMatchLedger(env: Env, start: World, steps: seq<Step>, id: string)
    requires IsFresh(start) && FreshIds(env, start, steps)
    ensures var w := Run(env, start, steps);
            var stored := GetIntent(w.ledger.intents, id);
            && Sum(w.audit, InTrail(TimesPaid(id))) == (if stored.Some? && stored.value.status == Settled then 1 else 0)
            && Sum(w.audit, InTrail(RefundedOn(id))) == (if stored.Some? then stored.value.refundedMinor.GetOr(0) else 0)
            && (stored.Some? && stored.value.status == Settled ==> Sum(w.audit, InTrail(RefundedOn(id))) <= stored.value.intent.amount)
  {
    hide Next, Run, IsFresh, FreshIds;
    var w := Run(env, start, steps);
    RunKeepsInv(env, start, steps);
    BooksBalance(env, start, steps, TimesPaid(id));
    BooksBalance(env, start, steps, RefundedOn(id));
    var i := IntentIndex(w.ledger.intents, id);
    if i >= 0 {
      SumAtOne(w.ledger.intents, i, InLedger(TimesPaid(id)));
      SumAtOne(w.ledger.intents, i, InLedger(RefundedOn(id)));
    } else {
      SumZero(w.ledger.intents, InLedger(TimesPaid(id)));
      SumZero(w.ledger.intents, InLedger(RefundedOn(id)));
    }
  }

  /** Why fresh ids are required. When the id of a flight is already stored, the rail is paid
   *  and the trail says so, but the insertion throws: the ledger keeps its old entry and no
   *  budget will ever count the payment. */
  lemma DuplicateIdEscapesLedger(env: Env, w: World, i: nat, receiptId: string, verified: bool)
    requires i < |w.flights| && env.railOf(w.flights[i].intent.rail).Some?
    ensures var f := w.flights[i];
            var w' := FinishExecute(env, w, i, Receipted(receiptId, verified));
            && Sum(w'.audit, InTrail(TimesPaid(f.intent.id))) == Sum(w.audit, InTrail(TimesPaid(f.intent.id))) + 1
            && (w'.ledger.intents == w.ledger.intents <==> HasIntent(w.ledger.intents, f.intent.id))
  {
    var f := w.flights[i];
    var events := Settle(env, f.intent, f.now, Receipted(receiptId, verified)).events;
    SumConcat(w.audit, events, InTrail(TimesPaid(f.intent.id)));
    SumOfTwo(events[0], events[1], InTrail(TimesPaid(f.intent.id)));
  }
}
