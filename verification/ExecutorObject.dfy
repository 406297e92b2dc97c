/** The executor as a program: methods that update the store, the trail and the flights in
 *  place, each proved to take the world exactly where the step function says. */
module ExecutorObject {
  import opened Prelude
  import opened Types
  import opened Calendar
  import opened Store
  import opened Trail
  import opened RiskChain
  import opened Enforcement
  import opened Executor
  import ApprovalMeaning
  import Gate

  const DEFAULT_EXPIRY_DAYS: int := 30

  /** What an operator says when granting a mandate. */
  datatype GrantInput = GrantInput(
    id: Option<string>,
    name: string,
    scope: PayeeScope,
    currency: string,
    allowedRails: seq<RailKind>,
    perTxCap: int,
    perPeriodCap: int,
    period: Period,
    expiresAt: Option<Instant>,
    expiresInDays: Option<int>)

  /** The mandate that is granted: active from now, until the given instant, or for the given
   *  number of days, or for thirty. */
  function MandateFor(input: GrantInput, freshId: string, now: Instant): Mandate {
    Mandate(
      input.id.GetOr(freshId), input.name, input.scope, input.currency, input.allowedRails, input.perTxCap, input.perPeriodCap,
      input.period, now,
      if input.expiresAt.Some? then input.expiresAt.value
      else if input.expiresInDays.Some? then now + input.expiresInDays.value * DAY_MS
      else now + DEFAULT_EXPIRY_DAYS * DAY_MS,
      Active)
  }

  class PaymentExecutor {
    const env: Env
    const store: MemoryStore
    var audit: seq<Event>
    var flights: seq<Flight>

    constructor (env: Env, store: MemoryStore, seed: seq<Event>)
      requires store.Valid()
      ensures this.env == env && this.store == store
      ensures Valid() && Now() == World(store.Content(), seed, [])
    {
      this.env, this.store := env, store;
      audit, flights := seed, [];
    }

    function Now(): World
      reads this, store
    {
      World(store.Content(), audit, flights)
    }

    ghost predicate Valid()
      reads this, store
    {
      store.Valid()
    }

    method Record(e: Event)
      modifies this`audit
      ensures audit == old(audit) + [e]
    {
      audit := audit + [e];
    }

    method HaltNow() returns (halt: Option<Halt>)
      ensures halt == HaltReason(env, store.Content())
    {
      if store.killed {
        return Some(KillSwitch);
      }
      if store.failures >= env.breakerThreshold {
        return Some(CircuitBreaker);
      }
      return None;
    }

    /** Insert an intent, then count its outcome; a taken id throws in between. */
    method File(s: StoredIntent, failures: int) returns (threw: bool)
      requires Valid()
      modifies store
      ensures Valid()
      ensures store.Content() == Filed(old(store.Content()), s, failures)
      ensures threw <==> HasIntent(old(store.intents), s.intent.id)
    {
      var ok := store.InsertIntent(s);
      if !ok {
        return true;
      }
      store.SetFailures(failures);
      return false;
    }

    /** The gate, the detectors, and the verdict they agree on. */
    method Judge(intent: PaymentIntent, attestation: Option<Attestation>, now: Instant) returns (decision: GateDecision)
      ensures decision == Verdict(env, Now(), intent, attestation, now)
    {
      var ledger := store.Content();
      decision := Gate.EvaluateGate(intent, Context(env, ledger, intent, attestation, now));
      var isStreaming := false;
      if Given(decision.mandateId) {
        var m := GetMandate(store.mandates, decision.mandateId.value);
        if m.Some? && m.value.period == Day {
          isStreaming := true;
        }
      }
      var alert := EvaluateRiskChain(intent, audit, isStreaming, now);
      if alert != NoAlert {
        if decision.outcome == AutoExecute {
          decision := decision.(outcome := ConfirmOperator, reasons := decision.reasons + [ChainReason(alert)]);
        } else {
          decision := decision.(reasons := decision.reasons + [ChainReason(alert)]);
        }
      }
    }

    /** The part of `execute` that runs without giving up control. */
    method Begin(intent: PaymentIntent, attestation: Option<Attestation>, now: Instant) returns (threw: bool)
      requires Valid()
      modifies this`audit, this`flights, store
      ensures Valid()
      ensures Now() == BeginExecute(env, old(Now()), intent, attestation, now)
      ensures threw <==> && HasIntent(old(store.intents), intent.id)
                         && (|| HaltReason(env, old(store.Content())).Some?
                             || Verdict(env, old(Now()), intent, attestation, now).outcome != AutoExecute)
    {
      hide Verdict, InputsOf, PolicyOf, Filed;
      var halt := HaltNow();
      if halt.Some? {
        Record(PaymentHalted(now, intent.id, AgentPhase));
        threw := File(StoredIntent(intent, Blocked, None, [HaltedBy(halt.value)], None, None, None), store.failures);
        return;
      }
      var decision := Judge(intent, attestation, now);
      Record(AgentDecision(now, intent, decision, InputsOf(env, store.Content(), intent, attestation, now),
                           PolicyOf(store.mandates, env.config)));
      if decision.outcome == Block {
        threw := File(StoredIntent(intent, Blocked, decision.mandateId, decision.reasons, None, None, None), store.failures + 1);
        return;
      }
      if decision.outcome == ConfirmOperator {
        threw := File(StoredIntent(intent, Pending, decision.mandateId, decision.reasons, None, None, None), store.failures);
        return;
      }
      flights := flights + [Flight(intent, now, decision)];
      threw := false;
    }

    /** Pay, record, read back. The receipt is stored before anything else is. */
    method SettleNow(intent: PaymentIntent, now: Instant, answer: RailAnswer) returns (result: Settlement)
      requires Valid()
      modifies this`audit, store
      ensures Valid()
      ensures result == Settle(env, intent, now, answer)
      ensures audit == old(audit) + result.events
      ensures store.Content() ==
              if result.Moved? then old(store.Content()).(receipts := old(store.receipts)[result.receipt.id := result.receipt])
              else old(store.Content())
    {
      var provider := env.railOf(intent.rail);
      if provider.None? {
        return NotMoved("no provider registered", []);
      }
      match answer {
        case Declined(error) =>
          Record(PaymentFailed(now, intent.id, error));
          return NotMoved(error, [PaymentFailed(now, intent.id, error)]);
        case Receipted(rid, verified) =>
          var receipt := Receipt(rid, intent.id, intent.rail, intent.amount, intent.currency, now, Some(provider.value.id));
          store.InsertReceipt(receipt);
          var paid := PaymentSettled(receipt.settledAt, intent.id, rid, intent.amount, intent.currency, intent.rail);
          var readBack := PaymentVerified(receipt.settledAt, intent.id, rid, verified);
          Record(paid);
          Record(readBack);
          return Moved(receipt, [paid, readBack]);
      }
    }

    /** The rest of `execute`, once the rail has answered for a flight. */
    method Finish(i: nat, answer: RailAnswer) returns (threw: bool)
      requires Valid() && i < |flights|
      modifies this`audit, this`flights, store
      ensures Valid()
      ensures Now() == FinishExecute(env, old(Now()), i, answer)
      ensures threw <==> HasIntent(old(store.intents), old(flights)[i].intent.id)
    {
      hide Settle, Filed;
      var f := flights[i];
      flights := flights[..i] + flights[i + 1..];
      var outcome := SettleNow(f.intent, f.now, answer);
      match outcome {
        case NotMoved(error, _) =>
          threw := File(StoredIntent(f.intent, Failed, f.verdict.mandateId, [RailError(error)], None, None, None), store.failures + 1);
        case Moved(receipt, _) =>
          threw := File(StoredIntent(f.intent, Settled, f.verdict.mandateId, f.verdict.reasons,
                                     Some(receipt.settledAt), Some(receipt.id), None), 0);
      }
    }

    lemma ApprovalMeans(id: string, acknowledged: bool, now: Instant)
      ensures var i := IntentIndex(store.intents, id);
              CheckApproval(env, Now(), id, acknowledged, now).1.Some? <==> i >= 0 && ApprovalMeaning.LetsThrough(env, Now(), i, acknowledged, now)
    {
      var i := IntentIndex(store.intents, id);
      if i >= 0 {
        ApprovalMeaning.CheckMeans(env, Now(), id, acknowledged, now, i);
      }
    }

    /** The part of `approve` before the rail is asked: anything but a pending intent throws. */
    method BeginApproval(id: string, acknowledged: bool, now: Instant) returns (ask: Option<Ask>, threw: bool)
      requires Valid()
      modifies this`audit, store
      ensures Valid()
      ensures (Now(), ask) == CheckApproval(env, old(Now()), id, acknowledged, now)
      ensures var i := IntentIndex(old(store.intents), id);
              ask.Some? <==> i >= 0 && ApprovalMeaning.LetsThrough(env, old(Now()), i, acknowledged, now)
      ensures var stored := GetIntent(old(store.intents), id); threw <==> stored.None? || stored.value.status != Pending
    {
      ApprovalMeans(id, acknowledged, now);
      hide RequiresChallenge;
      ask, threw := None, false;
      var stored := GetIntent(store.intents, id);
      if stored.None? || stored.value.status != Pending {
        threw := true;
        return;
      }
      var halt := HaltNow();
      if halt.Some? {
        Record(PaymentHalted(now, id, OperatorPhase));
        return;
      }
      var intent := stored.value.intent;
      var decision := Gate.EvaluateGate(intent, Context(env, store.Content(), intent, None, now));
      assert decision == GateVerdict(env, old(store.Content()), intent, None, now);
      hide GateVerdict;
      Record(OperatorDecision(now, id, decision.outcome, decision.reasons, decision.mandateId, acknowledged));
      if decision.outcome == Block {
        var _ := store.UpdateIntent(id, NO_UPDATE.(status := Some(Blocked), reasons := Some(decision.reasons)));
        store.SetFailures(store.failures + 1);
      } else if acknowledged || !RequiresChallenge(env, intent, decision) {
        ask := Some(Paying(id, intent, now));
      }
    }

    /** The rest of `approve`, once the rail has answered. The entry is written without another
     *  look at it. */
    method FinishApproval(a: Ask, answer: RailAnswer)
      requires Valid() && a.Paying?
      modifies this`audit, store
      ensures Valid()
      ensures Now() == LandPayment(env, old(Now()), a, answer)
    {
      hide Settle;
      var outcome := SettleNow(a.intent, a.now, answer);
      match outcome {
        case NotMoved(error, _) =>
          var ok := store.UpdateIntent(a.id, NO_UPDATE.(status := Some(Failed), reasons := Some([RailError(error)])));
          if ok {
            store.SetFailures(store.failures + 1);
          }
        case Moved(receipt, _) =>
          var ok := store.UpdateIntent(a.id, NO_UPDATE.(status := Some(Settled), settledAt := Some(receipt.settledAt), receiptId := Some(receipt.id)));
          if ok {
            store.SetFailures(0);
          }
      }
    }

    /** Both halves with nothing in between. */
    method ApprovePending(id: string, acknowledged: bool, now: Instant, answer: RailAnswer) returns (threw: bool)
      requires Valid()
      modifies this`audit, store
      ensures Valid()
      ensures Now() == Approve(env, old(Now()), id, acknowledged, now, answer)
      ensures var stored := GetIntent(old(store.intents), id); threw <==> stored.None? || stored.value.status != Pending
    {
      hide CheckApproval, LandPayment, Approve;
      ApproveIsBothHalves(env, Now(), id, acknowledged, now, answer);
      var ask;
      ask, threw := BeginApproval(id, acknowledged, now);
      if ask.Some? {
        FinishApproval(ask.value, answer);
      }
    }

    /** The part of `refund` before the provider is asked: it changes nothing. */
    method BeginRefund(id: string, requested: Option<int>, now: Instant) returns (ask: Option<Ask>)
      requires Valid()
      ensures ask == CheckRefund(env, store.Content(), id, requested, now)
    {
      var stored := GetIntent(store.intents, id);
      if stored.None? || stored.value.status != Settled {
        return None;
      }
      var s := stored.value;
      if !Given(s.receiptId) || s.receiptId.value !in store.receipts {
        return None;
      }
      var provider := RefundProvider(env, store.receipts[s.receiptId.value], s.intent.rail);
      if provider.None? || provider.value.reversibility != Reversible || !provider.value.refunds {
        return None;
      }
      var already := s.refundedMinor.GetOr(0);
      var amount := requested.GetOr(s.intent.amount - already);
      if amount <= 0 || already + amount > s.intent.amount {
        return None;
      }
      return Some(Refunding(id, already, amount, now));
    }

    /** The rest of `refund`: a provider that throws leaves everything as it is. */
    method FinishRefund(a: Ask, sent: bool)
      requires Valid() && a.Refunding?
      modifies this`audit, store
      ensures Valid()
      ensures Now() == LandRefund(old(Now()), a, sent)
    {
      if sent {
        var ok := store.UpdateIntent(a.id, NO_UPDATE.(refundedMinor := Some(a.already + a.amount)));
        if ok {
          Record(PaymentRefunded(a.now, a.id, a.amount));
        }
      }
    }

    /** Both halves with nothing in between; the result is the new sum refunded. */
    method RefundSettled(id: string, requested: Option<int>, now: Instant, sent: bool) returns (refunded: Option<int>)
      requires Valid()
      modifies this`audit, store
      ensures Valid()
      ensures Now() == Refund(env, old(Now()), id, requested, now, sent)
      ensures refunded == var ask := CheckRefund(env, old(store.Content()), id, requested, now);
                          if ask.Some? && ask.value.Refunding? && sent then Some(ask.value.already + ask.value.amount) else None
    {
      hide CheckRefund, LandRefund, Refund;
      RefundIsBothHalves(env, Now(), id, requested, now, sent);
      var ask := BeginRefund(id, requested, now);
      refunded := None;
      if ask.Some? {
        FinishRefund(ask.value, sent);
        if sent {
          refunded := Some(ask.value.already + ask.value.amount);
        }
      }
    }

    method AmendMandate(id: string, patch: MandatePatch, now: Instant)
      requires Valid()
      modifies this`audit, store
      ensures Valid()
      ensures Now() == Amend(old(Now()), id, patch, now)
    {
      store.UpdateMandate(id, patch);
      Record(MandateAmended(now, id));
    }

    /** The SDK fills in what the caller left out: a fresh id, the default term, the status. A
     *  taken id throws before anything is recorded. */
    method GrantMandate(input: GrantInput, freshId: string, now: Instant) returns (granted: Option<Mandate>)
      requires Valid()
      modifies this`audit, store
      ensures Valid()
      ensures var m := MandateFor(input, freshId, now);
              && Now() == Grant(old(Now()), m, now)
              && granted == if MandateIndex(old(store.mandates), m.id) < 0 then Some(m) else None
    {
      var expiresAt := match input.expiresAt {
        case Some(t) => t
        case None => now + input.expiresInDays.GetOr(DEFAULT_EXPIRY_DAYS) * DAY_MS
      };
      var m := Mandate(input.id.GetOr(freshId), input.name, input.scope, input.currency, input.allowedRails,
                       input.perTxCap, input.perPeriodCap, input.period, now, expiresAt, Active);
      var ok := store.InsertMandate(m);
      if !ok {
        return None;
      }
      Record(MandateGranted(now, m.id));
      return Some(m);
    }

    /** Recorded even when there is nothing to revoke. */
    method RevokeMandate(id: string, now: Instant)
      requires Valid()
      modifies this`audit, store
      ensures Valid()
      ensures Now() == Revoke(old(Now()), id, now)
      ensures |store.mandates| == |old(store.mandates)|
      ensures forall i :: 0 <= i < |store.mandates| ==>
                store.mandates[i] == if old(store.mandates)[i].id == id then old(store.mandates)[i].(status := Revoked) else old(store.mandates)[i]
    {
      store.UpdateMandate(id, REVOKE);
      Record(MandateRevoked(now, id));
    }

    method EngageKillSwitch(on: bool)
      requires Valid()
      modifies store
      ensures Valid()
      ensures Now() == Next(env, old(Now()), Executor.SetKillSwitch(on))
    {
      store.SetKilled(on);
    }

    method CloseBreaker()
      requires Valid()
      modifies store
      ensures Valid()
      ensures Now() == Next(env, old(Now()), Executor.ResetBreaker)
    {
      store.SetFailures(0);
    }
  }
}
