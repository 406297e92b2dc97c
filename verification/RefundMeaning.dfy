/** Which refunds are sent, and what they leave behind (src/core/executor.ts:512-550). */
module RefundMeaning {
  import opened Prelude
  import opened Types
  import opened Store
  import opened Trail
  import opened Executor
  import opened ApprovalMeaning

  /** The receipt names an issuer that is still registered. */
  predicate HasIssuer(env: Env, receipt: Receipt) {
    receipt.providerId.Some? && receipt.providerId.value != "" && env.providerById(receipt.providerId.value).Some?
  }

  /** A provider that takes payments back, and knows how to. */
  predicate Refunds(p: Provider) {
    p.reversibility == Reversible && p.refunds
  }

  /** The issuer of the receipt, and only without one the rail's provider. */
  predicate CanRefund(env: Env, receipt: Receipt, rail: RailKind) {
    if HasIssuer(env, receipt) then Refunds(env.providerById(receipt.providerId.value).value)
    else env.railOf(rail).Some? && Refunds(env.railOf(rail).value)
  }

  function Already(s: StoredIntent): int {
    if s.refundedMinor.Some? then s.refundedMinor.value else 0
  }

  /** The amount asked for, or all that is left. */
  function Asked(s: StoredIntent, requested: Option<int>): int {
    if requested.Some? then requested.value else s.intent.amount - Already(s)
  }

  predicate IsRefundable(env: Env, ledger: Ledger, s: StoredIntent, amount: int) {
    && s.status == Settled
    && s.receiptId.Some? && s.receiptId.value != "" && s.receiptId.value in ledger.receipts
    && CanRefund(env, ledger.receipts[s.receiptId.value], s.intent.rail)
    && amount > 0 && Already(s) + amount <= s.intent.amount
  }

  /** REFUNDS, exactly: of a settled payment with a kept receipt, through its issuer if that is
   *  registered and else through the rail's provider, for a positive amount that together with
   *  earlier refunds stays within the payment. A refund that is sent raises the entry's sum and
   *  is recorded; anything else changes nothing. */
  lemma RefundMeans(env: Env, w: World, id: string, requested: Option<int>, now: Instant, sent: bool, i: nat)
    requires IsEntry(w.ledger.intents, id, i)
    ensures var s := w.ledger.intents[i];
            var amount := Asked(s, requested);
            var allowed := IsRefundable(env, w.ledger, s, amount);
            && RefundAmount(env, w.ledger, id, requested) == (if allowed then Some(amount) else None)
            && Refund(env, w, id, requested, now, sent) ==
               if !allowed || !sent then w
               else World(w.ledger.(intents := w.ledger.intents[i := s.(refundedMinor := Some(Already(s) + amount))]),
                          w.audit + [PaymentRefunded(now, id, amount)], w.flights)
  {
    assert IntentIndex(w.ledger.intents, id) == i;
  }

  lemma RefundUnknown(env: Env, w: World, id: string, requested: Option<int>, now: Instant, sent: bool)
    requires forall j :: 0 <= j < |w.ledger.intents| ==> w.ledger.intents[j].intent.id != id
    ensures RefundAmount(env, w.ledger, id, requested).None? && Refund(env, w, id, requested, now, sent) == w
  {
  }
}
