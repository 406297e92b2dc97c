/** The reference ledger (src/store/memoryStore.ts).
 *
 *  `Ledger` is its content as a value; mandates and intents keep the insertion order of
 *  the program's maps, because listings and the gate's choice of mandate follow it. */
module Store {
  import opened Prelude
  import opened Types
  import opened Calendar
  import Gate

  datatype Ledger = Ledger(
    mandates: seq<Mandate>,
    intents: seq<StoredIntent>,
    receipts: map<string, Receipt>,
    killed: bool,
    failures: int)

  const EMPTY: Ledger := Ledger([], [], map[], false, 0)

  function MandateIndex(mandates: seq<Mandate>, id: string): (i: int)
    ensures -1 <= i < |mandates|
    ensures i >= 0 ==> mandates[i].id == id
    ensures forall j :: 0 <= j < (if i < 0 then |mandates| else i) ==> mandates[j].id != id
  {
    if mandates == [] then -1
    else if mandates[0].id == id then 0
    else
      var rest := MandateIndex(mandates[1..], id);
      if rest < 0 then -1 else rest + 1
  }

  function IntentIndex(intents: seq<StoredIntent>, id: string): (i: int)
    ensures -1 <= i < |intents|
    ensures i >= 0 ==> intents[i].intent.id == id
    ensures forall j :: 0 <= j < (if i < 0 then |intents| else i) ==> intents[j].intent.id != id
  {
    if intents == [] then -1
    else if intents[0].intent.id == id then 0
    else
      var rest := IntentIndex(intents[1..], id);
      if rest < 0 then -1 else rest + 1
  }

  predicate HasIntent(intents: seq<StoredIntent>, id: string) {
    IntentIndex(intents, id) >= 0
  }

  function GetMandate(mandates: seq<Mandate>, id: string): Option<Mandate> {
    var i := MandateIndex(mandates, id);
    if i < 0 then None else Some(mandates[i])
  }

  function GetIntent(intents: seq<StoredIntent>, id: string): Option<StoredIntent> {
    var i := IntentIndex(intents, id);
    if i < 0 then None else Some(intents[i])
  }

  /** Keys of a map are distinct. */
  predicate DistinctIntents(intents: seq<StoredIntent>) {
    forall i, j :: 0 <= i < j < |intents| ==> intents[i].intent.id != intents[j].intent.id
  }

  predicate DistinctMandates(mandates: seq<Mandate>) {
    forall i, j :: 0 <= i < j < |mandates| ==> mandates[i].id != mandates[j].id
  }

  function ActiveMandates(mandates: seq<Mandate>, now: Instant): seq<Mandate> {
    if mandates == [] then []
    else
      (if Gate.IsLive(mandates[0], now) then [mandates[0]] else []) + ActiveMandates(mandates[1..], now)
  }

  lemma {:induction false} ActiveAreStored(mandates: seq<Mandate>, now: Instant)
    ensures forall m :: m in ActiveMandates(mandates, now) <==> m in mandates && Gate.IsLive(m, now)
  {
    if mandates != [] {
      ActiveAreStored(mandates[1..], now);
      assert mandates == [mandates[0]] + mandates[1..];
    }
  }

  /** Filtering dead mandates first changes nothing. */
  lemma {:induction false} ActiveAuthority(mandates: seq<Mandate>, intent: PaymentIntent, now: Instant, convert: Option<Converter>)
    ensures Gate.Authority(ActiveMandates(mandates, now), intent, now, convert) == Gate.Authority(mandates, intent, now, convert)
  {
    if mandates != [] {
      ActiveAuthority(mandates[1..], intent, now, convert);
      if Gate.IsLive(mandates[0], now) {
        var active := ActiveMandates(mandates[1..], now);
        assert ([mandates[0]] + active)[1..] == active;
      } else {
        assert [] + ActiveMandates(mandates[1..], now) == ActiveMandates(mandates[1..], now);
      }
    }
  }

  /** Settled against a mandate, on or after an instant. */
  predicate CountsFrom(s: StoredIntent, mandateId: string, start: Instant) {
    && s.status == Settled
    && s.mandateId == Some(mandateId)
    && s.settledAt.Some?
    && s.settledAt.value >= start
  }

  function SpendFrom(intents: seq<StoredIntent>, mandateId: string, start: Instant): seq<PriorSpend> {
    if intents == [] then []
    else
      var n := |intents| - 1;
      var s := intents[n];
      SpendFrom(intents[..n], mandateId, start)
      + (if CountsFrom(s, mandateId, start) then [PriorSpend(s.Net(), s.settledAt.value)] else [])
  }

  /** Settled spend attributed to a mandate within the period `now` falls in. */
  function PeriodSpend(ledger: Ledger, mandateId: string, now: Instant): seq<PriorSpend> {
    match GetMandate(ledger.mandates, mandateId)
    case None => []
    case Some(m) => SpendFrom(ledger.intents, mandateId, PeriodStart(now, m.period))
  }

  function KnownPayees(intents: seq<StoredIntent>): set<string> {
    if intents == [] then {}
    else
      var n := |intents| - 1;
      KnownPayees(intents[..n]) + (if intents[n].status == Settled then {intents[n].intent.payee} else {})
  }

  function SettledCount(intents: seq<StoredIntent>, payee: string): nat {
    if intents == [] then 0
    else
      var n := |intents| - 1;
      SettledCount(intents[..n], payee)
      + (if intents[n].status == Settled && intents[n].intent.payee == payee then 1 else 0)
  }

  /** A payee is known exactly when its settled count is positive. */
  lemma {:induction false} KnownIffCounted(intents: seq<StoredIntent>, payee: string)
    ensures payee in KnownPayees(intents) <==> SettledCount(intents, payee) > 0
  {
    if intents != [] {
      KnownIffCounted(intents[..|intents| - 1], payee);
    }
  }

  datatype IntentUpdate = IntentUpdate(
    status: Option<IntentStatus>,
    settledAt: Option<Instant>,
    receiptId: Option<string>,
    reasons: Option<seq<Reason>>,
    refundedMinor: Option<int>)

  function Updated(s: StoredIntent, u: IntentUpdate): StoredIntent {
    s.(status := u.status.GetOr(s.status),
       settledAt := if u.settledAt.Some? then u.settledAt else s.settledAt,
       receiptId := if u.receiptId.Some? then u.receiptId else s.receiptId,
       reasons := u.reasons.GetOr(s.reasons),
       refundedMinor := if u.refundedMinor.Some? then u.refundedMinor else s.refundedMinor)
  }

  /** The fields an amendment may change; the id never does. */
  datatype MandatePatch = MandatePatch(
    name: Option<string>,
    scope: Option<PayeeScope>,
    currency: Option<string>,
    allowedRails: Option<seq<RailKind>>,
    perTxCap: Option<int>,
    perPeriodCap: Option<int>,
    period: Option<Period>,
    grantedAt: Option<Instant>,
    expiresAt: Option<Instant>,
    status: Option<MandateStatus>)

  function Patched(m: Mandate, p: MandatePatch): Mandate {
    m.(name := p.name.GetOr(m.name),
       scope := p.scope.GetOr(m.scope),
       currency := p.currency.GetOr(m.currency),
       allowedRails := p.allowedRails.GetOr(m.allowedRails),
       perTxCap := p.perTxCap.GetOr(m.perTxCap),
       perPeriodCap := p.perPeriodCap.GetOr(m.perPeriodCap),
       period := p.period.GetOr(m.period),
       grantedAt := p.grantedAt.GetOr(m.grantedAt),
       expiresAt := p.expiresAt.GetOr(m.expiresAt),
       status := p.status.GetOr(m.status))
  }

  const REVOKE: MandatePatch := MandatePatch(None, None, None, None, None, None, None, None, None, Some(Revoked))

  function PatchMandate(mandates: seq<Mandate>, id: string, p: MandatePatch): seq<Mandate> {
    var i := MandateIndex(mandates, id);
    if i < 0 then mandates else mandates[i := Patched(mandates[i], p)]
  }

  class MemoryStore {
    var mandates: seq<Mandate>
    var intents: seq<StoredIntent>
    var receipts: map<string, Receipt>
    var killed: bool
    var failures: int

    constructor ()
      ensures Content() == EMPTY && Valid()
      ensures mandates == [] && intents == [] && receipts == map[] && !killed && failures == 0
    {
      mandates, intents, receipts, killed, failures := [], [], map[], false, 0;
    }

    function Content(): Ledger
      reads this
    {
      Ledger(mandates, intents, receipts, killed, failures)
    }

    ghost predicate Valid()
      reads this
    {
      DistinctIntents(intents) && DistinctMandates(mandates)
    }

    /** Refuses a mandate whose id is taken. */
    method InsertMandate(m: Mandate) returns (ok: bool)
      requires Valid()
      modifies this
      ensures Valid()
      ensures ok <==> MandateIndex(old(mandates), m.id) < 0
      ensures Content() == if ok then old(Content()).(mandates := old(mandates) + [m]) else old(Content())
    {
      ok := MandateIndex(mandates, m.id) < 0;
      if ok {
        mandates := mandates + [m];
      }
    }

    /** Leaves the ledger alone when the mandate is unknown. */
    method UpdateMandate(id: string, patch: MandatePatch)
      requires Valid()
      modifies this
      ensures Valid()
      ensures Content() == old(Content()).(mandates := PatchMandate(old(mandates), id, patch))
    {
      var i := MandateIndex(mandates, id);
      if i >= 0 {
        mandates := mandates[i := Patched(mandates[i], patch)];
      }
    }

    /** Refuses an intent whose id is taken. */
    method InsertIntent(s: StoredIntent) returns (ok: bool)
      requires Valid()
      modifies this
      ensures Valid()
      ensures ok <==> !HasIntent(old(intents), s.intent.id)
      ensures Content() == if ok then old(Content()).(intents := old(intents) + [s]) else old(Content())
    {
      ok := IntentIndex(intents, s.intent.id) < 0;
      if ok {
        intents := intents + [s];
      }
    }

    method UpdateIntent(id: string, update: IntentUpdate) returns (ok: bool)
      requires Valid()
      modifies this
      ensures Valid()
      ensures ok <==> HasIntent(old(intents), id)
      ensures Content() ==
              if ok then
                var i := IntentIndex(old(intents), id);
                old(Content()).(intents := old(intents)[i := Updated(old(intents)[i], update)])
              else old(Content())
    {
      var i := IntentIndex(intents, id);
      ok := i >= 0;
      if ok {
        intents := intents[i := Updated(intents[i], update)];
      }
    }

    method InsertReceipt(r: Receipt)
      modifies this
      ensures Content() == old(Content()).(receipts := old(receipts)[r.id := r])
    {
      receipts := receipts[r.id := r];
    }

    method SetKilled(on: bool)
      modifies this
      ensures Content() == old(Content()).(killed := on)
    {
      killed := on;
    }

    method SetFailures(n: int)
      modifies this
      ensures Content() == old(Content()).(failures := n)
    {
      failures := n;
    }

    method CollectPeriodSpend(mandateId: string, now: Instant) returns (spend: seq<PriorSpend>)
      ensures spend == PeriodSpend(Content(), mandateId, now)
    {
      spend := [];
      var found := GetMandate(mandates, mandateId);
      if found.None? {
        return;
      }
      var start := PeriodStart(now, found.value.period);
      for i := 0 to |intents|
        invariant spend == SpendFrom(intents[..i], mandateId, start)
      {
        assert intents[..i + 1][..i] == intents[..i];
        if CountsFrom(intents[i], mandateId, start) {
          spend := spend + [PriorSpend(intents[i].Net(), intents[i].settledAt.value)];
        }
      }
      assert intents[..|intents|] == intents;
    }

    method CollectKnownPayees() returns (known: set<string>)
      ensures known == KnownPayees(intents)
    {
      known := {};
      for i := 0 to |intents|
        invariant known == KnownPayees(intents[..i])
      {
        assert intents[..i + 1][..i] == intents[..i];
        if intents[i].status == Settled {
          known := known + {intents[i].intent.payee};
        }
      }
      assert intents[..|intents|] == intents;
    }

    method CountSettled(payee: string) returns (n: nat)
      ensures n == SettledCount(intents, payee)
    {
      n := 0;
      for i := 0 to |intents|
        invariant n == SettledCount(intents[..i], payee)
      {
        assert intents[..i + 1][..i] == intents[..i];
        if intents[i].status == Settled && intents[i].intent.payee == payee {
          n := n + 1;
        }
      }
      assert intents[..|intents|] == intents;
    }
  }
}
