/** What each call does to the in-process ledger and each statement to the durable tables, row by
 *  row (src/store/memoryStore.ts:31-110, src/store/postgresStore.ts). */
module StoreMeaning {
  import opened Prelude
  import opened Types
  import opened Store
  import opened PostgresStore
  import opened MandateMeaning

  /** Each field takes the value it was given, or keeps its own. */
  predicate UpdatedBy(was: StoredIntent, s: StoredIntent, u: IntentUpdate) {
    && s.intent == was.intent && s.mandateId == was.mandateId
    && s.status == (if u.status.Some? then u.status.value else was.status)
    && s.settledAt == (if u.settledAt.Some? then Some(u.settledAt.value) else was.settledAt)
    && s.receiptId == (if u.receiptId.Some? then Some(u.receiptId.value) else was.receiptId)
    && s.reasons == (if u.reasons.Some? then u.reasons.value else was.reasons)
    && s.refundedMinor == (if u.refundedMinor.Some? then Some(u.refundedMinor.value) else was.refundedMinor)
  }

  predicate KnownIntent(intents: seq<StoredIntent>, id: string) {
    exists i :: 0 <= i < |intents| && intents[i].intent.id == id
  }

  /** The list is the same but for the entry with the id. */
  predicate SameButEntry(before: seq<StoredIntent>, after: seq<StoredIntent>, id: string) {
    && |after| == |before|
    && forall i :: 0 <= i < |before| && before[i].intent.id != id ==> after[i] == before[i]
  }

  /** A call is refused when it inserts under a taken id or updates an intent that is not there. */
  lemma AcceptsMeans(m: Mirror, call: Call)
    ensures Accepts(m, call) <==>
            && (call.InsertMandate? ==> !Known(m.mandates, call.mandate.id))
            && (call.InsertIntent? ==> !KnownIntent(m.intents, call.stored.intent.id))
            && (call.UpdateIntent? ==> KnownIntent(m.intents, call.intentId))
  {
  }

  /** Only the named part of the mirror changes. */
  predicate Touches(m: Mirror, m': Mirror, call: Call) {
    && (call.SetMeta? || m'.meta == m.meta)
    && (call.InsertMandate? || call.RevokeMandate? || call.UpdateMandate? || m'.mandates == m.mandates)
    && (call.InsertIntent? || call.UpdateIntent? || m'.intents == m.intents)
    && (call.InsertReceipt? || m'.receipts == m.receipts)
    && (call.AppendAudit? || m'.audit == m.audit)
  }

  /** How it changes. */
  predicate Reflects(m: Mirror, m': Mirror, call: Call) {
    match call
    case SetMeta(name, text) => m'.meta == m.meta[name := text]
    case InsertMandate(x) => m'.mandates == m.mandates + [x]
    case RevokeMandate(id) =>
      && SameButOne(m.mandates, m'.mandates, id)
      && forall i :: 0 <= i < |m.mandates| && m.mandates[i].id == id ==> m'.mandates[i] == m.mandates[i].(status := Revoked)
    case UpdateMandate(id, patch) =>
      && SameButOne(m.mandates, m'.mandates, id)
      && forall i :: 0 <= i < |m.mandates| && m.mandates[i].id == id ==> AmendedBy(m.mandates[i], m'.mandates[i], patch)
    case InsertIntent(s) => m'.intents == m.intents + [s]
    case UpdateIntent(id, u) =>
      && SameButEntry(m.intents, m'.intents, id)
      && forall i :: 0 <= i < |m.intents| && m.intents[i].intent.id == id ==> UpdatedBy(m.intents[i], m'.intents[i], u)
    case InsertReceipt(r) => m'.receipts == m.receipts[r.id := r]
    case AppendAudit(e) => m'.audit == m.audit + [AuditRow(|m.audit|, e)]
  }

  /** THE MIRROR. An accepted call does to the in-process ledger what it says, and no more. */
  lemma MirrorMeans(m: Mirror, call: Call)
    requires Accepts(m, call) && DistinctMandates(m.mandates) && DistinctIntents(m.intents)
    ensures Touches(m, Mirrored(m, call), call) && Reflects(m, Mirrored(m, call), call)
  {
    match call {
      case RevokeMandate(id) => PatchMeans(m.mandates, id, REVOKE);
      case UpdateMandate(id, patch) => PatchMeans(m.mandates, id, patch);
      case UpdateIntent(id, u) => UpdateMeans(m.intents, id, u);
      case _ =>
    }
    hide PatchMandate, Updated, UpdatedBy;
  }

  lemma PatchMeans(mandates: seq<Mandate>, id: string, patch: MandatePatch)
    requires DistinctMandates(mandates)
    ensures SameButOne(mandates, PatchMandate(mandates, id, patch), id)
    ensures forall i :: 0 <= i < |mandates| && mandates[i].id == id ==> AmendedBy(mandates[i], PatchMandate(mandates, id, patch)[i], patch)
  {
  }

  lemma UpdateMeans(intents: seq<StoredIntent>, id: string, u: IntentUpdate)
    requires DistinctIntents(intents) && HasIntent(intents, id)
    ensures var i := IntentIndex(intents, id);
            var after := intents[i := Updated(intents[i], u)];
            && SameButEntry(intents, after, id)
            && forall k :: 0 <= k < |intents| && intents[k].intent.id == id ==> UpdatedBy(intents[k], after[k], u)
  {
  }

  /** THE STATEMENTS. A row with a value is put under its key in its own table; a row without one
   *  is refused, and so is an audit row other than the one already in its place. */
  lemma StatementMeans(db: Tables, op: Op)
    ensures Execute(db, op) ==
            match op {
              case PutMeta(name, text) => Some(Tables(db.meta[name := text], db.mandates, db.intents, db.receipts, db.audit))
              case PutMandate(id, row) =>
                if row == None then None
                else Some(Tables(db.meta, db.mandates[id := row.value], db.intents, db.receipts, db.audit))
              case PutIntent(id, row) =>
                if row == None then None
                else Some(Tables(db.meta, db.mandates, db.intents[id := row.value], db.receipts, db.audit))
              case PutReceipt(id, row) => Some(Tables(db.meta, db.mandates, db.intents, db.receipts[id := row], db.audit))
              case PutAudit(row) =>
                if row.at in db.audit && db.audit[row.at] != row then None
                else Some(Tables(db.meta, db.mandates, db.intents, db.receipts, db.audit[row.at := row]))
            }
  {
    if op.PutAudit? && op.row.at in db.audit {
      assert db.audit[op.row.at := db.audit[op.row.at]] == db.audit;
    }
  }

  /** The tables of a mirror hold each of its rows under its key, and nothing else. */
  lemma ImageMeans(m: Mirror)
    requires WellFormed(m)
    ensures var db := Image(m);
            && db.meta == m.meta && db.receipts == m.receipts
            && (forall i :: 0 <= i < |m.mandates| ==> m.mandates[i].id in db.mandates && db.mandates[m.mandates[i].id] == m.mandates[i])
            && (forall i :: 0 <= i < |m.intents| ==>
                  m.intents[i].intent.id in db.intents && db.intents[m.intents[i].intent.id] == m.intents[i])
            && (forall i :: 0 <= i < |m.audit| ==> i in db.audit && db.audit[i] == m.audit[i])
            && |db.mandates| == |m.mandates| && |db.intents| == |m.intents| && |db.audit| == |m.audit|
  {
    MandateRows(m.mandates);
    IntentRows(m.intents);
    AuditRows(m.audit);
    hide Rows, Keyed;
  }

  lemma MandateRows(xs: seq<Mandate>)
    requires Keyed(xs, MandateKey)
    ensures var rows := Rows(xs, MandateKey);
            (forall i :: 0 <= i < |xs| ==> xs[i].id in rows && rows[xs[i].id] == xs[i]) && |rows| == |xs|
  {
    RowsMembers(xs, MandateKey);
    hide Rows;
    forall i | 0 <= i < |xs| ensures xs[i].id in Rows(xs, MandateKey) && Rows(xs, MandateKey)[xs[i].id] == xs[i] {
      assert MandateKey(xs[i]) == xs[i].id;
    }
  }

  lemma IntentRows(xs: seq<StoredIntent>)
    requires Keyed(xs, IntentKey)
    ensures var rows := Rows(xs, IntentKey);
            (forall i :: 0 <= i < |xs| ==> xs[i].intent.id in rows && rows[xs[i].intent.id] == xs[i]) && |rows| == |xs|
  {
    RowsMembers(xs, IntentKey);
    hide Rows;
    forall i | 0 <= i < |xs| ensures xs[i].intent.id in Rows(xs, IntentKey) && Rows(xs, IntentKey)[xs[i].intent.id] == xs[i] {
      assert IntentKey(xs[i]) == xs[i].intent.id;
    }
  }

  lemma AuditRows(xs: seq<AuditRow>)
    requires forall i :: 0 <= i < |xs| ==> xs[i].at == i
    ensures var rows := Rows(xs, AuditKey);
            (forall i :: 0 <= i < |xs| ==> i in rows && rows[i] == xs[i]) && |rows| == |xs|
  {
    assert Keyed(xs, AuditKey);
    RowsMembers(xs, AuditKey);
    hide Rows;
    forall i | 0 <= i < |xs| ensures i in Rows(xs, AuditKey) && Rows(xs, AuditKey)[i] == xs[i] {
      assert AuditKey(xs[i]) == i;
    }
  }

  /** THE PROTOCOL. An accepted write changes the mirror at once and queues one statement with what
   *  the mirror then holds; a refused one does nothing. The first statement in the queue runs on
   *  the tables when its query is answered or when only the answer is lost, and leaves the queue,
   *  acknowledged, in the first case alone; a query that never ran and a statement the tables
   *  refuse change nothing. A crash leaves the tables, and a new start from them. */
  lemma ProtocolMeans(s: State, step: Step)
    ensures Next(s, step) ==
            match step {
              case Write(call) =>
                if !Accepts(s.mirror, call) then s
                else
                  var m := Mirrored(s.mirror, call);
                  State(m, s.queue + [Persist(m, call)], s.tables, s.saved + [m], s.acked)
              case Drain(reply) =>
                if s.queue == [] then s
                else
                  match (reply, Execute(s.tables, s.queue[0])) {
                    case (Answered, Some(db)) => State(s.mirror, s.queue[1..], db, s.saved, s.acked + 1)
                    case (AckLost, Some(db)) => State(s.mirror, s.queue, db, s.saved, s.acked)
                    case _ => s
                  }
              case Crash(m) => State(m, [], s.tables, [m], 0)
            }
  {
    hide Mirrored, Persist, Execute;
  }
}
