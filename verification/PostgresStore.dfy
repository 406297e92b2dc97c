/** The durable store (src/store/postgresStore.ts): a synchronous mirror, a serialized
 *  queue of writes, and recovery by reading the tables back.
 *
 *  One process writes. A query may be answered, may fail before it takes effect, or may
 *  take effect and lose its acknowledgement; a crash forgets the mirror and the queue. */
module PostgresStore {
  import opened Prelude
  import opened Types
  import opened Store
  import opened Trail

  datatype AuditRow = AuditRow(at: nat, event: Event)

  /** The content of the in-process mirror. */
  datatype Mirror = Mirror(
    meta: map<string, string>,
    mandates: seq<Mandate>,
    intents: seq<StoredIntent>,
    receipts: map<string, Receipt>,
    audit: seq<AuditRow>)

  /** The durable tables, by primary key. */
  datatype Tables = Tables(
    meta: map<string, string>,
    mandates: map<string, Mandate>,
    intents: map<string, StoredIntent>,
    receipts: map<string, Receipt>,
    audit: map<int, AuditRow>)

  function MandateKey(m: Mandate): string { m.id }

  function IntentKey(s: StoredIntent): string { s.intent.id }

  function AuditKey(row: AuditRow): int { row.at }

  // --- lists as tables ---

  predicate Keyed<K(==), T>(xs: seq<T>, key: T -> K) {
    forall i, j :: 0 <= i < j < |xs| ==> key(xs[i]) != key(xs[j])
  }

  /** The table that holds the rows of a list. */
  function Rows<K(==), T>(xs: seq<T>, key: T -> K): map<K, T> {
    if xs == [] then map[]
    else Rows(xs[..|xs| - 1], key)[key(xs[|xs| - 1]) := xs[|xs| - 1]]
  }

  lemma RowsAppend<K, T>(xs: seq<T>, x: T, key: T -> K)
    ensures Rows(xs + [x], key) == Rows(xs, key)[key(x) := x]
  {
    assert (xs + [x])[..|xs|] == xs;
  }

  lemma KeyedAppend<K, T>(xs: seq<T>, x: T, key: T -> K)
    requires Keyed(xs, key)
    requires forall i :: 0 <= i < |xs| ==> key(xs[i]) != key(x)
    ensures Keyed(xs + [x], key)
  {
  }

  lemma {:induction false} RowsMembers<K, T>(xs: seq<T>, key: T -> K)
    requires Keyed(xs, key)
    ensures forall k :: k in Rows(xs, key) ==> Rows(xs, key)[k] in xs && key(Rows(xs, key)[k]) == k
    ensures forall i :: 0 <= i < |xs| ==> key(xs[i]) in Rows(xs, key) && Rows(xs, key)[key(xs[i])] == xs[i]
    ensures |Rows(xs, key)| == |xs|
  {
    if xs != [] {
      var n := |xs| - 1;
      RowsMembers(xs[..n], key);
      assert key(xs[n]) !in Rows(xs[..n], key);
    }
  }

  lemma {:induction false} RowsReplace<K, T>(xs: seq<T>, i: nat, x: T, key: T -> K)
    requires Keyed(xs, key) && i < |xs| && key(x) == key(xs[i])
    ensures Rows(xs[i := x], key) == Rows(xs, key)[key(x) := x]
  {
    var n := |xs| - 1;
    if i == n {
      assert xs[i := x][..n] == xs[..n];
    } else {
      assert xs[i := x][..n] == xs[..n][i := x];
      RowsReplace(xs[..n], i, x, key);
      assert key(xs[i]) != key(xs[n]);
    }
  }

  function Image(m: Mirror): Tables {
    Tables(m.meta, Rows(m.mandates, MandateKey), Rows(m.intents, IntentKey), m.receipts, Rows(m.audit, AuditKey))
  }

  /** Ids are unique and the trail is numbered from zero. */
  ghost predicate WellFormed(m: Mirror) {
    && Keyed(m.mandates, MandateKey)
    && Keyed(m.intents, IntentKey)
    && forall i :: 0 <= i < |m.audit| ==> m.audit[i].at == i
  }

  // --- writes ---

  datatype Call =
    | SetMeta(name: string, text: string)
    | InsertMandate(mandate: Mandate)
    | RevokeMandate(mandateId: string)
    | UpdateMandate(mandateId: string, patch: MandatePatch)
    | InsertIntent(stored: StoredIntent)
    | UpdateIntent(intentId: string, update: IntentUpdate)
    | InsertReceipt(receipt: Receipt)
    | AppendAudit(event: Event)

  /** The mirror throws on a taken mandate or intent id and on an unknown intent. */
  predicate Accepts(m: Mirror, call: Call) {
    match call
    case InsertMandate(x) => MandateIndex(m.mandates, x.id) < 0
    case InsertIntent(s) => !HasIntent(m.intents, s.intent.id)
    case UpdateIntent(id, _) => HasIntent(m.intents, id)
    case _ => true
  }

  function Mirrored(m: Mirror, call: Call): Mirror
    requires Accepts(m, call)
  {
    match call
    case SetMeta(k, v) => m.(meta := m.meta[k := v])
    case InsertMandate(x) => m.(mandates := m.mandates + [x])
    case RevokeMandate(id) => m.(mandates := PatchMandate(m.mandates, id, REVOKE))
    case UpdateMandate(id, patch) => m.(mandates := PatchMandate(m.mandates, id, patch))
    case InsertIntent(s) => m.(intents := m.intents + [s])
    case UpdateIntent(id, u) =>
      var i := IntentIndex(m.intents, id);
      m.(intents := m.intents[i := Updated(m.intents[i], u)])
    case InsertReceipt(r) => m.(receipts := m.receipts[r.id := r])
    case AppendAudit(e) => m.(audit := m.audit + [AuditRow(|m.audit|, e)])
  }

  /** A queued statement. An upsert carries what the mirror held when it was queued:
   *  nothing at all when the id is unknown. */
  datatype Op =
    | PutMeta(name: string, text: string)
    | PutMandate(id: string, mandate: Option<Mandate>)
    | PutIntent(id: string, stored: Option<StoredIntent>)
    | PutReceipt(id: string, receipt: Receipt)
    | PutAudit(row: AuditRow)

  /** The statement queued for a call, once the mirror is `m`. */
  function Persist(m: Mirror, call: Call): Op {
    match call
    case SetMeta(k, v) => PutMeta(k, v)
    case InsertMandate(x) => PutMandate(x.id, GetMandate(m.mandates, x.id))
    case RevokeMandate(id) => PutMandate(id, GetMandate(m.mandates, id))
    case UpdateMandate(id, _) => PutMandate(id, GetMandate(m.mandates, id))
    case InsertIntent(s) => PutIntent(s.intent.id, GetIntent(m.intents, s.intent.id))
    case UpdateIntent(id, _) => PutIntent(id, GetIntent(m.intents, id))
    case InsertReceipt(r) => PutReceipt(r.id, r)
    case AppendAudit(e) => PutAudit(AuditRow(Max(|m.audit| - 1, 0), e))
  }

  /** What a statement does to the tables, or None when it is refused: a missing value
   *  breaks NOT NULL, and an audit row that differs from the one in place is a fork. */
  function Execute(db: Tables, op: Op): Option<Tables> {
    match op
    case PutMeta(k, v) => Some(db.(meta := db.meta[k := v]))
    case PutMandate(_, None) => None
    case PutMandate(id, Some(x)) => Some(db.(mandates := db.mandates[id := x]))
    case PutIntent(_, None) => None
    case PutIntent(id, Some(s)) => Some(db.(intents := db.intents[id := s]))
    case PutReceipt(id, r) => Some(db.(receipts := db.receipts[id := r]))
    case PutAudit(row) =>
      if row.at !in db.audit then Some(db.(audit := db.audit[row.at := row]))
      else if db.audit[row.at] == row then Some(db)
      else None
  }

  function Effect(db: Tables, op: Op): Tables {
    Execute(db, op).GetOr(db)
  }

  function ApplyAll(db: Tables, ops: seq<Op>): Tables
    decreases |ops|
  {
    if ops == [] then db else ApplyAll(Effect(db, ops[0]), ops[1..])
  }

  predicate Poison(op: Op) {
    (op.PutMandate? && op.mandate.None?) || (op.PutIntent? && op.stored.None?)
  }

  // --- the protocol ---

  /** `saved` lists the mirror at the last start and after every write since; the first
   *  `acked` of those writes have been acknowledged. */
  datatype State = State(mirror: Mirror, queue: seq<Op>, tables: Tables, saved: seq<Mirror>, acked: nat)

  datatype Reply = Answered | NeverRan | AckLost

  datatype Step = Write(call: Call) | Drain(reply: Reply) | Crash(reloaded: Mirror)

  function Start(m: Mirror, db: Tables): State {
    State(m, [], db, [m], 0)
  }

  function Written(s: State, call: Call): State {
    if !Accepts(s.mirror, call) then s
    else
      var m := Mirrored(s.mirror, call);
      s.(mirror := m, queue := s.queue + [Persist(m, call)], saved := s.saved + [m])
  }

  function Drained(s: State, reply: Reply): State {
    if s.queue == [] || reply == NeverRan then s
    else
      match Execute(s.tables, s.queue[0])
      case None => s
      case Some(db) =>
        if reply == AckLost then s.(tables := db)
        else s.(tables := db, queue := s.queue[1..], acked := s.acked + 1)
  }

  /** The mirror `init` may build: the rows in any order, the trail in sequence order. */
  ghost predicate Loads(db: Tables, m: Mirror) {
    && Image(m) == db
    && Keyed(m.mandates, MandateKey)
    && Keyed(m.intents, IntentKey)
    && forall i, j :: 0 <= i < j < |m.audit| ==> m.audit[i].at < m.audit[j].at
  }

  ghost predicate Enabled(s: State, step: Step) {
    step.Crash? ==> Loads(s.tables, step.reloaded)
  }

  function Next(s: State, step: Step): State {
    match step
    case Write(call) => Written(s, call)
    case Drain(reply) => Drained(s, reply)
    case Crash(m) => Start(m, s.tables)
  }

  /** One state per step, each step allowed where it is taken. */
  ghost predicate Behaviour(states: seq<State>, steps: seq<Step>) {
    && |states| == |steps| + 1
    && forall i :: 0 <= i < |steps| ==> Enabled(states[i], steps[i]) && states[i + 1] == Next(states[i], steps[i])
  }

  // --- the invariant ---

  /** A statement other than a poisoned one still runs on the tables it was queued for,
   *  and once it has run, running it again changes nothing. */
  ghost predicate Executable(db: Tables, op: Op) {
    && (Execute(db, op).Some? <==> !Poison(op))
    && (!Poison(op) ==> Execute(Effect(db, op), op) == Some(Effect(db, op)))
  }

  /** Queued statement k takes the tables from one saved mirror to the next. */
  ghost predicate Links(saved: seq<Mirror>, acked: nat, queue: seq<Op>, k: nat)
    requires |saved| == acked + |queue| + 1 && k < |queue|
  {
    && Image(saved[acked + k + 1]) == Effect(Image(saved[acked + k]), queue[k])
    && Executable(Image(saved[acked + k]), queue[k])
  }

  ghost predicate Chained(saved: seq<Mirror>, acked: nat, queue: seq<Op>) {
    && |saved| == acked + |queue| + 1
    && forall k :: 0 <= k < |queue| ==> Links(saved, acked, queue, k)
  }

  ghost predicate Inv(s: State) {
    && Chained(s.saved, s.acked, s.queue)
    && s.saved[|s.saved| - 1] == s.mirror
    && (forall k :: 0 <= k < |s.saved| ==> WellFormed(s.saved[k]))
    && (s.tables == Image(s.saved[s.acked])
        || (s.queue != [] && s.tables == Image(s.saved[s.acked + 1])))
  }

  lemma MandateAt(ms: seq<Mandate>, i: nat)
    requires Keyed(ms, MandateKey) && i < |ms|
    ensures MandateIndex(ms, ms[i].id) == i
  {
    assert forall j :: 0 <= j < i ==> MandateKey(ms[j]) != MandateKey(ms[i]);
  }

  lemma IntentAt(xs: seq<StoredIntent>, i: nat)
    requires Keyed(xs, IntentKey) && i < |xs|
    ensures IntentIndex(xs, xs[i].intent.id) == i
  {
    assert forall j :: 0 <= j < i ==> IntentKey(xs[j]) != IntentKey(xs[i]);
  }

  lemma AuditRowsBelow(xs: seq<AuditRow>)
    requires forall i :: 0 <= i < |xs| ==> xs[i].at == i
    ensures forall k :: k in Rows(xs, AuditKey) ==> k < |xs|
  {
    assert Keyed(xs, AuditKey);
    RowsMembers(xs, AuditKey);
    forall k | k in Rows(xs, AuditKey)
      ensures k < |xs|
    {
      var i :| 0 <= i < |xs| && xs[i] == Rows(xs, AuditKey)[k];
    }
  }

  lemma PutTwice<K, V>(m: map<K, V>, k: K, v: V)
    ensures m[k := v][k := v] == m[k := v]
  {
  }

  /** Running an accepted statement again changes nothing, so a retry is harmless. */
  lemma RetryIsHarmless(db: Tables, op: Op)
    requires Execute(db, op).Some?
    ensures Execute(Effect(db, op), op) == Some(Effect(db, op))
  {
    match op {
      case PutMeta(k, v) => PutTwice(db.meta, k, v);
      case PutMandate(id, m) => PutTwice(db.mandates, id, m.value);
      case PutIntent(id, s) => PutTwice(db.intents, id, s.value);
      case PutReceipt(id, r) => PutTwice(db.receipts, id, r);
      case PutAudit(_) =>
    }
  }

  /** What a call does to the mirror is what its statement does to the tables. */
  lemma PatchMirrors(m: Mirror, id: string, patch: MandatePatch)
    requires WellFormed(m)
    ensures var ms := PatchMandate(m.mandates, id, patch);
            && Keyed(ms, MandateKey)
            && (MandateIndex(m.mandates, id) < 0 <==> GetMandate(ms, id).None?)
            && Image(m.(mandates := ms)) == Effect(Image(m), PutMandate(id, GetMandate(ms, id)))
  {
    var ms := PatchMandate(m.mandates, id, patch);
    var i := MandateIndex(m.mandates, id);
    if i >= 0 {
      assert forall j :: 0 <= j < |ms| ==> MandateKey(ms[j]) == MandateKey(m.mandates[j]);
      assert Keyed(ms, MandateKey);
      MandateAt(ms, i);
      RowsReplace(m.mandates, i, ms[i], MandateKey);
    }
  }

  lemma UpdateMirrors(m: Mirror, id: string, u: IntentUpdate)
    requires WellFormed(m) && HasIntent(m.intents, id)
    ensures var i := IntentIndex(m.intents, id);
            var xs := m.intents[i := Updated(m.intents[i], u)];
            && Keyed(xs, IntentKey)
            && GetIntent(xs, id).Some?
            && Image(m.(intents := xs)) == Effect(Image(m), PutIntent(id, GetIntent(xs, id)))
  {
    var i := IntentIndex(m.intents, id);
    var xs := m.intents[i := Updated(m.intents[i], u)];
    assert forall j :: 0 <= j < |xs| ==> IntentKey(xs[j]) == IntentKey(m.intents[j]);
    assert Keyed(xs, IntentKey);
    IntentAt(xs, i);
    RowsReplace(m.intents, i, xs[i], IntentKey);
  }

  lemma InsertMirrors(m: Mirror, x: Mandate)
    requires WellFormed(m) && MandateIndex(m.mandates, x.id) < 0
    ensures var ms := m.mandates + [x];
            && Keyed(ms, MandateKey)
            && GetMandate(ms, x.id) == Some(x)
            && Image(m.(mandates := ms)) == Effect(Image(m), PutMandate(x.id, Some(x)))
  {
    var ms := m.mandates + [x];
    KeyedAppend(m.mandates, x, MandateKey);
    hide Keyed;
    MandateAt(ms, |m.mandates|);
    RowsAppend(m.mandates, x, MandateKey);
  }

  lemma FilingMirrors(m: Mirror, s: StoredIntent)
    requires WellFormed(m) && !HasIntent(m.intents, s.intent.id)
    ensures var xs := m.intents + [s];
            && Keyed(xs, IntentKey)
            && GetIntent(xs, s.intent.id) == Some(s)
            && Image(m.(intents := xs)) == Effect(Image(m), PutIntent(s.intent.id, Some(s)))
  {
    var xs := m.intents + [s];
    KeyedAppend(m.intents, s, IntentKey);
    hide Keyed;
    IntentAt(xs, |m.intents|);
    RowsAppend(m.intents, s, IntentKey);
  }

  lemma AppendMirrors(m: Mirror, e: Event)
    requires WellFormed(m)
    ensures var row := AuditRow(|m.audit|, e);
            && Execute(Image(m), PutAudit(row)).Some?
            && Image(m.(audit := m.audit + [row])) == Effect(Image(m), PutAudit(row))
  {
    var row := AuditRow(|m.audit|, e);
    AuditRowsBelow(m.audit);
    RowsAppend(m.audit, row, AuditKey);
    assert AuditKey(row) == row.at;
  }

  predicate NamesNoMandate(m: Mirror, call: Call) {
    (call.RevokeMandate? || call.UpdateMandate?) && MandateIndex(m.mandates, call.mandateId) < 0
  }

  /** Every accepted call keeps the mirror well formed and queues the statement that does
   *  the same to the tables; the statement is poisoned exactly when the call names a
   *  mandate that does not exist. */
  lemma CallIsPersisted(m: Mirror, call: Call)
    requires WellFormed(m) && Accepts(m, call)
    ensures WellFormed(Mirrored(m, call))
    ensures Image(Mirrored(m, call)) == Effect(Image(m), Persist(Mirrored(m, call), call))
    ensures Executable(Image(m), Persist(Mirrored(m, call), call))
    ensures Poison(Persist(Mirrored(m, call), call)) <==> NamesNoMandate(m, call)
  {
    hide Rows, Keyed, PatchMandate, GetIntent, Updated;
    var op := Persist(Mirrored(m, call), call);
    match call {
      case SetMeta(_, _) =>
      case InsertMandate(x) => InsertMirrors(m, x);
      case RevokeMandate(id) => PatchMirrors(m, id, REVOKE);
      case UpdateMandate(id, patch) => PatchMirrors(m, id, patch);
      case InsertIntent(s) => FilingMirrors(m, s);
      case UpdateIntent(id, u) => UpdateMirrors(m, id, u);
      case InsertReceipt(_) =>
      case AppendAudit(e) => AppendMirrors(m, e);
    }
    if Execute(Image(m), op).Some? {
      RetryIsHarmless(Image(m), op);
    }
  }

  lemma ChainedAppend(saved: seq<Mirror>, acked: nat, queue: seq<Op>, m: Mirror, op: Op)
    requires Chained(saved, acked, queue)
    requires Image(m) == Effect(Image(saved[|saved| - 1]), op) && Executable(Image(saved[|saved| - 1]), op)
    ensures Chained(saved + [m], acked, queue + [op])
  {
    hide Image, Effect, Executable;
    forall k | 0 <= k < |queue + [op]|
      ensures Links(saved + [m], acked, queue + [op], k)
    {
      if k < |queue| {
        assert Links(saved, acked, queue, k);
      }
    }
  }

  lemma ChainedTail(saved: seq<Mirror>, acked: nat, queue: seq<Op>)
    requires Chained(saved, acked, queue) && queue != []
    ensures Chained(saved, acked + 1, queue[1..])
  {
    hide Image, Effect, Executable;
    var rest, next := queue[1..], acked + 1;
    forall k | 0 <= k < |rest|
      ensures Links(saved, next, rest, k)
    {
      assert Links(saved, acked, queue, k + 1);
    }
  }

  lemma WrittenKeepsInv(s: State, call: Call)
    requires Inv(s)
    ensures Inv(Written(s, call))
  {
    if Accepts(s.mirror, call) {
      CallIsPersisted(s.mirror, call);
      hide Accepts, Mirrored, Persist, Image, WellFormed, Executable, Chained;
      var m := Mirrored(s.mirror, call);
      ChainedAppend(s.saved, s.acked, s.queue, m, Persist(m, call));
    }
  }

  lemma DrainedKeepsInv(s: State, reply: Reply)
    requires Inv(s)
    ensures Inv(Drained(s, reply))
  {
    if s.queue != [] {
      assert Links(s.saved, s.acked, s.queue, 0);
      hide Image, Execute, WellFormed, Poison;
      ChainedTail(s.saved, s.acked, s.queue);
    }
  }

  /** A strictly increasing list of the numbers below its length counts from zero. */
  lemma {:induction false} AscendingFill(xs: seq<AuditRow>, i: nat)
    requires forall a, b :: 0 <= a < b < |xs| ==> xs[a].at < xs[b].at
    requires i <= |xs|
    ensures i < |xs| ==> i <= xs[i].at
    ensures i > 0 ==> xs[i - 1].at <= xs[|xs| - 1].at - (|xs| - i)
    decreases i
  {
    if i > 0 {
      AscendingFill(xs, i - 1);
      AscendingTail(xs, i - 1);
    }
  }

  lemma {:induction false} AscendingTail(xs: seq<AuditRow>, i: nat)
    requires forall a, b :: 0 <= a < b < |xs| ==> xs[a].at < xs[b].at
    requires i < |xs|
    ensures xs[i].at <= xs[|xs| - 1].at - (|xs| - 1 - i)
    decreases |xs| - i
  {
    if i < |xs| - 1 {
      AscendingTail(xs, i + 1);
    }
  }

  /** Reading the tables back in any row order restores the saved mirror: the trail entry
   *  for entry, everything else up to the order of mandates and intents. */
  lemma ReloadRestores(m: Mirror, saved: Mirror)
    requires Loads(Image(saved), m) && WellFormed(saved)
    ensures WellFormed(m)
    ensures m.audit == saved.audit
    ensures |m.mandates| == |saved.mandates| && forall x :: x in m.mandates <==> x in saved.mandates
    ensures |m.intents| == |saved.intents| && forall x :: x in m.intents <==> x in saved.intents
  {
    hide Rows;
    SameRows(m.mandates, saved.mandates, MandateKey);
    SameRows(m.intents, saved.intents, IntentKey);
    TrailReloads(m.audit, saved.audit);
  }

  lemma TrailReloads(xs: seq<AuditRow>, saved: seq<AuditRow>)
    requires Rows(xs, AuditKey) == Rows(saved, AuditKey)
    requires forall a, b :: 0 <= a < b < |xs| ==> xs[a].at < xs[b].at
    requires forall i :: 0 <= i < |saved| ==> saved[i].at == i
    ensures xs == saved
  {
    hide Rows;
    assert Keyed(xs, AuditKey) && Keyed(saved, AuditKey);
    SameRows(xs, saved, AuditKey);
    var n := |xs|;
    forall i | 0 <= i < n
      ensures xs[i] == saved[i]
    {
      AscendingFill(xs, i);
      AscendingTail(xs, i);
      assert xs[n - 1] in saved && xs[i] in saved;
    }
  }

  lemma SameRows<K, T>(xs: seq<T>, ys: seq<T>, key: T -> K)
    requires Keyed(xs, key) && Keyed(ys, key) && Rows(xs, key) == Rows(ys, key)
    ensures |xs| == |ys|
    ensures forall x :: x in xs <==> x in ys
  {
    RowsMembers(xs, key);
    RowsMembers(ys, key);
    forall x | x in xs
      ensures x in ys
    {
      assert Rows(ys, key)[key(x)] == x;
    }
    forall y | y in ys
      ensures y in xs
    {
      assert Rows(xs, key)[key(y)] == y;
    }
  }

  // --- the results ---

  /** A crash recovers the state after a prefix of the writes that holds every
   *  acknowledged one and at most the one write whose acknowledgement was lost. */
  lemma RecoveryIsAPrefix(s: State, m: Mirror) returns (k: nat)
    requires Inv(s) && Loads(s.tables, m)
    ensures s.acked <= k <= s.acked + 1 && k < |s.saved|
    ensures Image(m) == Image(s.saved[k])
    ensures m.audit == s.saved[k].audit
    ensures WellFormed(m)
  {
    k := if s.tables == Image(s.saved[s.acked]) then s.acked else s.acked + 1;
    ReloadRestores(m, s.saved[k]);
  }

  lemma NextKeepsInv(s: State, step: Step)
    requires Inv(s) && Enabled(s, step)
    ensures Inv(Next(s, step))
  {
    match step {
      case Write(call) => WrittenKeepsInv(s, call);
      case Drain(reply) => DrainedKeepsInv(s, reply);
      case Crash(m) => var _ := RecoveryIsAPrefix(s, m);
    }
  }

  /** The invariant holds in every state of every behaviour, through any mix of writes,
   *  failed queries, lost acknowledgements and crashes. */
  lemma {:induction false} BehaviourKeepsInv(states: seq<State>, steps: seq<Step>, i: nat)
    requires Behaviour(states, steps) && Inv(states[0])
    requires i < |states|
    ensures Inv(states[i])
  {
    hide Inv, Next, Enabled;
    if i > 0 {
      BehaviourKeepsInv(states, steps, i - 1);
      NextKeepsInv(states[i - 1], steps[i - 1]);
    }
  }

  lemma {:induction false} ApplyChain(saved: seq<Mirror>, acked: nat, queue: seq<Op>)
    requires Chained(saved, acked, queue)
    ensures ApplyAll(Image(saved[acked]), queue) == Image(saved[|saved| - 1])
    decreases |queue|
  {
    hide Image, Effect;
    if queue != [] {
      assert Links(saved, acked, queue, 0);
      ChainedTail(saved, acked, queue);
      ApplyChain(saved, acked + 1, queue[1..]);
    }
  }

  /** The pending queue applied to the tables always yields the mirror; with nothing
   *  pending, the tables are the mirror. */
  lemma QueueLeadsToMirror(s: State)
    requires Inv(s)
    ensures ApplyAll(s.tables, s.queue) == Image(s.mirror)
    ensures s.queue == [] ==> s.tables == Image(s.mirror)
  {
    ApplyChain(s.saved, s.acked, s.queue);
    if s.queue != [] {
      assert Links(s.saved, s.acked, s.queue, 0);
      assert Effect(s.tables, s.queue[0]) == Effect(Image(s.saved[s.acked]), s.queue[0]);
    }
  }

  /** The states a flush goes through as the database answers. */
  function DrainedBy(s: State, replies: seq<Reply>): State
    decreases |replies|
  {
    if replies == [] then s else DrainedBy(Drained(s, replies[0]), replies[1..])
  }

  predicate HasPoison(queue: seq<Op>) {
    exists k :: 0 <= k < |queue| && Poison(queue[k])
  }

  lemma {:induction false} PoisonStays(s: State, replies: seq<Reply>)
    requires Inv(s) && HasPoison(s.queue)
    ensures HasPoison(DrainedBy(s, replies).queue)
    decreases |replies|
  {
    if replies != [] {
      var t := Drained(s, replies[0]);
      DrainedKeepsInv(s, replies[0]);
      var k :| 0 <= k < |s.queue| && Poison(s.queue[k]);
      if t.queue != s.queue {
        assert k > 0;
        assert t.queue[k - 1] == s.queue[k];
      }
      assert HasPoison(t.queue);
      PoisonStays(t, replies[1..]);
    }
  }

  lemma {:induction false} CleanQueueDrains(s: State) returns (replies: seq<Reply>)
    requires Inv(s) && !HasPoison(s.queue)
    ensures DrainedBy(s, replies).queue == []
    decreases |s.queue|
  {
    replies := [];
    if s.queue != [] {
      var t := Drained(s, Answered);
      DrainedKeepsInv(s, Answered);
      assert Links(s.saved, s.acked, s.queue, 0);
      assert !Poison(s.queue[0]);
      assert t.queue == s.queue[1..];
      assert forall k :: 0 <= k < |t.queue| ==> t.queue[k] == s.queue[k + 1];
      var rest := CleanQueueDrains(t);
      replies := [Answered] + rest;
      assert replies[1..] == rest;
    }
  }

  /** The barrier can come clean exactly when no queued statement is poisoned: one
   *  amendment or revocation of an unknown mandate blocks every later write for good. */
  lemma BarrierOpensIff(s: State)
    requires Inv(s)
    ensures (exists replies :: DrainedBy(s, replies).queue == []) <==> !HasPoison(s.queue)
  {
    if HasPoison(s.queue) {
      forall replies
        ensures DrainedBy(s, replies).queue != []
      {
        PoisonStays(s, replies);
      }
    } else {
      var replies := CleanQueueDrains(s);
      assert DrainedBy(s, replies).queue == [];
    }
  }
}
