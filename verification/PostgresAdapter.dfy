/** The durable store as a program: each write updates the mirror and queues a statement,
 *  `Flush` drains the queue, and the constructor rebuilds the mirror from the tables. */
module PostgresAdapter {
  import opened PostgresStore

  /** Rows under their own key, the trail without gaps: what this store leaves behind. */
  ghost predicate Consistent(db: Tables) {
    && (forall id :: id in db.mandates ==> db.mandates[id].id == id)
    && (forall id :: id in db.intents ==> db.intents[id].intent.id == id)
    && (forall at :: at in db.audit <==> 0 <= at < |db.audit|)
    && (forall at :: at in db.audit ==> db.audit[at].at == at)
  }

  lemma ImageIsConsistent(m: Mirror)
    requires WellFormed(m)
    ensures Consistent(Image(m))
  {
    RowsMembers(m.mandates, MandateKey);
    RowsMembers(m.intents, IntentKey);
    assert Keyed(m.audit, AuditKey);
    RowsMembers(m.audit, AuditKey);
    AuditRowsBelow(m.audit);
    var rows := Rows(m.audit, AuditKey);
    forall at | 0 <= at < |rows|
      ensures at in rows
    {
      assert AuditKey(m.audit[at]) == at;
    }
    forall at | at in rows
      ensures rows[at].at == at && 0 <= at
    {
      assert AuditKey(rows[at]) == at;
    }
  }

  /** Every state of every behaviour leaves tables that a new process can start from. */
  lemma TablesStayConsistent(s: State)
    requires Inv(s)
    ensures Consistent(s.tables)
  {
    hide Image, Consistent;
    ImageIsConsistent(if s.tables == Image(s.saved[s.acked]) then s.saved[s.acked] else s.saved[s.acked + 1]);
  }

  /** Read a table without ORDER BY: the rows arrive in any order. */
  method SelectAll<K(==), T>(table: map<K, T>, key: T -> K) returns (rows: seq<T>)
    requires forall k :: k in table ==> key(table[k]) == k
    ensures Keyed(rows, key) && Rows(rows, key) == table
  {
    rows := [];
    var rest := table.Keys;
    while rest != {}
      invariant rest <= table.Keys
      invariant Keyed(rows, key)
      invariant Rows(rows, key) == table - rest
      decreases |rest|
    {
      hide Keyed, Rows;
      var k :| k in rest;
      RowsMembers(rows, key);
      RowsAppend(rows, table[k], key);
      KeyedAppend(rows, table[k], key);
      rows := rows + [table[k]];
      rest := rest - {k};
    }
    assert table - {} == table;
  }

  /** Read the trail in sequence order. */
  method SelectTrail(table: map<int, AuditRow>) returns (rows: seq<AuditRow>)
    requires forall at :: at in table <==> 0 <= at < |table|
    requires forall at :: at in table ==> table[at].at == at
    ensures |rows| == |table| && forall i :: 0 <= i < |rows| ==> rows[i].at == i
    ensures Rows(rows, AuditKey) == table
  {
    rows := [];
    for i := 0 to |table|
      invariant |rows| == i
      invariant forall j :: 0 <= j < i ==> rows[j].at == j
      invariant Rows(rows, AuditKey).Keys == set at | at in table && at < i
      invariant forall at :: at in Rows(rows, AuditKey) ==> Rows(rows, AuditKey)[at] == table[at]
    {
      RowsAppend(rows, table[i], AuditKey);
      assert AuditKey(table[i]) == i;
      rows := rows + [table[i]];
    }
    assert table.Keys == set at | at in table && at < |table|;
  }

  class PgClient {
    var tables: Tables

    constructor (tables: Tables)
      ensures this.tables == tables
    {
      this.tables := tables;
    }

    /** One query; the network decides whether it runs and whether we hear of it. */
    method Query(op: Op, reply: Reply) returns (ok: bool)
      modifies this
      ensures tables == if reply == NeverRan then old(tables) else Effect(old(tables), op)
      ensures ok <==> reply == Answered && Execute(old(tables), op).Some?
    {
      if reply == NeverRan {
        return false;
      }
      match Execute(tables, op) {
        case None => return false;
        case Some(db) =>
          tables := db;
          return reply == Answered;
      }
    }
  }

  datatype FlushResult = Clean | Rejected | Waiting

  class PostgresHandle {
    const client: PgClient
    var mirror: Mirror
    var queue: seq<Op>
    ghost var saved: seq<Mirror>
    ghost var acked: nat

    /** Hydrate the mirror from the durable tables. */
    constructor (client: PgClient)
      requires Consistent(client.tables)
      ensures this.client == client
      ensures Valid() && Loads(client.tables, mirror) && Now() == Start(mirror, client.tables)
    {
      var db := client.tables;
      var mandates := SelectAll(db.mandates, MandateKey);
      var intents := SelectAll(db.intents, IntentKey);
      var audit := SelectTrail(db.audit);
      var loaded := Mirror(db.meta, mandates, intents, db.receipts, audit);
      this.client := client;
      mirror := loaded;
      queue := [];
      saved := [loaded];
      acked := 0;
    }

    ghost function Now(): State
      reads this, client
    {
      State(mirror, queue, client.tables, saved, acked)
    }

    ghost predicate Valid()
      reads this, client
    {
      Inv(Now())
    }

    /** Every public write: the mirror first, then the statement read back from it. */
    method Commit(call: Call) returns (threw: bool)
      requires Valid()
      modifies this
      ensures Valid() && Now() == Written(old(Now()), call)
      ensures threw <==> !Accepts(old(mirror), call)
    {
      WrittenKeepsInv(Now(), call);
      if !Accepts(mirror, call) {
        return true;
      }
      mirror := Mirrored(mirror, call);
      queue := queue + [Persist(mirror, call)];
      saved := saved + [mirror];
      return false;
    }

    /** Drain the queue until it is empty or a query fails. The barrier is clean only when
     *  everything written so far is durable. */
    method Flush(replies: seq<Reply>) returns (result: FlushResult, used: nat)
      requires Valid()
      modifies this, client
      ensures Valid() && used <= |replies|
      ensures mirror == old(mirror)
      ensures Now() == DrainedBy(old(Now()), replies[..used])
      ensures result == Clean <==> queue == []
      ensures result == Clean ==> client.tables == Image(mirror)
      ensures result == Waiting ==> used == |replies|
    {
      hide Inv, Execute, Image, Persist, Mirrored;
      used := 0;
      ghost var start := Now();
      while queue != []
        invariant Valid() && used <= |replies| && mirror == old(mirror)
        invariant Now() == DrainedBy(start, replies[..used])
        decreases |replies| - used
      {
        if used == |replies| {
          return Waiting, used;
        }
        DrainedKeepsInv(Now(), replies[used]);
        DrainedOnce(start, replies, used);
        var ok := client.Query(queue[0], replies[used]);
        used := used + 1;
        if !ok {
          return Rejected, used;
        }
        queue := queue[1..];
        acked := acked + 1;
      }
      QueueLeadsToMirror(Now());
      result := Clean;
    }
  }

  lemma {:induction false} DrainedOnce(s: State, replies: seq<Reply>, n: nat)
    requires n < |replies|
    ensures DrainedBy(s, replies[..n + 1]) == Drained(DrainedBy(s, replies[..n]), replies[n])
    decreases n
  {
    hide Drained;
    if n == 0 {
      assert replies[..1][1..] == [];
    } else {
      assert replies[..n + 1][1..] == replies[1..][..n];
      assert replies[..n][1..] == replies[1..][..n - 1];
      DrainedOnce(Drained(s, replies[0]), replies[1..], n - 1);
    }
  }
}
