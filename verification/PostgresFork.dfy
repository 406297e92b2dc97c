/** Two processes over one database (src/store/postgresStore.ts:129-141). The trail has one
 *  writer; a second one that appends something else is refused for good. */
module PostgresFork {
  import opened Trail
  import opened PostgresStore

  /** Both processes see the same tables. */
  datatype Pair = Pair(first: State, second: State)

  /** A turn of either process: a write of its own, or a query of its own queue. */
  datatype Turn = First(step: Step) | Second(step: Step)

  function Taken(p: Pair, turn: Turn): Pair {
    match turn
    case First(step) =>
      var s := Next(p.first, step);
      Pair(s, p.second.(tables := s.tables))
    case Second(step) =>
      var s := Next(p.second, step);
      Pair(p.first.(tables := s.tables), s)
  }

  function After(p: Pair, turns: seq<Turn>): Pair
    decreases |turns|
  {
    if turns == [] then p else After(Taken(p, turns[0]), turns[1..])
  }

  /** Neither process restarts. */
  predicate NoRestart(turns: seq<Turn>) {
    forall t :: t in turns ==> !t.step.Crash?
  }

  /** A row of the trail is never overwritten. */
  lemma RowsStay(db: Tables, op: Op, at: int)
    requires at in db.audit
    ensures at in Effect(db, op).audit && Effect(db, op).audit[at] == db.audit[at]
  {
  }

  ghost predicate Holds(db: Tables, row: AuditRow) {
    row.at in db.audit && db.audit[row.at] == row
  }

  /** The second process is stuck at an entry that meets another row. */
  ghost predicate Stuck(p: Pair, theirs: AuditRow, ours: AuditRow) {
    && p.first.tables == p.second.tables && Holds(p.second.tables, theirs)
    && theirs.at == ours.at && theirs != ours
    && p.second.queue != [] && p.second.queue[0] == PutAudit(ours)
  }

  lemma StepKeepsRow(s: State, step: Step, row: AuditRow)
    requires Holds(s.tables, row) && !step.Crash?
    ensures Holds(Next(s, step).tables, row)
  {
    if step.Drain? && s.queue != [] {
      RowsStay(s.tables, s.queue[0], row.at);
    }
  }

  lemma TurnKeepsStuck(p: Pair, turn: Turn, theirs: AuditRow, ours: AuditRow)
    requires Stuck(p, theirs, ours) && !turn.step.Crash?
    ensures Stuck(Taken(p, turn), theirs, ours) && Taken(p, turn).second.acked == p.second.acked
  {
    match turn {
      case First(step) => StepKeepsRow(p.first, step, theirs);
      case Second(step) =>
        if step.Write? {
          hide Mirrored, Persist, Accepts;
          assert Written(p.second, step.call).tables == p.second.tables;
        }
    }
  }

  lemma {:induction false} StuckForGood(p: Pair, turns: seq<Turn>, theirs: AuditRow, ours: AuditRow)
    requires Stuck(p, theirs, ours) && NoRestart(turns)
    ensures Stuck(After(p, turns), theirs, ours) && After(p, turns).second.acked == p.second.acked
    decreases |turns|
  {
    hide Taken, Stuck;
    if turns != [] {
      assert turns[0] in turns;
      assert forall t :: t in turns[1..] ==> t in turns;
      TurnKeepsStuck(p, turns[0], theirs, ours);
      StuckForGood(Taken(p, turns[0]), turns[1..], theirs, ours);
    }
  }

  /** Both processes load the same tables; the first appends an entry and makes it durable; the
   *  second, which has not heard of it, appends one of its own. */
  function BothAppend(m: Mirror, theirs: Event, ours: Event): Pair {
    var one := Pair(Start(m, Image(m)), Start(m, Image(m)));
    Taken(Taken(Taken(one, First(Write(AppendAudit(theirs)))), First(Drain(Answered))), Second(Write(AppendAudit(ours))))
  }

  lemma BothAppendIs(m: Mirror, theirs: Event, ours: Event)
    requires WellFormed(m)
    ensures var p, at := BothAppend(m, theirs, ours), |m.audit|;
            && p.first.tables == p.second.tables && Holds(p.second.tables, AuditRow(at, theirs))
            && p.second.queue == [PutAudit(AuditRow(at, ours))] && p.second.acked == 0
  {
    AuditRowsBelow(m.audit);
    var rows := Rows(m.audit, AuditKey);
    assert |m.audit| !in rows;
  }

  /** FORK. The second process can ever flush its queue if and only if it appended the very same
   *  entry; otherwise nothing it writes from then on becomes durable, and the first entry
   *  stays. */
  lemma ForkBlocksIff(m: Mirror, theirs: Event, ours: Event)
    requires WellFormed(m)
    ensures var p := BothAppend(m, theirs, ours);
            && ((exists turns :: NoRestart(turns) && After(p, turns).second.queue == []) <==> theirs == ours)
            && (theirs != ours ==>
                  forall turns :: NoRestart(turns) ==>
                    After(p, turns).second.acked == 0 && Holds(After(p, turns).second.tables, AuditRow(|m.audit|, theirs)))
  {
    hide BothAppend, WellFormed;
    var p := BothAppend(m, theirs, ours);
    BothAppendIs(m, theirs, ours);
    if theirs == ours {
      var turns := [Second(Drain(Answered))];
      assert After(p, turns) == After(Taken(p, turns[0]), turns[1..]) == Taken(p, turns[0]);
      assert NoRestart(turns) && After(p, turns).second.queue == [];
    } else {
      var their, our := AuditRow(|m.audit|, theirs), AuditRow(|m.audit|, ours);
      assert Stuck(p, their, our);
      forall turns | NoRestart(turns)
        ensures After(p, turns).second.queue != [] && After(p, turns).second.acked == 0
        ensures Holds(After(p, turns).second.tables, their)
      {
        StuckForGood(p, turns, their, our);
      }
    }
  }
}
