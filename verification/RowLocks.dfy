/** Why a write batch may be treated as one atomic step. Transactions run statement by
    statement; a conditional UPDATE that matches locks its row until commit, one that
    matches nothing locks nothing, an exception or a crash drops every write. The
    committed rows then move exactly as if each committed batch had run at once, at its
    commit, on the rows committed by then. */
module RowLocks {
  import opened Domain
  import opened TimingEngine
  import opened Protocol

  /** `updateMany({ where, data })` on one row. A `required` one throws when its count is 0. */
  datatype Statement<!K, !R> = Statement(key: K, matches: R -> bool, write: R -> R, required: bool)

  datatype Fate = Running | Committed | RolledBack

  /** `took[i]` records whether statement i matched; `writes` holds the rows it has locked. */
  datatype Tx<!K(==), !R> = Tx(program: seq<Statement<K, R>>, took: seq<bool>, writes: map<K, R>, fate: Fate)

  datatype Server<!K(==), !R> = Server(rows: map<K, R>, txs: map<Id, Tx<K, R>>)

  datatype Event = Execute(tx: Id) | Commit(tx: Id) | Crash(tx: Id)

  predicate LockedByAnother<K, R>(s: Server<K, R>, id: Id, key: K) {
    exists other :: other in s.txs && other != id && s.txs[other].fate == Running && key in s.txs[other].writes
  }

  /** The row a statement of this transaction sees: its own write, else the committed row. */
  function Sees<K, R>(rows: map<K, R>, writes: map<K, R>): map<K, R> {
    rows + writes
  }

  /** The next statement matches its row as this transaction sees it. */
  predicate Takes<K, R>(rows: map<K, R>, tx: Tx<K, R>)
    requires |tx.took| < |tx.program|
  {
    var st, view := tx.program[|tx.took|], Sees(rows, tx.writes);
    st.key in view && st.matches(view[st.key])
  }

  function ExecuteOne<K, R>(rows: map<K, R>, tx: Tx<K, R>): Tx<K, R>
    requires |tx.took| < |tx.program|
  {
    var st, view := tx.program[|tx.took|], Sees(rows, tx.writes);
    if Takes(rows, tx) then
      tx.(took := tx.took + [true], writes := tx.writes[st.key := st.write(view[st.key])])
    else if st.required then tx.(writes := map[], fate := RolledBack)
    else tx.(took := tx.took + [false])
  }

  /** A statement that matches a row another transaction has locked waits: it is not
      executed. One that does not match the committed row passes the lock by. */
  function Next<K, R>(s: Server<K, R>, e: Event): Server<K, R> {
    if e.tx !in s.txs || s.txs[e.tx].fate != Running then s
    else
      var tx := s.txs[e.tx];
      match e
      case Execute(id) =>
        if |tx.took| >= |tx.program| then s
        else if LockedByAnother(s, id, tx.program[|tx.took|].key) && Takes(s.rows, tx) then s
        else s.(txs := s.txs[id := ExecuteOne(s.rows, tx)])
      case Commit(id) =>
        if |tx.took| != |tx.program| then s
        else Server(s.rows + tx.writes, s.txs[id := tx.(fate := Committed)])
      case Crash(id) => s.(txs := s.txs[id := tx.(writes := map[], fate := RolledBack)])
  }

  // ---- The atomic meaning of a batch ----

  /** Run at once on `rows` the first |took| statements, those that took; `None` if one
      of them no longer matches. */
  function Replay<K, R>(program: seq<Statement<K, R>>, took: seq<bool>, rows: map<K, R>): Option<map<K, R>>
    requires |took| <= |program|
    decreases |took|
  {
    if took == [] then Some(rows)
    else
      var n := |took| - 1;
      match Replay(program, took[..n], rows)
      case None => None
      case Some(sofar) =>
        if !took[n] then Some(sofar)
        else if program[n].key in sofar && program[n].matches(sofar[program[n].key]) then
          Some(sofar[program[n].key := program[n].write(sofar[program[n].key])])
        else None
  }

  /** The batch so far would have the same effect if it ran now, in one step. */
  ghost predicate Replayable<K(!new), R(!new)>(rows: map<K, R>, tx: Tx<K, R>) {
    && |tx.took| <= |tx.program|
    && (forall i :: 0 <= i < |tx.took| ==> (tx.took[i] ==> tx.program[i].key in tx.writes))
    && (forall i :: 0 <= i < |tx.took| ==> (tx.program[i].required ==> tx.took[i]))
    && Replay(tx.program, tx.took, rows) == Some(rows + tx.writes)
  }

  predicate Holds<K, R>(s: Server<K, R>, id: Id, key: K) {
    id in s.txs && s.txs[id].fate == Running && key in s.txs[id].writes
  }

  ghost predicate Sound<K(!new), R(!new)>(s: Server<K, R>) {
    && (forall id :: id in s.txs && s.txs[id].fate == Running ==> Replayable(s.rows, s.txs[id]))
    && (forall id, other, key :: Holds(s, id, key) && Holds(s, other, key) ==> id == other)
  }

  /** What a batch does depends on the rows it has locked and on no others. */
  lemma {:induction false} ReplayOnOtherRows<K(!new), R(!new)>(program: seq<Statement<K, R>>, took: seq<bool>,
        rows: map<K, R>, after: map<K, R>, locked: set<K>)
    requires |took| <= |program|
    requires forall i :: 0 <= i < |took| && took[i] ==> program[i].key in locked
    requires forall key :: key in locked ==>
        (key in rows <==> key in after) && (key in rows ==> after[key] == rows[key])
    requires Replay(program, took, rows).Some?
    ensures
      var one, other := Replay(program, took, rows), Replay(program, took, after);
      && other.Some?
      && (forall key :: key in locked ==>
              (key in one.value <==> key in other.value) && (key in one.value ==> other.value[key] == one.value[key]))
      && (forall key :: key !in locked ==>
              (key in other.value <==> key in after) && (key in after ==> other.value[key] == after[key]))
    decreases |took|
  {
    if took == [] {
      assert Replay(program, took, rows) == Some(rows) && Replay(program, took, after) == Some(after);
    } else {
      var n := |took| - 1;
      assert forall i :: 0 <= i < n ==> took[..n][i] == took[i];
      ReplayOnOtherRows(program, took[..n], rows, after, locked);
      var a, b, st := Replay(program, took[..n], rows).value, Replay(program, took[..n], after).value, program[n];
      if took[n] {
        assert st.key in locked && st.key in a && st.key in b && a[st.key] == b[st.key];
        assert Replay(program, took, rows) == Some(a[st.key := st.write(a[st.key])]);
        assert Replay(program, took, after) == Some(b[st.key := st.write(b[st.key])]);
      } else {
        assert Replay(program, took, rows) == Some(a) && Replay(program, took, after) == Some(b);
      }
    }
  }

  /** One more statement of a replay. */
  lemma ReplayOne<K(!new), R(!new)>(program: seq<Statement<K, R>>, took: seq<bool>, rows: map<K, R>, sofar: map<K, R>,
                                    b: bool)
    requires |took| < |program| && Replay(program, took, rows) == Some(sofar)
    ensures
      var st := program[|took|];
      Replay(program, took + [b], rows)
      == if !b then Some(sofar)
         else if st.key in sofar && st.matches(sofar[st.key]) then Some(sofar[st.key := st.write(sofar[st.key])])
         else None
  {
    assert (took + [b])[..|took|] == took;
  }

  lemma ExecutedReplays<K(!new), R(!new)>(rows: map<K, R>, tx: Tx<K, R>)
    requires |tx.took| < |tx.program| && Replay(tx.program, tx.took, rows) == Some(rows + tx.writes)
    requires tx.fate == Running && ExecuteOne(rows, tx).fate == Running
    ensures var next := ExecuteOne(rows, tx); Replay(tx.program, next.took, rows) == Some(rows + next.writes)
  {
    var next, st, view := ExecuteOne(rows, tx), tx.program[|tx.took|], rows + tx.writes;
    ReplayOne(tx.program, tx.took, rows, view, next.took[|tx.took|]);
    if next.took[|tx.took|] {
      assert rows + next.writes == view[st.key := st.write(view[st.key])];
    }
  }

  lemma ExecuteKeepsReplayable<K(!new), R(!new)>(rows: map<K, R>, tx: Tx<K, R>)
    requires Replayable(rows, tx) && |tx.took| < |tx.program| && tx.fate == Running
    ensures ExecuteOne(rows, tx).fate == Running ==> Replayable(rows, ExecuteOne(rows, tx))
  {
    if ExecuteOne(rows, tx).fate == Running {
      ExecutedReplays(rows, tx);
    }
  }

  lemma OthersCommitKeepsReplayable<K(!new), R(!new)>(rows: map<K, R>, tx: Tx<K, R>, committed: map<K, R>)
    requires Replayable(rows, tx) && (forall key :: key in tx.writes ==> key !in committed)
    ensures Replayable(rows + committed, tx)
  {
    var after := rows + committed;
    ReplayOnOtherRows(tx.program, tx.took, rows, after, tx.writes.Keys);
    var replayed := Replay(tx.program, tx.took, after).value;
    assert replayed == after + tx.writes;
  }

  lemma ExecuteKeepsLocks<K(!new), R(!new)>(s: Server<K, R>, e: Event)
    requires Sound(s) && e.Execute?
    ensures forall id, other, key :: Holds(Next(s, e), id, key) && Holds(Next(s, e), other, key) ==> id == other
  {
    var s' := Next(s, e);
    if s' != s {
      var tx := s.txs[e.tx];
      var st := tx.program[|tx.took|];
      forall id, key | Holds(s', id, key)
          ensures Holds(s, id, key) || (id == e.tx && key == st.key && Takes(s.rows, tx)) {}
      forall id | id != e.tx && Takes(s.rows, tx) ensures !Holds(s, id, st.key) {
        assert !LockedByAnother(s, e.tx, st.key);
      }
    }
  }

  lemma NextKeepsSound<K(!new), R(!new)>(s: Server<K, R>, e: Event)
    requires Sound(s)
    ensures Sound(Next(s, e))
  {
    var s' := Next(s, e);
    if e.tx in s.txs && s.txs[e.tx].fate == Running {
      var mine := s.txs[e.tx];
      forall id | id in s'.txs && s'.txs[id].fate == Running ensures Replayable(s'.rows, s'.txs[id]) {
        assert Replayable(s.rows, s.txs[id]);
        if e.Commit? && |mine.took| == |mine.program| {
          forall key | key in s.txs[id].writes ensures key !in mine.writes {
            assert Holds(s, id, key);
            assert key in mine.writes ==> Holds(s, e.tx, key);
          }
          OthersCommitKeepsReplayable(s.rows, s.txs[id], mine.writes);
        } else if e.Execute? && id == e.tx && s'.txs[id] != mine {
          ExecuteKeepsReplayable(s.rows, mine);
        }
      }
    }
    if e.Execute? {
      ExecuteKeepsLocks(s, e);
    } else {
      forall id, key | Holds(s', id, key) ensures Holds(s, id, key) {}
    }
  }

  function RunAll<K, R>(s: Server<K, R>, events: seq<Event>): Server<K, R>
    decreases |events|
  {
    if events == [] then s else RunAll(Next(s, events[0]), events[1..])
  }

  lemma {:induction false} RunKeepsSound<K(!new), R(!new)>(s: Server<K, R>, events: seq<Event>)
    requires Sound(s)
    ensures Sound(RunAll(s, events))
    decreases |events|
  {
    if events != [] {
      NextKeepsSound(s, events[0]);
      RunKeepsSound(Next(s, events[0]), events[1..]);
    }
  }

  /** Nothing has executed yet. */
  predicate Fresh<K(!new), R(!new)>(s: Server<K, R>) {
    forall id :: id in s.txs ==> s.txs[id].took == [] && s.txs[id].writes == map[] && s.txs[id].fate == Running
  }

  lemma FreshRunsSound<K(!new), R(!new)>(s: Server<K, R>, events: seq<Event>)
    requires Fresh(s)
    ensures Sound(RunAll(s, events))
  {
    forall id | id in s.txs ensures Replayable(s.rows, s.txs[id]) {
      assert s.rows + s.txs[id].writes == s.rows;
    }
    RunKeepsSound(s, events);
  }

  /** This event commits that transaction. */
  predicate Commits<K, R>(s: Server<K, R>, e: Event) {
    e.Commit? && e.tx in s.txs && s.txs[e.tx].fate == Running && |s.txs[e.tx].took| == |s.txs[e.tx].program|
  }

  /** Main result: after any interleaving of the statements of any number of
      transactions, an event that is not a commit leaves the committed rows alone, and a
      commit makes them what that batch, run in one step on the old rows, makes of them:
      every statement of it that took matches at that very moment. */
  lemma CommittedRowsMoveByWholeBatches<K(!new), R(!new)>(s: Server<K, R>, events: seq<Event>, e: Event)
    requires Fresh(s)
    ensures
      var before := RunAll(s, events);
      var after := Next(before, e);
      if Commits(before, e) then
        var tx := before.txs[e.tx];
        && (forall i :: 0 <= i < |tx.program| && tx.program[i].required ==> tx.took[i])
        && Replay(tx.program, tx.took, before.rows) == Some(after.rows)
      else after.rows == before.rows
  {
    FreshRunsSound(s, events);
    var before := RunAll(s, events);
    if Commits(before, e) {
      assert Replayable(before.rows, before.txs[e.tx]);
    }
  }

  // ---- The batches of the booking protocol ----

  datatype Key = VisitKey(visit: Id) | TableKey(table: Id)

  datatype Row = VisitRow(row: Visit) | TableRow(table: Table)

  function VisitAt(rows: map<Key, Row>, v: Id): Option<Visit> {
    if VisitKey(v) in rows && rows[VisitKey(v)].VisitRow? then Some(rows[VisitKey(v)].row) else None
  }

  function TableAt(rows: map<Key, Row>, t: Id): Option<Table> {
    if TableKey(t) in rows && rows[TableKey(t)].TableRow? then Some(rows[TableKey(t)].table) else None
  }

  /** `rows` are the visit and table rows of a database, under one key space. */
  ghost predicate Represents(rows: map<Key, Row>, db: Db) {
    && (forall v :: VisitAt(rows, v) == if v in db.visits then Some(db.visits[v]) else None)
    && (forall t :: TableAt(rows, t) == if t in db.tables then Some(db.tables[t]) else None)
    && (forall k :: k in rows ==> (k.VisitKey? <==> rows[k].VisitRow?))
  }

  function OnVisit(v: Id, where: Visit -> bool, write: Visit -> Visit, required: bool): Statement<Key, Row> {
    Statement(VisitKey(v), (x: Row) => x.VisitRow? && where(x.row),
              (x: Row) => if x.VisitRow? then VisitRow(write(x.row)) else x, required)
  }

  function OnTable(r: Id, t: Id, from: TableStatus, to: TableStatus, required: bool): Statement<Key, Row> {
    Statement(TableKey(t), (x: Row) => x.TableRow? && x.table.restaurant == r && x.table.status == from,
              (x: Row) => if x.TableRow? then TableRow(x.table.(status := to)) else x, required)
  }

  /** visits.service.ts: claim the visit, claim the table, stamp the assignment. */
  function ConfirmBatch(r: Id, v: Id, c: Id, t: Id, now: Instant): seq<Statement<Key, Row>> {
    [OnVisit(v, (x: Visit) => x.restaurant == r && x.status == Draft,
             (x: Visit) => x.(status := Confirmed, arrivalConfirmedAt := Some(now), customer := Some(c),
                              updatedAt := now), true),
     OnTable(r, t, Free, Held, true),
     OnVisit(v, (x: Visit) => x.restaurant == r,
             (x: Visit) => x.(tableAssignedAt := Some(now), updatedAt := now), true)]
  }

  /** table-reassignment.service.ts: claim the new table, move the visit, release the old one. */
  function ReassignBatch(r: Id, v: Id, newTable: Id, previous: Id, now: Instant): seq<Statement<Key, Row>> {
    [OnTable(r, newTable, Free, Held, true),
     OnVisit(v, (x: Visit) => x.restaurant == r && x.table == Some(previous) && Active(x.status),
             (x: Visit) => x.(table := Some(newTable), tableAssignedAt := Some(now), updatedAt := now), true),
     OnTable(r, previous, Held, Free, false)]
  }

  lemma {:induction false} NoneStaysNone<K(!new), R(!new)>(
      program: seq<Statement<K, R>>, took: seq<bool>, rows: map<K, R>, k: nat)
    requires k <= |took| <= |program| && Replay(program, took[..k], rows) == None
    ensures Replay(program, took, rows) == None
    decreases |took|
  {
    if k < |took| {
      assert took[..|took| - 1][..k] == took[..k];
      NoneStaysNone(program, took[..|took| - 1], rows, k);
    } else {
      assert took[..k] == took;
    }
  }

  /** A first statement that matches nothing fails the batch. */
  lemma FirstMissLoses<K(!new), R(!new)>(program: seq<Statement<K, R>>, took: seq<bool>, rows: map<K, R>)
    requires |took| == |program| > 0 && took[0]
    requires program[0].key in rows ==> !program[0].matches(rows[program[0].key])
    ensures Replay(program, took, rows) == None
  {
    var none: seq<bool> := [];
    assert took[..1] == none + [true];
    ReplayOne(program, none, rows, rows, true);
    NoneStaysNone(program, took, rows, 1);
  }

  function Stamped(x: Visit, now: Instant): Visit {
    x.(tableAssignedAt := Some(now), updatedAt := now)
  }

  function ConfirmedRow(x: Visit, c: Id, now: Instant): Visit {
    x.(status := Confirmed, arrivalConfirmedAt := Some(now), customer := Some(c), updatedAt := now)
  }

  lemma ConfirmBatchWins(rows: map<Key, Row>, r: Id, v: Id, c: Id, t: Id, now: Instant, visit: Visit, table: Table)
    requires VisitAt(rows, v) == Some(visit) && visit.restaurant == r && visit.status == Draft
    requires TableAt(rows, t) == Some(table) && table.restaurant == r && table.status == Free
    ensures
      Replay(ConfirmBatch(r, v, c, t, now), [true, true, true], rows)
      == Some(rows[VisitKey(v) := VisitRow(ConfirmedRow(visit, c, now))]
                  [TableKey(t) := TableRow(table.(status := Held))]
                  [VisitKey(v) := VisitRow(Stamped(ConfirmedRow(visit, c, now), now))])
  {
    var program := ConfirmBatch(r, v, c, t, now);
    var none: seq<bool> := [];
    assert none + [true] == [true] && [true] + [true] == [true, true] && [true, true] + [true] == [true, true, true];
    ReplayOne(program, none, rows, rows, true);
    var one := rows[VisitKey(v) := VisitRow(ConfirmedRow(visit, c, now))];
    ReplayOne(program, [true], rows, one, true);
    ReplayOne(program, [true, true], rows, one[TableKey(t) := TableRow(table.(status := Held))], true);
  }

  lemma ConfirmBatchLoses(rows: map<Key, Row>, r: Id, v: Id, c: Id, t: Id, now: Instant)
    requires
      var visit, table := VisitAt(rows, v), TableAt(rows, t);
      || visit == None || visit.value.restaurant != r || visit.value.status != Draft
      || table == None || table.value.restaurant != r || table.value.status != Free
    requires VisitKey(v) in rows ==> rows[VisitKey(v)].VisitRow?
    requires TableKey(t) in rows ==> rows[TableKey(t)].TableRow?
    ensures Replay(ConfirmBatch(r, v, c, t, now), [true, true, true], rows) == None
  {
    var program := ConfirmBatch(r, v, c, t, now);
    var none: seq<bool> := [];
    assert none + [true] == [true] && [true] + [true] == [true, true];
    assert [true, true, true][..1] == [true] && [true, true, true][..2] == [true, true];
    ReplayOne(program, none, rows, rows, true);
    var visit := VisitAt(rows, v);
    if visit.Some? && visit.value.restaurant == r && visit.value.status == Draft {
      ReplayOne(program, [true], rows, rows[VisitKey(v) := VisitRow(ConfirmedRow(visit.value, c, now))], true);
      NoneStaysNone(program, [true, true, true], rows, 2);
    } else {
      NoneStaysNone(program, [true, true, true], rows, 1);
    }
  }

  /** What the two visit writes and the table write of a confirm leave behind. */
  lemma ConfirmedRowsRepresent(db: Db, rows: map<Key, Row>, v: Id, row: Visit, now: Instant, t: Id, after: Db)
    requires Represents(rows, db) && v in db.visits && t in db.tables
    requires after.visits == db.visits[v := Stamped(row, now)]
    requires after.tables == db.tables[t := db.tables[t].(status := Held)]
    ensures Represents(rows[VisitKey(v) := VisitRow(row)]
                           [TableKey(t) := TableRow(db.tables[t].(status := Held))]
                           [VisitKey(v) := VisitRow(Stamped(row, now))], after)
  {
  }

  /** The one-step confirm of the protocol is its batch run at once, win or lose. */
  lemma ConfirmCommitIsItsBatch(db: Db, rows: map<Key, Row>, r: Id, v: Id, c: Id, t: Id, now: Instant)
    requires Represents(rows, db)
    ensures
      var (after, phase) := ConfirmCommit(db, r, v, c, t, now);
      var ran := Replay(ConfirmBatch(r, v, c, t, now), [true, true, true], rows);
      && (ran.Some? <==> phase == Finished(ConfirmedVisit(false)))
      && (ran.Some? ==> Represents(ran.value, after))
  {
    assert VisitAt(rows, v) == if v in db.visits then Some(db.visits[v]) else None;
    assert TableAt(rows, t) == if t in db.tables then Some(db.tables[t]) else None;
    if FindVisit(db, r, v).Some? && db.visits[v].status == Draft && TableIs(db, r, t, Free) {
      ConfirmBatchWins(rows, r, v, c, t, now, db.visits[v], db.tables[t]);
      ConfirmedRowsRepresent(db, rows, v, ConfirmedRow(db.visits[v], c, now), now, t,
                             ConfirmCommit(db, r, v, c, t, now).0);
    } else {
      ConfirmBatchLoses(rows, r, v, c, t, now);
    }
  }

  function MovedRow(x: Visit, newTable: Id, now: Instant): Visit {
    x.(table := Some(newTable), tableAssignedAt := Some(now), updatedAt := now)
  }

  lemma ReassignBatchRuns(rows: map<Key, Row>, r: Id, v: Id, newTable: Id, previous: Id, now: Instant,
                          visit: Visit, table: Table, release: bool)
    requires newTable != previous
    requires TableAt(rows, newTable) == Some(table) && table.restaurant == r && table.status == Free
    requires VisitAt(rows, v) == Some(visit) && visit.restaurant == r && visit.table == Some(previous)
        && Active(visit.status)
    requires
      var freed := TableAt(rows, previous);
      release ==> freed.Some? && freed.value.restaurant == r && freed.value.status == Held
    ensures
      var moved := rows[TableKey(newTable) := TableRow(table.(status := Held))]
                       [VisitKey(v) := VisitRow(MovedRow(visit, newTable, now))];
      Replay(ReassignBatch(r, v, newTable, previous, now), [true, true, release], rows)
      == Some(if release then moved[TableKey(previous) := TableRow(TableAt(rows, previous).value.(status := Free))]
              else moved)
  {
    var program := ReassignBatch(r, v, newTable, previous, now);
    var none: seq<bool> := [];
    assert none + [true] == [true] && [true] + [true] == [true, true]
        && [true, true] + [release] == [true, true, release];
    ReplayOne(program, none, rows, rows, true);
    var one := rows[TableKey(newTable) := TableRow(table.(status := Held))];
    ReplayOne(program, [true], rows, one, true);
    var row := visit.(table := Some(newTable), tableAssignedAt := Some(now), updatedAt := now);
    ReplayOne(program, [true, true], rows, one[VisitKey(v) := VisitRow(row)], release);
  }

  lemma ReassignBatchLoses(rows: map<Key, Row>, r: Id, v: Id, newTable: Id, previous: Id, now: Instant, release: bool)
    requires
      var visit, table := VisitAt(rows, v), TableAt(rows, newTable);
      || table == None || table.value.restaurant != r || table.value.status != Free
      || visit == None || visit.value.restaurant != r || visit.value.table != Some(previous)
           || !Active(visit.value.status)
    requires VisitKey(v) in rows ==> rows[VisitKey(v)].VisitRow?
    requires TableKey(newTable) in rows ==> rows[TableKey(newTable)].TableRow?
    ensures Replay(ReassignBatch(r, v, newTable, previous, now), [true, true, release], rows) == None
  {
    var program := ReassignBatch(r, v, newTable, previous, now);
    var none: seq<bool> := [];
    assert none + [true] == [true] && [true] + [true] == [true, true];
    assert [true, true, release][..1] == [true] && [true, true, release][..2] == [true, true];
    ReplayOne(program, none, rows, rows, true);
    var table := TableAt(rows, newTable);
    if table.Some? && table.value.restaurant == r && table.value.status == Free {
      ReplayOne(program, [true], rows, rows[TableKey(newTable) := TableRow(table.value.(status := Held))], true);
      NoneStaysNone(program, [true, true, release], rows, 2);
    } else {
      NoneStaysNone(program, [true, true, release], rows, 1);
    }
  }

  /** What the two table writes and the visit write of a reassignment leave behind. */
  lemma MovedRowsRepresent(db: Db, rows: map<Key, Row>, v: Id, row: Visit, newTable: Id)
    requires Represents(rows, db) && v in db.visits && newTable in db.tables
    ensures Represents(rows[TableKey(newTable) := TableRow(db.tables[newTable].(status := Held))]
                           [VisitKey(v) := VisitRow(row)],
                       PutTable(PutVisit(db, v, row), newTable, Held))
  {
  }

  lemma FreedRowsRepresent(db: Db, rows: map<Key, Row>, t: Id)
    requires Represents(rows, db) && t in db.tables
    ensures Represents(rows[TableKey(t) := TableRow(db.tables[t].(status := Free))], PutTable(db, t, Free))
  {
  }

  /** What a reassignment leaves when its release statement matched, or did not match,
      the old table: the protocol's step, except that an old table which became held
      only after a release that matched nothing stays held. */
  function Reassigned(db: Db, r: Id, v: Id, newTable: Id, previous: Id, now: Instant, release: bool): Db {
    var after := ReassignCommit(db, r, v, newTable, previous, now).0;
    if !release && TableIs(db, r, previous, Held) && previous in after.tables
    then PutTable(after, previous, Held) else after
  }

  /** The one-step reassignment is its batch run at once. */
  lemma ReassignCommitIsItsBatch(db: Db, rows: map<Key, Row>, r: Id, v: Id, newTable: Id, previous: Id, now: Instant,
                                 release: bool)
    requires Represents(rows, db) && newTable != previous
    requires release ==> TableIs(db, r, previous, Held)
    ensures
      var ran := Replay(ReassignBatch(r, v, newTable, previous, now), [true, true, release], rows);
      && (ran.Some? <==> ReassignCommit(db, r, v, newTable, previous, now).1 == Finished(ReassignedTo(newTable, false)))
      && (ran.Some? ==> Represents(ran.value, Reassigned(db, r, v, newTable, previous, now, release)))
  {
    assert VisitAt(rows, v) == if v in db.visits then Some(db.visits[v]) else None;
    assert TableAt(rows, newTable) == if newTable in db.tables then Some(db.tables[newTable]) else None;
    assert TableAt(rows, previous) == if previous in db.tables then Some(db.tables[previous]) else None;
    if TableIs(db, r, newTable, Free) && FindVisit(db, r, v).Some? && db.visits[v].table == Some(previous)
        && Active(db.visits[v].status) {
      ReassignBatchRuns(rows, r, v, newTable, previous, now, db.visits[v], db.tables[newTable], release);
      var row := db.visits[v].(table := Some(newTable), tableAssignedAt := Some(now), updatedAt := now);
      MovedRowsRepresent(db, rows, v, row, newTable);
      var moved := PutTable(PutVisit(db, v, row), newTable, Held);
      ReassignedIs(db, r, v, newTable, previous, now, release, moved);
      if release {
        var movedRows := rows[TableKey(newTable) := TableRow(db.tables[newTable].(status := Held))]
                             [VisitKey(v) := VisitRow(row)];
        FreedRowsRepresent(moved, movedRows, previous);
      }
    } else {
      ReassignBatchLoses(rows, r, v, newTable, previous, now, release);
    }
  }

  lemma ReassignedIs(db: Db, r: Id, v: Id, newTable: Id, previous: Id, now: Instant, release: bool, moved: Db)
    requires TableIs(db, r, newTable, Free) && newTable != previous && (release ==> TableIs(db, r, previous, Held))
    requires FindVisit(db, r, v).Some? && db.visits[v].table == Some(previous) && Active(db.visits[v].status)
    requires moved == PutTable(PutVisit(db, v, MovedRow(db.visits[v], newTable, now)), newTable, Held)
    ensures previous in moved.tables || !release
    ensures Reassigned(db, r, v, newTable, previous, now, release)
         == if release then PutTable(moved, previous, Free) else moved
  {
    if !release && TableIs(db, r, previous, Held) {
      assert PutTable(PutTable(moved, previous, Free), previous, Held).tables == moved.tables;
    }
  }

  /** A confirm that runs statement by statement among any other transactions commits,
      if it commits, exactly the one step of the protocol. */
  lemma ConfirmTransactionIsOneStep(s: Server<Key, Row>, events: seq<Event>, e: Event, db: Db, r: Id, v: Id, c: Id,
                                    t: Id, now: Instant)
    requires Fresh(s) && Commits(RunAll(s, events), e)
    requires RunAll(s, events).txs[e.tx].program == ConfirmBatch(r, v, c, t, now)
    requires Represents(RunAll(s, events).rows, db)
    ensures
      var (after, phase) := ConfirmCommit(db, r, v, c, t, now);
      phase == Finished(ConfirmedVisit(false)) && Represents(Next(RunAll(s, events), e).rows, after)
  {
    CommittedRowsMoveByWholeBatches(s, events, e);
    var tx := RunAll(s, events).txs[e.tx];
    assert forall i :: 0 <= i < 3 ==> tx.program[i].required;
    assert tx.took == [true, true, true];
    ConfirmCommitIsItsBatch(db, RunAll(s, events).rows, r, v, c, t, now);
  }

  /** So does a reassignment, up to a release that matched nothing when it ran. */
  lemma ReassignTransactionIsOneStep(s: Server<Key, Row>, events: seq<Event>, e: Event, db: Db, r: Id, v: Id,
                                     newTable: Id, previous: Id, now: Instant)
    requires Fresh(s) && Commits(RunAll(s, events), e) && newTable != previous
    requires RunAll(s, events).txs[e.tx].program == ReassignBatch(r, v, newTable, previous, now)
    requires Represents(RunAll(s, events).rows, db)
    ensures
      var release := RunAll(s, events).txs[e.tx].took[2];
      && ReassignCommit(db, r, v, newTable, previous, now).1 == Finished(ReassignedTo(newTable, false))
      && (release ==> TableIs(db, r, previous, Held))
      && Represents(Next(RunAll(s, events), e).rows, Reassigned(db, r, v, newTable, previous, now, release))
  {
    CommittedRowsMoveByWholeBatches(s, events, e);
    var before := RunAll(s, events);
    var tx := before.txs[e.tx];
    assert forall i :: 0 <= i < 2 ==> tx.program[i].required;
    assert tx.took == [true, true, tx.took[2]];
    if tx.took[2] {
      ReleaseMatchedAHeldTable(db, before.rows, r, v, newTable, previous, now);
    }
    ReassignCommitIsItsBatch(db, before.rows, r, v, newTable, previous, now, tx.took[2]);
  }

  /** A replay leaves alone every row its statements do not name. */
  lemma {:induction false} ReplayLeavesOthers<K(!new), R(!new)>(
      program: seq<Statement<K, R>>, took: seq<bool>, rows: map<K, R>, key: K)
    requires |took| <= |program| && Replay(program, took, rows).Some?
    requires forall i :: 0 <= i < |took| ==> program[i].key != key
    ensures
      var after := Replay(program, took, rows).value;
      (key in after <==> key in rows) && (key in rows ==> after[key] == rows[key])
    decreases |took|
  {
    if took != [] {
      ReplayLeavesOthers(program, took[..|took| - 1], rows, key);
    }
  }

  lemma ReleaseMatchedAHeldTable(db: Db, rows: map<Key, Row>, r: Id, v: Id, newTable: Id, previous: Id, now: Instant)
    requires Represents(rows, db) && newTable != previous
    requires Replay(ReassignBatch(r, v, newTable, previous, now), [true, true, true], rows).Some?
    ensures TableIs(db, r, previous, Held)
  {
    assert TableAt(rows, previous) == if previous in db.tables then Some(db.tables[previous]) else None;
    var program, key := ReassignBatch(r, v, newTable, previous, now), TableKey(previous);
    assert [true, true, true][..2] == [true, true];
    assert Replay(program, [true, true], rows).Some?;
    ReplayLeavesOthers(program, [true, true], rows, key);
    assert program[2].matches(rows[key]);
  }

  // ---- The batch of an ETA change ----

  /** timing.service.ts: claim the row with its token, then write the targets, if the order
      read under the lock has any. The second UPDATE cannot miss (EtaTargetsCannotMiss), so
      it makes no difference that the source answers a miss instead of throwing. */
  function EtaBatch(r: Id, v: Id, eta: Instant, expected: Instant, targets: Option<Targets>,
                    now: Instant): seq<Statement<Key, Row>> {
    [OnVisit(v, (x: Visit) => x.restaurant == r && x.status == Confirmed && x.updatedAt == expected,
             (x: Visit) => x.(arrivalEta := Some(eta), updatedAt := now), true)]
    + if targets.None? then [] else
      [OnVisit(v, (x: Visit) => x.restaurant == r && x.status == Confirmed,
               (x: Visit) => WithTargets(x, targets.value).(updatedAt := now), true)]
  }

  function AllTrue(n: nat): (took: seq<bool>)
    ensures |took| == n && forall i :: 0 <= i < n ==> took[i]
  {
    seq(n, i => true)
  }

  lemma EtaBatchRuns(rows: map<Key, Row>, r: Id, v: Id, eta: Instant, expected: Instant, targets: Option<Targets>,
                     now: Instant, visit: Visit)
    requires VisitAt(rows, v) == Some(visit) && visit.restaurant == r && visit.status == Confirmed
        && visit.updatedAt == expected
    ensures
      var program, row := EtaBatch(r, v, eta, expected, targets, now),
          visit.(arrivalEta := Some(eta), updatedAt := now);
      Replay(program, AllTrue(|program|), rows)
      == Some(rows[VisitKey(v) := VisitRow(if targets.Some? then WithTargets(row, targets.value) else row)])
  {
    var program, row := EtaBatch(r, v, eta, expected, targets, now), visit.(arrivalEta := Some(eta), updatedAt := now);
    var none: seq<bool> := [];
    assert none + [true] == [true];
    ReplayOne(program, none, rows, rows, true);
    if targets.Some? {
      ReplayOne(program, [true], rows, rows[VisitKey(v) := VisitRow(row)], true);
      assert AllTrue(2) == [true] + [true];
      var timed := WithTargets(row, targets.value);
      assert timed.(updatedAt := now) == timed;
      assert rows[VisitKey(v) := VisitRow(row)][VisitKey(v) := VisitRow(timed)] == rows[VisitKey(v) := VisitRow(timed)];
    } else {
      assert AllTrue(1) == [true];
    }
  }

  lemma EtaBatchLoses(rows: map<Key, Row>, r: Id, v: Id, eta: Instant, expected: Instant, targets: Option<Targets>,
                      now: Instant)
    requires VisitKey(v) in rows ==> rows[VisitKey(v)].VisitRow?
    requires
      var visit := VisitAt(rows, v);
      visit == None || visit.value.restaurant != r || visit.value.status != Confirmed
          || visit.value.updatedAt != expected
    ensures
      var program := EtaBatch(r, v, eta, expected, targets, now);
      Replay(program, AllTrue(|program|), rows) == None
  {
    var program := EtaBatch(r, v, eta, expected, targets, now);
    assert program[0].key in rows ==> !program[0].matches(rows[program[0].key]);
    FirstMissLoses(program, AllTrue(|program|), rows);
  }

  /** The one-step ETA change is its batch run at once, for any targets its read returned. */
  lemma EtaCommitIsItsBatch(db: Db, rows: map<Key, Row>, r: Id, v: Id, eta: Instant, expected: Instant,
                            targets: Option<Targets>, now: Instant)
    requires Represents(rows, db)
    ensures
      var program := EtaBatch(r, v, eta, expected, targets, now);
      var ran := Replay(program, AllTrue(|program|), rows);
      && (ran.Some? <==> EtaClaims(db, r, v, expected))
      && (ran.Some? ==> Represents(ran.value, ChangeEtaCommit(db, r, v, eta, expected, targets, now).0))
  {
    assert VisitAt(rows, v) == if v in db.visits then Some(db.visits[v]) else None;
    if EtaClaims(db, r, v, expected) {
      EtaBatchRuns(rows, r, v, eta, expected, targets, now, db.visits[v]);
    } else {
      EtaBatchLoses(rows, r, v, eta, expected, targets, now);
    }
  }

  /** The claimed row is still confirmed when the targets are written to it. */
  lemma EtaTargetsCannotMiss(s: Server<Key, Row>, events: seq<Event>, id: Id, r: Id, v: Id, eta: Instant,
                             expected: Instant, targets: Targets, now: Instant)
    requires Fresh(s) && id in RunAll(s, events).txs
    requires
      var tx := RunAll(s, events).txs[id];
      tx.fate == Running && |tx.took| == 1 && tx.program == EtaBatch(r, v, eta, expected, Some(targets), now)
    ensures ExecuteOne(RunAll(s, events).rows, RunAll(s, events).txs[id]).took == [true, true]
  {
    FreshRunsSound(s, events);
    var at := RunAll(s, events);
    var tx := at.txs[id];
    assert Replayable(at.rows, tx);
    assert tx.took == [true] && tx.took[..0] == [];
    assert Replay(tx.program, tx.took, at.rows) == Some(at.rows + tx.writes);
  }

  /** An ETA change that commits statement by statement is one step of the protocol. */
  lemma EtaTransactionIsOneStep(s: Server<Key, Row>, events: seq<Event>, e: Event, db: Db, r: Id, v: Id,
                                eta: Instant, expected: Instant, targets: Option<Targets>, now: Instant)
    requires Fresh(s) && Commits(RunAll(s, events), e)
    requires RunAll(s, events).txs[e.tx].program == EtaBatch(r, v, eta, expected, targets, now)
    requires Represents(RunAll(s, events).rows, db)
    ensures EtaClaims(db, r, v, expected)
    ensures Represents(Next(RunAll(s, events), e).rows, ChangeEtaCommit(db, r, v, eta, expected, targets, now).0)
  {
    CommittedRowsMoveByWholeBatches(s, events, e);
    var tx := RunAll(s, events).txs[e.tx];
    assert forall i :: 0 <= i < |tx.program| ==> tx.program[i].required;
    assert tx.took == AllTrue(|tx.program|);
    EtaCommitIsItsBatch(db, RunAll(s, events).rows, r, v, eta, expected, targets, now);
  }
}
