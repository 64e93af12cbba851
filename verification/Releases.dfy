/** The release at the end of a reassignment is the one statement that may match nothing
    and still commit. What that can and cannot do to the tables. */
module Releases {
  import opened Domain
  import opened Protocol
  import opened Exclusivity
  import opened TableCounts
  import opened RowLocks

  /** Whatever the release met, a restaurant keeps at least as many held tables as booked
      visits: HeldTablesNeverFewer covers these commits too. */
  lemma UnmatchedReleaseKeepsCount(db: Db, r: Id, v: Id, newTable: Id, previous: Id, now: Instant, release: bool)
    requires EnoughHeld(db)
    ensures EnoughHeld(Reassigned(db, r, v, newTable, previous, now, release))
  {
    var after := ReassignCommit(db, r, v, newTable, previous, now).0;
    var kept := Reassigned(db, r, v, newTable, previous, now, release);
    forall q ensures |BookedVisits(kept, q)| <= |HeldTables(kept, q)| {
      assert |BookedVisits(db, q)| <= |HeldTables(db, q)|;
      ReassignCountsAt(db, r, v, newTable, previous, now, q);
      if kept != after {
        PutTableHeld(after, previous, Held, q);
        assert BookedVisits(kept, q) == BookedVisits(after, q);
        MoreElements(HeldTables(after, q), HeldTables(kept, q));
      }
    }
  }

  lemma ReassignCountsAt(db: Db, r: Id, v: Id, newTable: Id, previous: Id, now: Instant, q: Id)
    requires |BookedVisits(db, q)| <= |HeldTables(db, q)|
    ensures
      var after := ReassignCommit(db, r, v, newTable, previous, now).0;
      |BookedVisits(after, q)| <= |HeldTables(after, q)|
  {
    var task := Task(r, Reassign(v, newTable), Checked(previous));
    TaskStepKeepsCount(db, task, now, q);
  }

  lemma MoreElements<T>(xs: set<T>, ys: set<T>)
    requires xs <= ys
    ensures |xs| <= |ys|
  {
    assert ys == xs + (ys - xs);
  }

  /** Where booked visits and held tables match, the release cannot miss: the visit row is
      locked at its old table, and that table is held. */
  lemma ReleaseAlwaysMatches(s: Server<Key, Row>, events: seq<Event>, id: Id, db: Db, r: Id, v: Id, newTable: Id,
                             previous: Id, now: Instant)
    requires Fresh(s) && id in RunAll(s, events).txs && newTable != previous
    requires
      var tx := RunAll(s, events).txs[id];
      tx.fate == Running && |tx.took| == 2 && tx.program == ReassignBatch(r, v, newTable, previous, now)
    requires Represents(RunAll(s, events).rows, db) && Exclusive(db)
    ensures ExecuteOne(RunAll(s, events).rows, RunAll(s, events).txs[id]).took == [true, true, true]
  {
    FreshRunsSound(s, events);
    var at := RunAll(s, events);
    var tx := at.txs[id];
    assert Replayable(at.rows, tx);
    assert tx.program[0].required && tx.program[1].required;
    assert tx.took == [true, true];
    LockedVisitSitsAtPrevious(at.rows, r, v, newTable, previous, now);
    assert VisitAt(at.rows, v) == if v in db.visits then Some(db.visits[v]) else None;
    assert TableAt(at.rows, previous) == if previous in db.tables then Some(db.tables[previous]) else None;
    assert IsHeld(db, previous) && db.tables[previous].restaurant == r;
    ReplayLeavesOthers(tx.program, tx.took, at.rows, TableKey(previous));
  }

  lemma LockedVisitSitsAtPrevious(rows: map<Key, Row>, r: Id, v: Id, newTable: Id, previous: Id, now: Instant)
    requires Replay(ReassignBatch(r, v, newTable, previous, now), [true, true], rows).Some?
    ensures
      var visit := VisitAt(rows, v);
      visit.Some? && visit.value.restaurant == r && visit.value.table == Some(previous) && Active(visit.value.status)
  {
    var program := ReassignBatch(r, v, newTable, previous, now);
    assert [true, true][..1] == [true];
    assert Replay(program, [true], rows).Some?;
    ReplayLeavesOthers(program, [true], rows, VisitKey(v));
    var sofar := Replay(program, [true], rows).value;
    assert program[1].matches(sofar[VisitKey(v)]);
  }
}
