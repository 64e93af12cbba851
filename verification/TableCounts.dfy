/** What needs no assumption about proposals: held tables never number fewer than
    booked visits. And what needs it: two requests that put two bookings on one table. */
module TableCounts {
  import opened Domain
  import opened Protocol
  import opened RowHistory
  import opened Completeness
  import opened Exclusivity
  import Injections

  function HeldTables(db: Db, r: Id): set<Id> {
    set t | t in db.tables && TableIs(db, r, t, Held)
  }

  function BookedVisits(db: Db, r: Id): set<Id> {
    set v | v in db.visits && db.visits[v].restaurant == r && Booked(db.visits[v].status)
  }

  ghost predicate EnoughHeld(db: Db) {
    forall r :: |BookedVisits(db, r)| <= |HeldTables(db, r)|
  }

  lemma PutTableHeld(db: Db, t: Id, status: TableStatus, r: Id)
    requires t in db.tables && status in {Free, Held}
    ensures HeldTables(PutTable(db, t, status), r)
         == if db.tables[t].restaurant != r then HeldTables(db, r)
            else if status == Held then HeldTables(db, r) + {t} else HeldTables(db, r) - {t}
  {
  }

  /** A confirm books one visit and holds one table, of one restaurant. */
  lemma ConfirmCounts(db: Db, q: Id, v: Id, c: Id, t: Id, now: Instant, r: Id)
    ensures
      var after := ConfirmCommit(db, q, v, c, t, now).0;
      if ConfirmWins(db, q, v, t) && q == r then
        && v !in BookedVisits(db, r) && BookedVisits(after, r) == BookedVisits(db, r) + {v}
        && t !in HeldTables(db, r) && HeldTables(after, r) == HeldTables(db, r) + {t}
      else BookedVisits(after, r) == BookedVisits(db, r) && HeldTables(after, r) == HeldTables(db, r)
  {
    if ConfirmWins(db, q, v, t) {
      PutTableHeld(db, t, Held, r);
      assert HeldTables(ConfirmCommit(db, q, v, c, t, now).0, r) == HeldTables(PutTable(db, t, Held), r);
    }
  }

  lemma ConfirmKeepsCount(db: Db, q: Id, v: Id, c: Id, t: Id, now: Instant, r: Id)
    requires |BookedVisits(db, r)| <= |HeldTables(db, r)|
    ensures var after := ConfirmCommit(db, q, v, c, t, now).0; |BookedVisits(after, r)| <= |HeldTables(after, r)|
  {
    ConfirmCounts(db, q, v, c, t, now, r);
  }

  /** A reassignment takes one table and gives back at most one. */
  lemma ReassignHolds(db: Db, q: Id, v: Id, newTable: Id, previous: Id, now: Instant, r: Id)
    ensures |HeldTables(ReassignCommit(db, q, v, newTable, previous, now).0, r)| >= |HeldTables(db, r)|
  {
    var (after, phase) := ReassignCommit(db, q, v, newTable, previous, now);
    if phase == Finished(ReassignedTo(newTable, false)) {
      var row := db.visits[v].(table := Some(newTable), tableAssignedAt := Some(now), updatedAt := now);
      var seated := PutVisit(db, v, row);
      assert HeldTables(seated, r) == HeldTables(db, r);
      PutTableHeld(seated, newTable, Held, r);
      var moved := PutTable(seated, newTable, Held);
      if TableIs(moved, q, previous, Held) {
        PutTableHeld(moved, previous, Free, r);
      }
      assert newTable !in HeldTables(db, r);
    }
  }

  lemma SameSeatsSameCount(before: Db, after: Db, r: Id)
    requires before.tables == after.tables && BookedVisits(before, r) == BookedVisits(after, r)
    ensures |BookedVisits(before, r)| <= |HeldTables(before, r)| ==> |BookedVisits(after, r)| <= |HeldTables(after, r)|
  {
    assert HeldTables(before, r) == HeldTables(after, r);
  }

  lemma TaskStepKeepsCount(db: Db, task: Task, now: Instant, r: Id)
    requires |BookedVisits(db, r)| <= |HeldTables(db, r)|
    ensures var after := TaskStep(db, task, now).0; |BookedVisits(after, r)| <= |HeldTables(after, r)|
  {
    match task.request
    case Confirm(v, c) =>
      if task.phase.Checked? { ConfirmKeepsCount(db, task.restaurant, v, c, task.phase.table, now, r); }
    case Reassign(v, t) =>
      OthersBookNobody(db, task, now, r);
      if task.phase.Checked? {
        ReassignHolds(db, task.restaurant, v, t, task.phase.table, now, r);
      }
    case _ =>
      OthersBookNobody(db, task, now, r);
      OnlyBookingWritesTables(db, task, now);
      SameSeatsSameCount(db, TaskStep(db, task, now).0, r);
  }

  lemma OthersBookNobody(db: Db, task: Task, now: Instant, r: Id)
    requires !task.request.Confirm?
    ensures BookedVisits(TaskStep(db, task, now).0, r) == BookedVisits(db, r)
  {
    var v, after := task.request.visit, TaskStep(db, task, now).0;
    OnlyOwnRow(db, task, now);
    if v in db.visits {
      OnlyConfirmBooks(db, task, now);
      assert RowMove(db.visits[v], after.visits[v]);
    }
  }

  lemma StepKeepsCount(s: System, a: Action)
    requires EnoughHeld(s.db)
    ensures EnoughHeld(Step(s, a).db)
  {
    forall r ensures |BookedVisits(Step(s, a).db, r)| <= |HeldTables(Step(s, a).db, r)| {
      assert |BookedVisits(s.db, r)| <= |HeldTables(s.db, r)|;
      if a.Advance? && a.task in s.tasks {
        TaskStepKeepsCount(s.db, s.tasks[a.task], a.now, r);
      } else {
        SameSeatsSameCount(s.db, Step(s, a).db, r);
      }
    }
  }

  /** Over every run, with no assumption: a restaurant never has more booked visits
      than held tables. */
  lemma {:induction false} HeldTablesNeverFewer(s: System, acts: seq<Action>)
    requires EnoughHeld(s.db)
    ensures EnoughHeld(Run(s, acts).db)
    decreases |acts|
  {
    if acts != [] {
      StepKeepsCount(s, acts[0]);
      HeldTablesNeverFewer(Step(s, acts[0]), acts[1..]);
    }
  }

  // ---- The one-to-one match, counted ----

  lemma ExclusiveMeansEqualCounts(db: Db, r: Id)
    requires Exclusive(db)
    ensures |BookedVisits(db, r)| == |HeldTables(db, r)|
  {
    var xs := BookedVisits(db, r);
    var f := map v | v in xs :: db.visits[v].table.value;
    forall v | v in xs ensures SitsAt(db, v, f[v]) {}
    forall t | t in HeldTables(db, r) ensures exists v :: v in xs && f[v] == t {
      assert IsHeld(db, t) && Taken(db, t);
      var v :| SitsAt(db, v, t);
      assert v in xs;
    }
    assert HeldTables(db, r) == set v | v in xs :: f[v];
    Injections.ImageSize(xs, f, HeldTables(db, r));
  }

  /** The exclusivity theorem, counted per restaurant. */
  lemma BookedAndHeldBalance(s: System, acts: seq<Action>, r: Id)
    requires Exclusive(s.db) && SnapshotsFresh(s) && Complete(s) && ProposalsStandBackAlong(s, acts)
    ensures |BookedVisits(Run(s, acts).db, r)| == |HeldTables(Run(s, acts).db, r)|
  {
    TablesAreExclusive(s, acts);
    ExclusiveMeansEqualCounts(Run(s, acts).db, r);
  }

  // ---- Without the assumption ----

  function DraftAt(t: Id): Visit {
    Visit(1, Draft, None, Some(2), Some(1000), None, Some(t), None, None, None, None, 0)
  }

  /** Two drafts of restaurant 1, proposed for tables 10 and 11, both free. */
  function TwoDrafts(): System {
    System(
      Db(map[1 := DraftAt(10), 2 := DraftAt(11)],
         map[10 := Table(1, "A", Free), 11 := Table(1, "B", Free)],
         map[], map[], map[], [], map[1 := Settings(Some(5.0), Some(8.0))]),
      map[])
  }

  lemma TwoDraftsStartMatched()
    ensures Exclusive(TwoDrafts().db) && SnapshotsFresh(TwoDrafts()) && Complete(TwoDrafts())
  {
  }

  /** Confirm of visit 1 reads table 10; a proposal moves the draft to table 11; the
      confirm commits and holds table 10. */
  function SlippedProposal(): seq<Action> {
    [Arrive(1, 1, Confirm(1, 7)), Advance(1, 1), Arrive(2, 1, ProposeTable(1, 11)), Advance(2, 2), Advance(2, 3),
     Advance(1, 4)]
  }

  function SecondBooking(): seq<Action> {
    [Arrive(3, 1, Confirm(2, 8)), Advance(3, 5), Advance(3, 6)]
  }

  lemma AfterSlippedProposal()
    ensures
      var s := Run(TwoDrafts(), SlippedProposal());
      && s.tasks.Keys == {1, 2}
      && s.db.visits == map[1 := DraftAt(11).(status := Confirmed, customer := Some(7), arrivalConfirmedAt := Some(4),
                                               tableAssignedAt := Some(4), updatedAt := 4),
                            2 := DraftAt(11)]
      && s.db.tables == map[10 := Table(1, "A", Held), 11 := Table(1, "B", Free)]
      && s.db.items == map[]
  {
    var acts := SlippedProposal();
    var s0 := TwoDrafts();
    var s1 := Step(s0, acts[0]);
    var s2 := Step(s1, acts[1]);
    assert s2.tasks[1].phase == Checked(10);
    var s3 := Step(s2, acts[2]);
    var s4 := Step(s3, acts[3]);
    assert s4.tasks[2].phase == Checked(11);
    var s5 := Step(s4, acts[4]);
    assert s5.db.visits[1] == DraftAt(11).(updatedAt := 3);
    var s6 := Step(s5, acts[5]);
    assert Run(s0, acts) == s6 by {
      assert Run(s5, acts[5..]) == s6;
      assert Run(s4, acts[4..]) == s6;
      assert Run(s3, acts[3..]) == s6;
      assert Run(s2, acts[2..]) == s6;
      assert Run(s1, acts[1..]) == s6;
    }
  }

  /** A draft at table 11 that reads and commits undisturbed is booked there. */
  lemma SecondBookingLands(s: System)
    requires 3 !in s.tasks && 2 in s.db.visits && s.db.visits[2] == DraftAt(11) && s.db.items == map[]
    requires TableIs(s.db, 1, 11, Free)
    ensures
      var after := Run(s, SecondBooking()).db;
      && after.visits == s.db.visits[2 := DraftAt(11).(status := Confirmed, customer := Some(8),
                                                       arrivalConfirmedAt := Some(6), tableAssignedAt := Some(6),
                                                       updatedAt := 6)]
      && after.tables == s.db.tables[11 := s.db.tables[11].(status := Held)]
  {
    var acts := SecondBooking();
    var s1 := Step(s, acts[0]);
    var s2 := Step(s1, acts[1]);
    assert s2.tasks[3].phase == Checked(11);
    var s3 := Step(s2, acts[2]);
    assert Run(s, acts) == s3 by {
      assert Run(s2, acts[2..]) == s3;
      assert Run(s1, acts[1..]) == s3;
    }
  }

  lemma BothBookingsStand()
    ensures
      var s := Run(Run(TwoDrafts(), SlippedProposal()), SecondBooking());
      && s.db.visits.Keys == {1, 2} && Booked(s.db.visits[1].status) && Booked(s.db.visits[2].status)
      && s.db.visits[1].table == Some(11) && s.db.visits[2].table == Some(11)
      && IsHeld(s.db, 10)
  {
    AfterSlippedProposal();
    SecondBookingLands(Run(TwoDrafts(), SlippedProposal()));
  }

  /** Without the assumption two bookings end up on one table: visits 1
      and 2 are both booked at table 11 while table 10 is held for nobody. */
  lemma WithoutTheRelyTwoBookingsShareATable()
    ensures Exclusive(TwoDrafts().db) && SnapshotsFresh(TwoDrafts()) && Complete(TwoDrafts())
    ensures
      var s := Run(TwoDrafts(), SlippedProposal() + SecondBooking());
      SitsAt(s.db, 1, 11) && SitsAt(s.db, 2, 11) && IsHeld(s.db, 10) && !Taken(s.db, 10)
  {
    TwoDraftsStartMatched();
    RunConcat(TwoDrafts(), SlippedProposal(), SecondBooking());
    BothBookingsStand();
  }
}
