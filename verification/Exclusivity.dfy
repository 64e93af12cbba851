/** Table exclusivity over every interleaving of confirms and reassignments that
    hold stale snapshots.

    `confirm` holds the table its pre-read saw, and `propose_table` does not look
    at the visit's status, so the one-to-one match of booked visits and held tables
    needs an assumption about proposals (`ProposalsStandBack`). Without it the
    counterexample below books two visits onto one table; what survives is that
    held tables never number fewer than booked visits. */
module Exclusivity {
  import opened Domain
  import opened Protocol
  import opened RowHistory
  import opened Completeness

  /** Visit `v` is booked at table `t`. */
  predicate SitsAt(db: Db, v: Id, t: Id) {
    v in db.visits && Booked(db.visits[v].status) && db.visits[v].table == Some(t)
  }

  ghost predicate Taken(db: Db, t: Id) {
    exists v :: SitsAt(db, v, t)
  }

  predicate IsHeld(db: Db, t: Id) {
    t in db.tables && db.tables[t].status == Held
  }

  /** Booked visits and held tables match one to one, within each restaurant. */
  ghost predicate Exclusive(db: Db) {
    && (forall v :: v in db.visits && Booked(db.visits[v].status) ==>
          db.visits[v].table.Some? && IsHeld(db, db.visits[v].table.value)
          && db.tables[db.visits[v].table.value].restaurant == db.visits[v].restaurant)
    && (forall v, w, t :: SitsAt(db, v, t) && SitsAt(db, w, t) ==> v == w)
    && (forall t :: IsHeld(db, t) ==> Taken(db, t))
  }

  /** A confirm past its checks still holds the table its draft proposes. */
  predicate SnapshotFresh(db: Db, task: Task) {
    task.request.Confirm? && task.phase.Checked? ==>
      && task.request.visit in db.visits
      && (db.visits[task.request.visit].status == Draft ==>
          db.visits[task.request.visit].table == Some(task.phase.table))
  }

  predicate SnapshotsFresh(s: System) {
    forall id :: id in s.tasks ==> SnapshotFresh(s.db, s.tasks[id])
  }

  /** A confirm of `v` holds a snapshot. */
  predicate ConfirmInFlight(s: System, v: Id) {
    exists id :: id in s.tasks && s.tasks[id].request.Confirm? && s.tasks[id].request.visit == v
        && s.tasks[id].phase.Checked?
  }

  /** This step writes the table of `v` on behalf of propose_table. */
  predicate ProposalWrite(s: System, a: Action, v: Id) {
    && a.Advance? && a.task in s.tasks
    && s.tasks[a.task].request.ProposeTable? && s.tasks[a.task].phase.Checked? && s.tasks[a.task].request.visit == v
    && FindVisit(s.db, s.tasks[a.task].restaurant, v).Some?
  }

  /** The intake rely: a table is proposed only while the visit is a draft and no
      confirm holds a snapshot of it. */
  predicate ProposalsStandBack(s: System, a: Action) {
    a.Advance? && a.task in s.tasks && ProposalWrite(s, a, s.tasks[a.task].request.visit) ==>
      var v := s.tasks[a.task].request.visit;
      s.db.visits[v].status == Draft && !ConfirmInFlight(s, v)
  }

  predicate ProposalsStandBackAlong(s: System, acts: seq<Action>)
    decreases |acts|
  {
    acts == [] || (ProposalsStandBack(s, acts[0]) && ProposalsStandBackAlong(Step(s, acts[0]), acts[1..]))
  }

  // ---- The two batches, one at a time ----

  predicate ConfirmWins(db: Db, r: Id, v: Id, t: Id) {
    FindVisit(db, r, v).Some? && db.visits[v].status == Draft && TableIs(db, r, t, Free)
  }

  /** Confirming with the table `t` of the snapshot keeps the match exactly when the
      row still names `t`: a proposal that slipped in between breaks it. */
  lemma ConfirmKeepsExclusiveIff(db: Db, r: Id, v: Id, c: Id, t: Id, now: Instant)
    requires Exclusive(db) && ConfirmWins(db, r, v, t)
    ensures Exclusive(ConfirmCommit(db, r, v, c, t, now).0) <==> db.visits[v].table == Some(t)
  {
    var after := ConfirmCommit(db, r, v, c, t, now).0;
    assert forall w :: w != v ==>
        (w in db.visits <==> w in after.visits) && (w in db.visits ==> after.visits[w] == db.visits[w]);
    if db.visits[v].table == Some(t) {
      ConfirmSeats(db, r, v, c, t, now);
    } else {
      assert IsHeld(after, t);
      forall w ensures !SitsAt(after, w, t) {
        if w != v {
          assert SitsAt(after, w, t) <==> SitsAt(db, w, t);
        }
      }
    }
  }

  lemma ConfirmSeats(db: Db, r: Id, v: Id, c: Id, t: Id, now: Instant)
    requires Exclusive(db) && ConfirmWins(db, r, v, t) && db.visits[v].table == Some(t)
    ensures Exclusive(ConfirmCommit(db, r, v, c, t, now).0)
  {
    var after := ConfirmCommit(db, r, v, c, t, now).0;
    assert SitsAt(after, v, t);
    forall w, u | w != v ensures SitsAt(after, w, u) <==> SitsAt(db, w, u) {}
    forall u | IsHeld(after, u) ensures Taken(after, u) {
      if u != t {
        assert IsHeld(db, u);
        var w :| SitsAt(db, w, u);
        assert SitsAt(after, w, u);
      }
    }
  }

  lemma ReassignKeepsExclusive(db: Db, r: Id, v: Id, newTable: Id, previous: Id, now: Instant)
    requires Exclusive(db)
    ensures Exclusive(ReassignCommit(db, r, v, newTable, previous, now).0)
  {
    var after := ReassignCommit(db, r, v, newTable, previous, now).0;
    if after != db {
      assert SitsAt(db, v, previous) && SitsAt(after, v, newTable);
      assert IsHeld(db, previous) && newTable != previous;
      forall w | w in db.visits && w != v && Booked(db.visits[w].status)
        ensures db.visits[w].table.value != previous && db.visits[w].table.value != newTable
      {
        assert SitsAt(db, w, db.visits[w].table.value);
      }
      forall w, u | w != v ensures SitsAt(after, w, u) <==> SitsAt(db, w, u) {}
      forall u | IsHeld(after, u) ensures Taken(after, u) {
        if u != newTable {
          assert IsHeld(db, u);
          var w :| SitsAt(db, w, u);
          assert w != v;
          assert SitsAt(after, w, u);
        }
      }
    }
  }

  /** A proposal written to a visit keeps the match exactly when the visit is not
      booked, or already sits there. */
  lemma ProposalKeepsExclusiveIff(db: Db, r: Id, v: Id, t: Id, now: Instant)
    requires Exclusive(db) && FindVisit(db, r, v).Some? && t in db.tables && db.tables[t].restaurant == r
    ensures Exclusive(ProposeWrite(db, r, v, t, now)) <==>
        (!Booked(db.visits[v].status) || db.visits[v].table == Some(t))
  {
    var after := ProposeWrite(db, r, v, t, now);
    if !Booked(db.visits[v].status) || db.visits[v].table == Some(t) {
      SameSeatsSameMatch(db, after);
    } else {
      var seat := db.visits[v].table.value;
      assert SitsAt(db, v, seat) && IsHeld(after, seat);
      forall w ensures !SitsAt(after, w, seat) {
        if w != v {
          assert SitsAt(after, w, seat) <==> SitsAt(db, w, seat);
        }
      }
    }
  }

  /** The seats of two databases agree. */
  predicate SameSeats(before: Db, after: Db) {
    && before.tables == after.tables
    && (forall v :: v in before.visits ==>
          && v in after.visits
          && after.visits[v].restaurant == before.visits[v].restaurant
          && (Booked(after.visits[v].status) <==> Booked(before.visits[v].status))
          && (Booked(after.visits[v].status) ==> after.visits[v].table == before.visits[v].table))
    && (forall v :: v in after.visits && v !in before.visits ==> !Booked(after.visits[v].status))
  }

  lemma SameSeatsSameMatch(before: Db, after: Db)
    requires SameSeats(before, after) && Exclusive(before)
    ensures Exclusive(after)
  {
    forall v, t ensures SitsAt(before, v, t) <==> SitsAt(after, v, t) {}
    forall t | IsHeld(after, t) ensures Taken(after, t) {
      assert IsHeld(before, t);
      var v :| SitsAt(before, v, t);
      assert SitsAt(after, v, t);
    }
  }

  /** Apart from a confirm, a reassignment or a proposal, no request moves anyone. */
  lemma OtherRequestsKeepSeats(db: Db, task: Task, now: Instant)
    requires !task.request.Confirm? && !task.request.Reassign? && !task.request.ProposeTable?
    ensures SameSeats(db, TaskStep(db, task, now).0)
  {
    var v, after := task.request.visit, TaskStep(db, task, now).0;
    OnlyOwnRow(db, task, now);
    OnlyBookingWritesTables(db, task, now);
    if v in db.visits {
      OnlyTheseMoveTheTable(db, task, now);
      assert RowMove(db.visits[v], after.visits[v]);
      OnlyConfirmBooks(db, task, now);
    }
  }

  lemma OnlyConfirmBooks(db: Db, task: Task, now: Instant)
    requires !task.request.Confirm? && task.request.visit in db.visits
    ensures
      var v, after := task.request.visit, TaskStep(db, task, now).0;
      v in after.visits && (Booked(after.visits[v].status) <==> Booked(db.visits[v].status))
  {
  }

  lemma TaskStepKeepsExclusive(db: Db, task: Task, now: Instant)
    requires Exclusive(db) && SnapshotFresh(db, task) && TaskComplete(db, task)
    requires task.request.ProposeTable? && task.phase.Checked? && task.request.visit in db.visits ==>
               db.visits[task.request.visit].status == Draft
    ensures Exclusive(TaskStep(db, task, now).0)
  {
    match task.request
    case Confirm(v, c) =>
      if task.phase.Checked? && ConfirmWins(db, task.restaurant, v, task.phase.table) {
        ConfirmSeats(db, task.restaurant, v, c, task.phase.table, now);
      }
    case Reassign(v, t) =>
      if task.phase.Checked? {
        ReassignKeepsExclusive(db, task.restaurant, v, t, task.phase.table, now);
      }
    case ProposeTable(v, _) =>
      if task.phase.Checked? && FindVisit(db, task.restaurant, v).Some? {
        ProposalKeepsExclusiveIff(db, task.restaurant, v, task.phase.table, now);
      }
    case _ =>
      OtherRequestsKeepSeats(db, task, now);
      SameSeatsSameMatch(db, TaskStep(db, task, now).0);
  }

  // ---- Snapshots ----

  lemma OwnTaskStaysFresh(db: Db, task: Task, now: Instant)
    requires SnapshotFresh(db, task)
    ensures var (after, phase) := TaskStep(db, task, now); SnapshotFresh(after, task.(phase := phase))
  {
    if task.request.Confirm? && task.phase.Ready? {
      var checked := ConfirmRead(db, task.restaurant, task.request.visit, task.request.customer);
      assert SnapshotFresh(db, task.(phase := checked));
    }
  }

  lemma OtherTaskStaysFresh(s: System, a: Action, id: Id)
    requires SnapshotsFresh(s) && ProposalsStandBack(s, a) && id in s.tasks
    ensures SnapshotFresh(Step(s, a).db, s.tasks[id])
  {
    var mine := s.tasks[id];
    assert SnapshotFresh(s.db, mine);
    if mine.request.Confirm? && mine.phase.Checked? {
      var v := mine.request.visit;
      StepIsRowMove(s, a, v);
      assert ConfirmInFlight(s, v);
      if a.Advance? && a.task in s.tasks {
        var other := s.tasks[a.task];
        OnlyOwnRow(s.db, other, a.now);
        if other.request.visit == v && !other.request.Reassign? && !other.request.ProposeTable? {
          OnlyTheseMoveTheTable(s.db, other, a.now);
        }
      }
    }
  }

  lemma StepKeepsExclusive(s: System, a: Action)
    requires Exclusive(s.db) && SnapshotsFresh(s) && Complete(s) && ProposalsStandBack(s, a)
    ensures Exclusive(Step(s, a).db) && SnapshotsFresh(Step(s, a))
  {
    var s' := Step(s, a);
    forall id | id in s'.tasks ensures SnapshotFresh(s'.db, s'.tasks[id]) {
      if id in s.tasks {
        OtherTaskStaysFresh(s, a, id);
        if a.Advance? && a.task == id {
          OwnTaskStaysFresh(s.db, s.tasks[id], a.now);
        }
      }
    }
    if a.Advance? {
      if a.task in s.tasks {
        var task := s.tasks[a.task];
        if task.request.visit in s.db.visits && FindVisit(s.db, task.restaurant, task.request.visit) == None
            && task.request.ProposeTable? {
          SameSeatsSameMatch(s.db, s'.db);
        } else {
          TaskStepKeepsExclusive(s.db, task, a.now);
        }
      }
    } else {
      SameSeatsSameMatch(s.db, s'.db);
    }
  }

  /** A confirm that wins with a table its row no longer names. */
  predicate ConfirmsElsewhere(s: System, a: Action) {
    && a.Advance? && a.task in s.tasks && s.tasks[a.task].request.Confirm? && s.tasks[a.task].phase.Checked?
    && var Task(r, Confirm(v, _), Checked(t)) := s.tasks[a.task];
       ConfirmWins(s.db, r, v, t) && s.db.visits[v].table != Some(t)
  }

  /** A proposal that moves a booked visit. */
  predicate MovesABooking(s: System, a: Action) {
    && a.Advance? && a.task in s.tasks && s.tasks[a.task].request.ProposeTable? && s.tasks[a.task].phase.Checked?
    && var Task(r, ProposeTable(v, _), Checked(t)) := s.tasks[a.task];
       FindVisit(s.db, r, v).Some? && Booked(s.db.visits[v].status) && s.db.visits[v].table != Some(t)
  }

  lemma ConfirmStepKeepsExclusiveIff(s: System, a: Action)
    requires Exclusive(s.db) && a.Advance? && a.task in s.tasks && s.tasks[a.task].request.Confirm?
    ensures Exclusive(Step(s, a).db) <==> !ConfirmsElsewhere(s, a)
  {
    var Task(r, Confirm(v, c), phase) := s.tasks[a.task];
    if phase.Checked? && ConfirmWins(s.db, r, v, phase.table) {
      ConfirmKeepsExclusiveIff(s.db, r, v, c, phase.table, a.now);
    }
  }

  lemma ProposeStepKeepsExclusiveIff(s: System, a: Action)
    requires Exclusive(s.db) && Complete(s) && a.Advance? && a.task in s.tasks && s.tasks[a.task].request.ProposeTable?
    ensures Exclusive(Step(s, a).db) <==> !MovesABooking(s, a)
  {
    var Task(r, ProposeTable(v, _), phase) := s.tasks[a.task];
    if phase.Checked? && FindVisit(s.db, r, v).Some? {
      assert TaskComplete(s.db, s.tasks[a.task]);
      ProposalKeepsExclusiveIff(s.db, r, v, phase.table, a.now);
    } else {
      SameSeatsSameMatch(s.db, Step(s, a).db);
    }
  }

  /** Exactly two kinds of step break the match: a confirm that wins with a table its row no
      longer names, and a proposal that moves a booked visit. */
  lemma StepKeepsExclusiveIff(s: System, a: Action)
    requires Exclusive(s.db) && Complete(s)
    ensures Exclusive(Step(s, a).db) <==> !ConfirmsElsewhere(s, a) && !MovesABooking(s, a)
  {
    if a.Advance? && a.task in s.tasks {
      var task := s.tasks[a.task];
      match task.request
      case Confirm(_, _) => ConfirmStepKeepsExclusiveIff(s, a);
      case ProposeTable(_, _) => ProposeStepKeepsExclusiveIff(s, a);
      case Reassign(v, t) =>
        if task.phase.Checked? { ReassignKeepsExclusive(s.db, task.restaurant, v, t, task.phase.table, a.now); }
      case _ =>
        OtherRequestsKeepSeats(s.db, task, a.now);
        SameSeatsSameMatch(s.db, Step(s, a).db);
    } else {
      SameSeatsSameMatch(s.db, Step(s, a).db);
    }
  }

  /** Main result: over any run in which proposals stand back, booked visits and
      held tables stay matched one to one, however many confirms and reassignments
      of however many visits interleave with stale snapshots. */
  lemma {:induction false} TablesAreExclusive(s: System, acts: seq<Action>)
    requires Exclusive(s.db) && SnapshotsFresh(s) && Complete(s) && ProposalsStandBackAlong(s, acts)
    ensures Exclusive(Run(s, acts).db) && SnapshotsFresh(Run(s, acts))
    decreases |acts|
  {
    if acts != [] {
      StepKeepsExclusive(s, acts[0]);
      StepKeepsComplete(s, acts[0]);
      TablesAreExclusive(Step(s, acts[0]), acts[1..]);
    }
  }
}
