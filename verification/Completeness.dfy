/** Every visit past draft is complete: each `!` in the read models is safe. The
    intake tools may still write between confirm's pre-read and its commit; what
    they write is never null. */
module Completeness {
  import opened Domain
  import opened Protocol
  import opened RowHistory

  predicate CompleteRow(row: Visit) {
    && row.partySize.Some? && row.arrivalEta.Some? && row.table.Some?
    && row.arrivalConfirmedAt.Some? && row.tableAssignedAt.Some?
  }

  /** Tables are neither created nor deleted by any request, nor change hands. */
  predicate SameTables(before: Db, after: Db) {
    && after.tables.Keys == before.tables.Keys
    && forall t :: t in before.tables ==>
         after.tables[t].restaurant == before.tables[t].restaurant && after.tables[t].name == before.tables[t].name
  }

  predicate TableExists(db: Db, r: Id, t: Id) {
    t in db.tables && db.tables[t].restaurant == r
  }

  predicate RowComplete(db: Db, v: Id)
    requires v in db.visits
  {
    var row := db.visits[v];
    && (row.status != Draft ==> CompleteRow(row))
    && (row.table.Some? ==> TableExists(db, row.restaurant, row.table.value))
  }

  /** What a pre-read has established for the write that follows it. */
  predicate TaskComplete(db: Db, task: Task) {
    && (task.request.Confirm? && task.phase.Checked? ==>
          && task.request.visit in db.visits
          && var row := db.visits[task.request.visit]; row.partySize.Some? && row.arrivalEta.Some? && row.table.Some?)
    && (task.request.ProposeTable? && task.phase.Checked? ==> TableExists(db, task.restaurant, task.phase.table))
  }

  predicate Complete(s: System) {
    && (forall v :: v in s.db.visits ==> RowComplete(s.db, v))
    && (forall id :: id in s.tasks ==> TaskComplete(s.db, s.tasks[id]))
  }

  lemma TaskStepKeepsTables(db: Db, task: Task, now: Instant)
    ensures SameTables(db, TaskStep(db, task, now).0)
  {
    if task.request.Confirm? || task.request.Reassign? {
      BookingKeepsTables(db, task, now);
    } else {
      OnlyBookingWritesTables(db, task, now);
    }
  }

  lemma BookingKeepsTables(db: Db, task: Task, now: Instant)
    requires task.request.Confirm? || task.request.Reassign?
    ensures SameTables(db, TaskStep(db, task, now).0)
  {
    if task.phase.Checked? {
      var r, v, t := task.restaurant, task.request.visit, task.phase.table;
      if task.request.Confirm? {
        ConfirmKeepsTables(db, r, v, task.request.customer, t, now);
      } else {
        ReassignKeepsTables(db, r, v, task.request.newTable, t, now);
      }
    }
  }

  lemma ConfirmKeepsTables(db: Db, r: Id, v: Id, c: Id, t: Id, now: Instant)
    ensures SameTables(db, ConfirmCommit(db, r, v, c, t, now).0)
  {
  }

  lemma ReassignKeepsTables(db: Db, r: Id, v: Id, newTable: Id, previous: Id, now: Instant)
    ensures SameTables(db, ReassignCommit(db, r, v, newTable, previous, now).0)
  {
  }

  lemma OnlyBookingWritesTables(db: Db, task: Task, now: Instant)
    requires !task.request.Confirm? && !task.request.Reassign?
    ensures TaskStep(db, task, now).0.tables == db.tables
  {
    if ItemTool(task.request) {
      ItemToolsTouchItems(db, task, now);
    } else {
      RowToolsKeepTables(db, task, now);
    }
  }

  lemma RowToolsKeepTables(db: Db, task: Task, now: Instant)
    requires !task.request.Confirm? && !task.request.Reassign? && !ItemTool(task.request)
    ensures TaskStep(db, task, now).0.tables == db.tables
  {
    if task.request.Recompute? || task.request.ChangeEta? {
      TimingKeepsTables(db, task, now);
    }
  }

  lemma TimingKeepsTables(db: Db, task: Task, now: Instant)
    requires task.request.Recompute? || task.request.ChangeEta?
    ensures TaskStep(db, task, now).0.tables == db.tables
  {
  }

  lemma OwnRowStaysComplete(db: Db, task: Task, now: Instant)
    requires task.request.visit in db.visits && RowComplete(db, task.request.visit) && TaskComplete(db, task)
    ensures
      var after := TaskStep(db, task, now).0;
      task.request.visit in after.visits && RowComplete(after, task.request.visit)
  {
    var v, after := task.request.visit, TaskStep(db, task, now).0;
    OnlyOwnRow(db, task, now);
    TaskStepKeepsTables(db, task, now);
    assert RowMove(db.visits[v], after.visits[v]);
    MovesToATableThatExists(db, task, now);
    OnlyConfirmLeavesDraft(db, task, now);
  }

  /** The visit stays where it is, or moves to a table of its own restaurant. */
  lemma MovesToATableThatExists(db: Db, task: Task, now: Instant)
    requires task.request.visit in db.visits && TaskComplete(db, task)
    ensures
      var v, after := task.request.visit, TaskStep(db, task, now).0.visits;
      && v in after
      && (after[v].table == db.visits[v].table
          || (after[v].table.Some? && TableExists(db, after[v].restaurant, after[v].table.value)))
  {
    if !task.request.Reassign? && !task.request.ProposeTable? {
      OnlyTheseMoveTheTable(db, task, now);
    }
  }

  lemma OnlyConfirmLeavesDraft(db: Db, task: Task, now: Instant)
    requires task.request.visit in db.visits
    ensures
      var v, after := task.request.visit, TaskStep(db, task, now).0.visits;
      v in after && (db.visits[v].status == Draft && after[v].status != Draft ==>
                     task.request.Confirm? && task.phase.Checked?)
  {
  }

  lemma OnlyTheseMoveTheTable(db: Db, task: Task, now: Instant)
    requires task.request.visit in db.visits && !task.request.Reassign? && !task.request.ProposeTable?
    ensures
      var v, after := task.request.visit, TaskStep(db, task, now).0;
      v in after.visits && after.visits[v].table == db.visits[v].table
  {
  }

  lemma TaskStaysComplete(before: Db, after: Db, task: Task)
    requires RowsMove(before, after) && SameTables(before, after) && TaskComplete(before, task)
    ensures TaskComplete(after, task)
  {
    if task.request.visit in before.visits {
      assert RowMove(before.visits[task.request.visit], after.visits[task.request.visit]);
    }
  }

  lemma OwnTaskStaysComplete(db: Db, task: Task, now: Instant)
    requires TaskComplete(db, task)
    ensures var (after, phase) := TaskStep(db, task, now); TaskComplete(after, task.(phase := phase))
  {
    if task.request.Confirm? && task.phase.Ready? {
      var checked := ConfirmRead(db, task.restaurant, task.request.visit, task.request.customer);
      assert TaskComplete(db, task.(phase := checked));
    }
  }

  lemma StepKeepsComplete(s: System, a: Action)
    requires Complete(s)
    ensures Complete(Step(s, a))
  {
    var s' := Step(s, a);
    StepMovesRows(s, a);
    if a.Advance? && a.task in s.tasks {
      var task := s.tasks[a.task];
      TaskStepKeepsTables(s.db, task, a.now);
      OnlyOwnRow(s.db, task, a.now);
      OwnTaskStaysComplete(s.db, task, a.now);
    }
    forall v | v in s'.db.visits ensures RowComplete(s'.db, v) {
      if a.Advance? && a.task in s.tasks && s.tasks[a.task].request.visit == v {
        OwnRowStaysComplete(s.db, s.tasks[a.task], a.now);
      }
    }
    forall id | id in s'.tasks ensures TaskComplete(s'.db, s'.tasks[id]) {
      if id in s.tasks {
        TaskStaysComplete(s.db, s'.db, s.tasks[id]);
      }
    }
  }

  /** In every state any run reaches, every visit past draft is complete and sits at
      a table that exists in its own restaurant. */
  lemma {:induction false} BookedVisitsAreComplete(s: System, acts: seq<Action>)
    requires Complete(s)
    ensures Complete(Run(s, acts))
    decreases |acts|
  {
    if acts != [] {
      StepKeepsComplete(s, acts[0]);
      BookedVisitsAreComplete(Step(s, acts[0]), acts[1..]);
    }
  }
}
