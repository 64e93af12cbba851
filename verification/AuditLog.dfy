/** The audit trail and the status column tell the same story in every committed state. */
module AuditLog {
  import opened Domain
  import opened Protocol
  import opened RowHistory

  /** The events of one visit, oldest first. */
  function LogOf(events: seq<StatusEvent>, v: Id): seq<StatusEvent> {
    if events == [] then []
    else
      var init, last := events[..|events| - 1], events[|events| - 1];
      if last.visit == v then LogOf(init, v) + [last] else LogOf(init, v)
  }

  /** The status a log leads to. */
  function Replay(log: seq<StatusEvent>): VisitStatus {
    if log == [] then Draft else log[|log| - 1].status
  }

  const LIFECYCLE := [Confirmed, KitchenStarted, FoodOut]

  /** A prefix of confirmed, kitchen_started, food_out: in order, without repeats. */
  predicate InOrder(log: seq<StatusEvent>) {
    |log| <= |LIFECYCLE| && forall i :: 0 <= i < |log| ==> log[i].status == LIFECYCLE[i]
  }

  /** This log tells this row's story. */
  predicate Tells(log: seq<StatusEvent>, row: Visit) {
    && InOrder(log)
    && row.status == Replay(log)
    && (log != [] ==> row.customer == Some(log[0].actor))
    && (forall i :: 0 <= i < |log| ==> log[i].restaurant == row.restaurant)
  }

  predicate VisitAudited(db: Db, v: Id)
    requires v in db.visits
  {
    Tells(LogOf(db.events, v), db.visits[v])
  }

  predicate Audited(db: Db) {
    && (forall v :: v in db.visits ==> VisitAudited(db, v))
    && (forall i :: 0 <= i < |db.events| ==> db.events[i].visit in db.visits)
  }

  lemma LogOfAppend(events: seq<StatusEvent>, e: StatusEvent, v: Id)
    ensures LogOf(events + [e], v) == if e.visit == v then LogOf(events, v) + [e] else LogOf(events, v)
  {
    assert (events + [e])[..|events|] == events;
  }

  lemma {:induction false} NoLogOfUnknown(events: seq<StatusEvent>, v: Id)
    requires forall i :: 0 <= i < |events| ==> events[i].visit != v
    ensures LogOf(events, v) == []
    decreases |events|
  {
    if events != [] {
      NoLogOfUnknown(events[..|events| - 1], v);
    }
  }

  /** A task step appends the event of the status it wrote, or neither. */
  predicate OneEventPerEdge(before: Db, after: Db, task: Task) {
    var v := task.request.visit;
    if v in before.visits && v in after.visits && after.visits[v].status != before.visits[v].status then
      && after.events == before.events
           + [StatusEvent(before.visits[v].restaurant, v, after.visits[v].status, EventActor(task.request))]
      && (after.visits[v].status == Confirmed ==> after.visits[v].customer == Some(EventActor(task.request)))
    else
      after.events == before.events
  }

  function EventActor(request: Request): Id {
    match request
    case Confirm(_, customer) => customer
    case Accept(_, staff) => staff
    case Serve(_, staff) => staff
    case _ => 0
  }

  lemma TaskStepLogsItsEdge(db: Db, task: Task, now: Instant)
    ensures OneEventPerEdge(db, TaskStep(db, task, now).0, task)
  {
    match task.request
    case Confirm(_, _) => ConfirmLogsItsEdge(db, task, now);
    case Accept(_, _) =>
    case Serve(_, _) =>
    case _ => NoEventOtherwise(db, task, now);
  }

  lemma ConfirmLogsItsEdge(db: Db, task: Task, now: Instant)
    requires task.request.Confirm?
    ensures OneEventPerEdge(db, TaskStep(db, task, now).0, task)
  {
  }

  lemma NoEventOtherwise(db: Db, task: Task, now: Instant)
    requires !task.request.Confirm? && !task.request.Accept? && !task.request.Serve?
    ensures
      var v, after := task.request.visit, TaskStep(db, task, now).0;
      && after.events == db.events
      && (v in db.visits && v in after.visits ==> after.visits[v].status == db.visits[v].status)
  {
  }

  /** A move of one row, with its event or without, leaves every other visit's log alone. */
  lemma OtherVisitStaysAudited(db: Db, after: Db, task: Task, w: Id)
    requires w in db.visits && VisitAudited(db, w) && w != task.request.visit
    requires MovesOnly(db, after, task.request.visit) && OneEventPerEdge(db, after, task)
    ensures w in after.visits && VisitAudited(after, w)
  {
    if after.events != db.events {
      LogOfAppend(db.events, after.events[|db.events|], w);
    }
  }

  /** A move along an edge, with its event. */
  lemma EdgeExtendsLog(log: seq<StatusEvent>, was: Visit, row: Visit, e: StatusEvent)
    requires Tells(log, was) && RowMove(was, row) && row.status != was.status
    requires e.status == row.status && e.restaurant == was.restaurant
    requires row.status == Confirmed ==> row.customer == Some(e.actor)
    ensures Tells(log + [e], row)
  {
    assert |log| < |LIFECYCLE| && e.status == LIFECYCLE[|log|];
  }

  /** A row move and its event, or a row move without an edge. */
  lemma LoggedMoveStaysAudited(db: Db, after: Db, task: Task)
    requires task.request.visit in db.visits && VisitAudited(db, task.request.visit)
    requires MovesOnly(db, after, task.request.visit) && OneEventPerEdge(db, after, task)
    ensures task.request.visit in after.visits && VisitAudited(after, task.request.visit)
  {
    var v := task.request.visit;
    if after.visits[v].status != db.visits[v].status {
      var e := after.events[|db.events|];
      LogOfAppend(db.events, e, v);
      EdgeExtendsLog(LogOf(db.events, v), db.visits[v], after.visits[v], e);
    }
  }

  lemma TaskStepKeepsAudited(db: Db, task: Task, now: Instant)
    requires Audited(db)
    ensures Audited(TaskStep(db, task, now).0)
  {
    var v, after := task.request.visit, TaskStep(db, task, now).0;
    OnlyOwnRow(db, task, now);
    TaskStepLogsItsEdge(db, task, now);
    forall w | w in after.visits ensures VisitAudited(after, w) {
      if w == v {
        LoggedMoveStaysAudited(db, after, task);
      } else {
        OtherVisitStaysAudited(db, after, task, w);
      }
    }
  }

  lemma StepKeepsAudited(s: System, a: Action)
    requires Audited(s.db)
    ensures Audited(Step(s, a).db)
  {
    match a
    case Advance(id, now) =>
      if id in s.tasks { TaskStepKeepsAudited(s.db, s.tasks[id], now); }
    case OpenDraft(v, _, _, _, _) =>
      if v !in s.db.visits {
        NoLogOfUnknown(s.db.events, v);
        forall w | w in s.db.visits ensures VisitAudited(Step(s, a).db, w) {
          assert VisitAudited(s.db, w);
        }
      }
    case _ =>
      forall w | w in s.db.visits ensures VisitAudited(Step(s, a).db, w) {
        assert VisitAudited(s.db, w);
      }
  }

  /** In every state any run reaches, each visit's status is the replay of its own
      log, the log is a prefix of the lifecycle, and the customer who confirmed is
      the customer on the row. */
  lemma {:induction false} StatusIsTheReplay(s: System, acts: seq<Action>)
    requires Audited(s.db)
    ensures Audited(Run(s, acts).db)
    decreases |acts|
  {
    if acts != [] {
      StepKeepsAudited(s, acts[0]);
      StatusIsTheReplay(Step(s, acts[0]), acts[1..]);
    }
  }
}
