/** What any run, of any interleaving, does to one visit row. Every step is one of
    a few moves of the row; the lifecycle facts follow by induction on the run. */
module RowHistory {
  import opened Domain
  import opened Protocol

  predicate NeverErased<T>(before: Option<T>, after: Option<T>) {
    before.Some? ==> after.Some?
  }

  /** Draft -> confirmed -> kitchen_started -> food_out, one edge at a time. */
  predicate LifecycleEdge(before: VisitStatus, after: VisitStatus) {
    || before == after
    || (before == Draft && after == Confirmed)
    || (before == Confirmed && after == KitchenStarted)
    || (before == KitchenStarted && after == FoodOut)
  }

  predicate SameTargets(before: Visit, after: Visit) {
    before.kitchenStartTarget == after.kitchenStartTarget && before.foodOutTarget == after.foodOutTarget
  }

  /** Everything one committed step may do to a row. */
  predicate RowMove(before: Visit, after: Visit) {
    && after.restaurant == before.restaurant
    && LifecycleEdge(before.status, after.status)
    && (SameTargets(before, after) || before.status == after.status == Confirmed)
    && (after.customer == before.customer
        || (before.status == Draft && after.status == Confirmed && after.customer.Some?))
    && (before.status == Draft && after.status == Confirmed ==>
          after.arrivalConfirmedAt.Some? && after.tableAssignedAt.Some? && after.customer.Some?)
    && NeverErased(before.partySize, after.partySize)
    && NeverErased(before.arrivalEta, after.arrivalEta)
    && NeverErased(before.table, after.table)
    && NeverErased(before.arrivalConfirmedAt, after.arrivalConfirmedAt)
    && NeverErased(before.tableAssignedAt, after.tableAssignedAt)
    && NeverErased(before.kitchenStartTarget, after.kitchenStartTarget)
    && NeverErased(before.draftExpiresAt, after.draftExpiresAt)
  }

  lemma Unmoved(x: Visit)
    ensures RowMove(x, x)
  {
  }

  /** The rows of `after` differ from `before` in the row `v` at most, which made one move. */
  predicate MovesOnly(before: Db, after: Db, v: Id) {
    && (v !in before.visits ==> after.visits == before.visits)
    && (v in before.visits ==>
          v in after.visits && after.visits == before.visits[v := after.visits[v]]
              && RowMove(before.visits[v], after.visits[v]))
  }

  lemma Untouched(db: Db, v: Id)
    ensures MovesOnly(db, db, v)
  {
    if v in db.visits { Unmoved(db.visits[v]); }
  }

  lemma PutMoves(db: Db, v: Id, row: Visit)
    requires v in db.visits && RowMove(db.visits[v], row)
    ensures MovesOnly(db, PutVisit(db, v, row), v)
  {
  }

  lemma ConfirmMoves(db: Db, r: Id, v: Id, c: Id, phase: Phase, now: Instant)
    ensures MovesOnly(db, ConfirmStep(db, r, v, c, phase, now).0, v)
  {
    Untouched(db, v);
    if phase.Checked? && FindVisit(db, r, v).Some? && db.visits[v].status == Draft {
      PutMoves(db, v, db.visits[v].(status := Confirmed, arrivalConfirmedAt := Some(now), customer := Some(c),
                                    tableAssignedAt := Some(now), updatedAt := now));
    }
  }

  lemma ReassignMoves(db: Db, r: Id, v: Id, t: Id, phase: Phase, now: Instant)
    ensures MovesOnly(db, ReassignStep(db, r, v, t, phase, now).0, v)
  {
    Untouched(db, v);
    if phase.Checked? && FindVisit(db, r, v).Some? {
      PutMoves(db, v, db.visits[v].(table := Some(t), tableAssignedAt := Some(now), updatedAt := now));
    }
  }

  lemma AcceptMoves(db: Db, r: Id, v: Id, staff: Id, phase: Phase, now: Instant)
    ensures MovesOnly(db, AcceptStep(db, r, v, staff, phase, now).0, v)
  {
    Untouched(db, v);
    if FindVisit(db, r, v).Some? && db.visits[v].status == Confirmed {
      PutMoves(db, v, db.visits[v].(status := KitchenStarted, updatedAt := now));
    }
  }

  lemma ServeMoves(db: Db, r: Id, v: Id, staff: Id, phase: Phase, now: Instant)
    ensures MovesOnly(db, ServeStep(db, r, v, staff, phase, now).0, v)
  {
    Untouched(db, v);
    if FindVisit(db, r, v).Some? && db.visits[v].status == KitchenStarted {
      PutMoves(db, v, db.visits[v].(status := FoodOut, updatedAt := now));
    }
  }

  lemma RecomputeMoves(db: Db, r: Id, v: Id, phase: Phase, now: Instant)
    ensures MovesOnly(db, RecomputeStep(db, r, v, phase, now).0, v)
  {
    Untouched(db, v);
    if phase.Retiming? && FindVisit(db, r, v).Some? && db.visits[v].status == Confirmed {
      PutMoves(db, v, WithTargets(db.visits[v], phase.retimed).(updatedAt := now));
    }
  }

  lemma ChangeEtaMoves(db: Db, r: Id, v: Id, eta: Instant, expected: Instant, phase: Phase, now: Instant)
    ensures MovesOnly(db, ChangeEtaStep(db, r, v, eta, expected, phase, now).0, v)
  {
    Untouched(db, v);
    if phase.Computed? && EtaClaims(db, r, v, expected) {
      var row := db.visits[v].(arrivalEta := Some(eta), updatedAt := now);
      PutMoves(db, v, row);
      if phase.targets.Some? { PutMoves(db, v, WithTargets(row, phase.targets.value)); }
    }
  }

  lemma ProposeMoves(db: Db, r: Id, v: Id, t: Id, phase: Phase, now: Instant)
    ensures MovesOnly(db, ProposeStep(db, r, v, t, phase, now).0, v)
  {
    Untouched(db, v);
    if phase.Checked? && v in db.visits {
      PutMoves(db, v, db.visits[v].(table := Some(phase.table), updatedAt := now));
    }
  }

  lemma DirectMoves(db: Db, r: Id, request: Request, phase: Phase, now: Instant)
    ensures MovesOnly(db, DirectStep(db, r, request, phase, now).0, request.visit)
  {
    var v := request.visit;
    Untouched(db, v);
    if v in db.visits {
      match request
      case SetParty(_, size, eta) => PutMoves(db, v, WithParty(db.visits[v], size, eta).(updatedAt := now));
      case RefreshDraft(_, window) =>
        PutMoves(db, v, db.visits[v].(draftExpiresAt := Some(now + window), updatedAt := now));
      case UpdateItem(_, _, _, _, _) => ItemEditsTouchItems(db, r, request, phase, now);
      case RemoveItem(_, _) => ItemEditsTouchItems(db, r, request, phase, now);
      case _ =>
    } else if request.UpdateItem? || request.RemoveItem? {
      ItemEditsTouchItems(db, r, request, phase, now);
    }
  }

  lemma ItemEditsTouchItems(db: Db, r: Id, request: Request, phase: Phase, now: Instant)
    requires request.UpdateItem? || request.RemoveItem?
    ensures var after := DirectStep(db, r, request, phase, now).0; after == db.(items := after.items)
  {
  }

  predicate ItemTool(request: Request) {
    request.AddItem? || request.UpdateItem? || request.RemoveItem?
  }

  lemma ItemToolsTouchItems(db: Db, task: Task, now: Instant)
    requires ItemTool(task.request)
    ensures var after := TaskStep(db, task, now).0; after == db.(items := after.items)
  {
    if !task.request.AddItem? {
      ItemEditsTouchItems(db, task.restaurant, task.request, task.phase, now);
    }
  }

  /** A transaction touches no visit row but the one its request names. */
  lemma OnlyOwnRow(db: Db, task: Task, now: Instant)
    ensures MovesOnly(db, TaskStep(db, task, now).0, task.request.visit)
  {
    var Task(r, request, phase) := task;
    Untouched(db, request.visit);
    match request
    case Confirm(v, c) => ConfirmMoves(db, r, v, c, phase, now);
    case Reassign(v, t) => ReassignMoves(db, r, v, t, phase, now);
    case Accept(v, staff) => AcceptMoves(db, r, v, staff, phase, now);
    case Serve(v, staff) => ServeMoves(db, r, v, staff, phase, now);
    case Recompute(v) => RecomputeMoves(db, r, v, phase, now);
    case ChangeEta(v, eta, expected) => ChangeEtaMoves(db, r, v, eta, expected, phase, now);
    case ProposeTable(v, t) => ProposeMoves(db, r, v, t, phase, now);
    case Acknowledge(_, _) =>
    case AddItem(_, _) => ItemToolsTouchItems(db, task, now);
    case _ => DirectMoves(db, r, request, phase, now);
  }

  lemma StepIsRowMove(s: System, a: Action, v: Id)
    requires v in s.db.visits
    ensures v in Step(s, a).db.visits && RowMove(s.db.visits[v], Step(s, a).db.visits[v])
  {
    Unmoved(s.db.visits[v]);
    if a.Advance? && a.task in s.tasks {
      var task := s.tasks[a.task];
      OnlyOwnRow(s.db, task, a.now);
    }
  }

  predicate RowsMove(before: Db, after: Db) {
    forall v :: v in before.visits ==> v in after.visits && RowMove(before.visits[v], after.visits[v])
  }

  lemma StepMovesRows(s: System, a: Action)
    ensures RowsMove(s.db, Step(s, a).db)
  {
    forall v | v in s.db.visits ensures v in Step(s, a).db.visits && RowMove(s.db.visits[v], Step(s, a).db.visits[v]) {
      StepIsRowMove(s, a, v);
    }
  }

  /** The kitchen has started, or the visit has left the flow: targets are history. */
  predicate PastConfirmed(status: VisitStatus) {
    status != Draft && status != Confirmed
  }

  /** "You cannot un-cook food", over whole runs: whatever else happens, stale
      recomputes and ETA changes included, a visit that left `confirmed` keeps
      both targets and never comes back. */
  lemma {:induction false} CannotUncookFood(s: System, acts: seq<Action>, v: Id)
    requires v in s.db.visits && PastConfirmed(s.db.visits[v].status)
    ensures v in Run(s, acts).db.visits
    ensures SameTargets(s.db.visits[v], Run(s, acts).db.visits[v])
    ensures PastConfirmed(Run(s, acts).db.visits[v].status)
    decreases |acts|
  {
    if acts != [] {
      StepIsRowMove(s, acts[0], v);
      CannotUncookFood(Step(s, acts[0]), acts[1..], v);
    }
  }

  /** Once set, a field the guest or the booking supplied is never null again. */
  predicate KeepsFields(before: Visit, after: Visit) {
    && after.restaurant == before.restaurant
    && NeverErased(before.partySize, after.partySize)
    && NeverErased(before.arrivalEta, after.arrivalEta)
    && NeverErased(before.table, after.table)
    && NeverErased(before.arrivalConfirmedAt, after.arrivalConfirmedAt)
    && NeverErased(before.tableAssignedAt, after.tableAssignedAt)
    && NeverErased(before.kitchenStartTarget, after.kitchenStartTarget)
    && (before.status != Draft ==> after.status != Draft)
  }

  lemma {:induction false} RunKeepsFields(s: System, acts: seq<Action>, v: Id)
    requires v in s.db.visits
    ensures v in Run(s, acts).db.visits
    ensures KeepsFields(s.db.visits[v], Run(s, acts).db.visits[v])
    decreases |acts|
  {
    if acts != [] {
      StepIsRowMove(s, acts[0], v);
      RunKeepsFields(Step(s, acts[0]), acts[1..], v);
    }
  }

  predicate AllExpire(db: Db) {
    forall v :: v in db.visits ==> db.visits[v].draftExpiresAt.Some?
  }

  lemma StepKeepsExpiry(s: System, a: Action)
    requires AllExpire(s.db)
    ensures AllExpire(Step(s, a).db)
  {
    StepMovesRows(s, a);
    if a.Advance? && a.task in s.tasks {
      OnlyOwnRow(s.db, s.tasks[a.task], a.now);
    }
  }

  /** Every draft is opened with an expiry, and no run ever clears one, in any status: not
      on confirmation either, where the schema's comment says it becomes null. */
  lemma {:induction false} ExpiryIsNeverCleared(s: System, acts: seq<Action>)
    requires AllExpire(s.db)
    ensures AllExpire(Run(s, acts).db)
    decreases |acts|
  {
    if acts != [] {
      StepKeepsExpiry(s, acts[0]);
      ExpiryIsNeverCleared(Step(s, acts[0]), acts[1..]);
    }
  }
}
