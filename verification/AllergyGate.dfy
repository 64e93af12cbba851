/** No flagged order leaves the pass unacknowledged. The gate's read and the
    conditional write that follows are separate steps, so this is a rely/guarantee
    argument: acknowledgments are never taken back, and flags must not appear in
    the window or after the food went out. */
module AllergyGate {
  import opened Domain
  import opened Protocol
  import opened RowHistory

  predicate ServePending(db: Db, task: Task, v: Id) {
    task.request.Serve? && task.request.visit == v && task.phase.GatePassed?
  }

  /** A food-out request for `v` is between its gate and its write. */
  predicate ServeInFlight(s: System, v: Id) {
    exists id :: id in s.tasks && ServePending(s.db, s.tasks[id], v)
  }

  /** Every visit that was served, or is about to be, has no flags or an acknowledgment. */
  predicate GateHolds(s: System) {
    && (forall v :: v in s.db.visits && s.db.visits[v].status == FoodOut ==> Cleared(s.db, v))
    && (forall id :: id in s.tasks && s.tasks[id].request.Serve? && s.tasks[id].phase.GatePassed? ==>
          Cleared(s.db, s.tasks[id].request.visit))
  }

  /** This step puts the first flag on the order of `v`. */
  predicate RaisesFlag(s: System, a: Action, v: Id) {
    !HasFlags(ItemsOf(s.db, v)) && HasFlags(ItemsOf(Step(s, a).db, v))
  }

  /** The rely: a first flag is put on an order only if the flags are already
      acknowledged, or the food is not out and no food-out request is past its gate. */
  predicate FlagsStandStill(s: System, a: Action) {
    a.Advance? && a.task in s.tasks && RaisesFlag(s, a, s.tasks[a.task].request.visit) ==>
      var v := s.tasks[a.task].request.visit;
      || v in s.db.acks
      || (!ServeInFlight(s, v) && (v in s.db.visits ==> s.db.visits[v].status != FoodOut))
  }

  predicate FlagsStandStillAlong(s: System, acts: seq<Action>)
    decreases |acts|
  {
    acts == [] || (FlagsStandStill(s, acts[0]) && FlagsStandStillAlong(Step(s, acts[0]), acts[1..]))
  }

  lemma AcknowledgmentsStay(s: System, a: Action)
    ensures s.db.acks.Keys <= Step(s, a).db.acks.Keys
    ensures forall v :: v in s.db.acks ==> Step(s, a).db.acks[v] == s.db.acks[v]
  {
    if a.Advance? && a.task in s.tasks && !s.tasks[a.task].request.Acknowledge? {
      OnlyAcknowledgeWritesAcks(s.db, s.tasks[a.task], a.now);
    }
  }

  lemma OnlyAcknowledgeWritesAcks(db: Db, task: Task, now: Instant)
    requires !task.request.Acknowledge?
    ensures TaskStep(db, task, now).0.acks == db.acks
  {
    if ItemTool(task.request) {
      ItemToolsTouchItems(db, task, now);
    } else {
      NoAckElsewhere(db, task, now);
    }
  }

  lemma NoAckElsewhere(db: Db, task: Task, now: Instant)
    requires !task.request.Acknowledge? && !ItemTool(task.request)
    ensures TaskStep(db, task, now).0.acks == db.acks
  {
    if task.request.Confirm? || task.request.Reassign? || task.request.Serve? || task.request.Accept? {
      StaffAndGuestsKeepItems(db, task, now);
    }
  }

  lemma OnlyOwnItems(db: Db, task: Task, now: Instant, w: Id)
    ensures
      var after := TaskStep(db, task, now).0;
      && (w != task.request.visit ==> ItemsOf(after, w) == ItemsOf(db, w))
      && (task.request.Serve? ==> after.items == db.items)
  {
    if !ItemTool(task.request) {
      OnlyItemToolsWriteItems(db, task, now);
    }
  }

  lemma OnlyItemToolsWriteItems(db: Db, task: Task, now: Instant)
    requires !ItemTool(task.request)
    ensures TaskStep(db, task, now).0.items == db.items
  {
    if task.request.Confirm? || task.request.Reassign? || task.request.Serve? || task.request.Accept? {
      StaffAndGuestsKeepItems(db, task, now);
    }
  }

  lemma StaffAndGuestsKeepItems(db: Db, task: Task, now: Instant)
    requires task.request.Confirm? || task.request.Reassign? || task.request.Serve? || task.request.Accept?
    ensures TaskStep(db, task, now).0.items == db.items && TaskStep(db, task, now).0.acks == db.acks
  {
  }

  /** A visit that is cleared stays cleared, unless this very step raises its first flag
      while nobody has acknowledged. */
  lemma ClearedUnlessRaised(s: System, a: Action, v: Id)
    requires Cleared(s.db, v)
    ensures Cleared(Step(s, a).db, v) <==> (v in Step(s, a).db.acks || !RaisesFlag(s, a, v))
  {
    AcknowledgmentsStay(s, a);
  }

  lemma RaiseIsOwnVisit(s: System, a: Action, v: Id)
    requires RaisesFlag(s, a, v)
    ensures a.Advance? && a.task in s.tasks && s.tasks[a.task].request.visit == v
    ensures Step(s, a).db.acks == s.db.acks && Step(s, a).db.visits == s.db.visits
    ensures !s.tasks[a.task].request.Serve?
  {
    if a.Advance? && a.task in s.tasks {
      var task := s.tasks[a.task];
      OnlyOwnItems(s.db, task, a.now, v);
      if ItemTool(task.request) {
        ItemToolsTouchItems(s.db, task, a.now);
        OnlyAcknowledgeWritesAcks(s.db, task, a.now);
      } else {
        OnlyItemToolsWriteItems(s.db, task, a.now);
      }
    }
  }

  /** The only way to food_out is a food-out request past its gate. */
  lemma ServedThroughTheGate(s: System, a: Action, v: Id)
    requires v in Step(s, a).db.visits && Step(s, a).db.visits[v].status == FoodOut
    ensures (v in s.db.visits && s.db.visits[v].status == FoodOut)
         || (a.Advance? && a.task in s.tasks && ServePending(s.db, s.tasks[a.task], v))
  {
    if a.Advance? && a.task in s.tasks {
      var task := s.tasks[a.task];
      OnlyOwnRow(s.db, task, a.now);
      if task.request.visit == v && v in s.db.visits && !task.request.Serve? {
        OnlyServeSetsFoodOut(s.db, task, a.now);
      }
    }
  }

  lemma OnlyServeSetsFoodOut(db: Db, task: Task, now: Instant)
    requires !task.request.Serve? && task.request.visit in db.visits
    ensures
      var v, after := task.request.visit, TaskStep(db, task, now).0.visits;
      v in after && (after[v].status == FoodOut ==> db.visits[v].status == FoodOut)
  {
  }

  lemma StepKeepsGate(s: System, a: Action)
    requires GateHolds(s) && FlagsStandStill(s, a)
    ensures GateHolds(Step(s, a))
  {
    var s' := Step(s, a);
    forall v | v in s'.db.visits && s'.db.visits[v].status == FoodOut ensures Cleared(s'.db, v) {
      ServedThroughTheGate(s, a, v);
      ClearedUnlessRaised(s, a, v);
      if RaisesFlag(s, a, v) { RaiseIsOwnVisit(s, a, v); }
    }
    forall id | id in s'.tasks && s'.tasks[id].request.Serve? && s'.tasks[id].phase.GatePassed?
      ensures Cleared(s'.db, s'.tasks[id].request.visit)
    {
      var v := s'.tasks[id].request.visit;
      if s.tasks[id].phase.GatePassed? {
        assert ServePending(s.db, s.tasks[id], v);
        ClearedUnlessRaised(s, a, v);
        if RaisesFlag(s, a, v) { RaiseIsOwnVisit(s, a, v); }
      } else {
        assert ServeGate(s.db, s.tasks[id].restaurant, v) == GatePassed;
        assert s'.db == s.db;
      }
    }
  }

  /** The assumption is exact: from a state where the gate holds, a step keeps it if
      and only if the step respects the rely. */
  lemma GateKeptIff(s: System, a: Action)
    requires GateHolds(s)
    ensures GateHolds(Step(s, a)) <==> FlagsStandStill(s, a)
  {
    if FlagsStandStill(s, a) {
      StepKeepsGate(s, a);
    } else {
      var v := s.tasks[a.task].request.visit;
      RaiseIsOwnVisit(s, a, v);
      assert !Cleared(Step(s, a).db, v);
      if ServeInFlight(s, v) {
        var id :| id in s.tasks && ServePending(s.db, s.tasks[id], v);
        assert id != a.task && Step(s, a).tasks[id] == s.tasks[id];
      }
    }
  }

  /** Main result: in every state of every run that respects the rely, a visit whose
      food is out carries no allergy flag or has an acknowledgment row. */
  lemma {:induction false} FoodOutIsCleared(s: System, acts: seq<Action>)
    requires GateHolds(s) && FlagsStandStillAlong(s, acts)
    ensures GateHolds(Run(s, acts))
    decreases |acts|
  {
    if acts != [] {
      StepKeepsGate(s, acts[0]);
      FoodOutIsCleared(Step(s, acts[0]), acts[1..]);
    }
  }

  // ---- Without the assumption ----

  function OneDish(flags: seq<string>): seq<Item> {
    [Item(5, 6, 1, [], flags)]
  }

  function Cooking(): System {
    var row := Visit(1, KitchenStarted, Some(7), Some(2), Some(1000), Some(0), Some(10), Some(0), Some(400),
                     Some(1180), None, 0);
    System(
      Db(map[1 := row], map[10 := Table(1, "A", Held)], map[1 := OneDish([])], map[6 := MenuItem(1, "soup", 10, true)],
         map[], [], map[]),
      map[])
  }

  function FlagInTheWindow(): seq<Action> {
    [Arrive(1, 1, Serve(1, 9)), Advance(1, 1),
     Arrive(2, 1, UpdateItem(1, 5, None, None, Some(["no_peanuts"]))), Advance(2, 2),
     Advance(1, 3)]
  }

  /** A flag written between the gate's read and the conditional write goes out
      unacknowledged: the write looks at the status alone. */
  lemma WithoutTheRelyAFlagSlipsOut()
    ensures GateHolds(Cooking())
    ensures
      var db := Run(Cooking(), FlagInTheWindow()).db;
      1 in db.visits && db.visits[1].status == FoodOut && !Cleared(db, 1)
  {
    var acts := FlagInTheWindow();
    var s0 := Cooking();
    var s1 := Step(s0, acts[0]);
    var s2 := Step(s1, acts[1]);
    assert s2.tasks[1].phase == GatePassed;
    var s3 := Step(s2, acts[2]);
    var s4 := Step(s3, acts[3]);
    assert ItemsOf(s3.db, 1) == OneDish([]);
    assert ItemsOf(s4.db, 1) == OneDish(["no_peanuts"]);
    var s5 := Step(s4, acts[4]);
    assert Run(s0, acts) == s5 by {
      assert Run(s4, acts[4..]) == s5;
      assert Run(s3, acts[3..]) == s5;
      assert Run(s2, acts[2..]) == s5;
      assert Run(s1, acts[1..]) == s5;
    }
    assert |ItemsOf(s5.db, 1)[0].allergyFlags| > 0;
  }
}
