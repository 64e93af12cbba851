/** Who a booking belongs to. The customer check of `confirm` is made on the
    pre-read and not repeated in the UPDATE; it stays valid because a draft's
    customer can only change by leaving `draft`. */
module Identity {
  import opened Domain
  import opened Protocol
  import opened RowHistory

  /** What a confirm that got past its checks, or succeeded, still knows about the row. */
  predicate TaskBound(db: Db, task: Task) {
    task.request.Confirm? ==>
      var v, c := task.request.visit, Some(task.request.customer);
      && (task.phase.Checked? ==>
            && v in db.visits && db.visits[v].restaurant == task.restaurant
            && (db.visits[v].status == Draft ==> db.visits[v].customer in {None, c}))
      && (task.phase.Finished? && task.phase.outcome.ConfirmedVisit? ==>
            v in db.visits && db.visits[v].status != Draft && db.visits[v].customer == c)
  }

  predicate Bound(s: System) {
    forall id :: id in s.tasks ==> TaskBound(s.db, s.tasks[id])
  }

  lemma OtherTasksStayBound(before: Db, after: Db, task: Task)
    requires RowsMove(before, after) && TaskBound(before, task)
    ensures TaskBound(after, task)
  {
    if task.request.Confirm? && task.request.visit in before.visits {
      assert RowMove(before.visits[task.request.visit], after.visits[task.request.visit]);
    }
  }

  lemma OwnTaskStaysBound(db: Db, task: Task, now: Instant)
    requires TaskBound(db, task)
    ensures var (after, phase) := TaskStep(db, task, now); TaskBound(after, task.(phase := phase))
  {
    if task.request.Confirm? {
      var v, c := task.request.visit, task.request.customer;
      match task.phase
      case Ready => assert TaskBound(db, task.(phase := ConfirmRead(db, task.restaurant, v, c)));
      case ClaimLost => assert TaskBound(db, task.(phase := ConfirmReread(db, task.restaurant, v, c)));
      case _ =>
    }
  }

  lemma StepKeepsBound(s: System, a: Action)
    requires Bound(s)
    ensures Bound(Step(s, a))
  {
    StepMovesRows(s, a);
    forall id | id in Step(s, a).tasks ensures TaskBound(Step(s, a).db, Step(s, a).tasks[id]) {
      if id in s.tasks {
        OtherTasksStayBound(s.db, Step(s, a).db, s.tasks[id]);
        if a.Advance? && a.task == id {
          OwnTaskStaysBound(s.db, s.tasks[id], a.now);
        }
      }
    }
  }

  lemma {:induction false} RunKeepsBound(s: System, acts: seq<Action>)
    requires Bound(s)
    ensures Bound(Run(s, acts))
    decreases |acts|
  {
    if acts != [] {
      StepKeepsBound(s, acts[0]);
      RunKeepsBound(Step(s, acts[0]), acts[1..]);
    }
  }

  lemma StepKeepsCustomer(s: System, a: Action, v: Id)
    requires Bound(s) && v in s.db.visits && s.db.visits[v].customer.Some?
    ensures v in Step(s, a).db.visits && Step(s, a).db.visits[v].customer == s.db.visits[v].customer
  {
    StepIsRowMove(s, a, v);
    if a.Advance? && a.task in s.tasks {
      var task := s.tasks[a.task];
      OnlyOwnRow(s.db, task, a.now);
      if task.request.visit == v && task.request.Confirm? && task.phase.Checked? {
        assert TaskBound(s.db, task);
      }
      if task.request.visit == v && !task.request.Confirm? {
        OnlyConfirmBinds(s.db, task, a.now);
      }
    }
  }

  /** No request but a confirm writes the status `confirmed` or the customer. */
  lemma OnlyConfirmBinds(db: Db, task: Task, now: Instant)
    requires !task.request.Confirm? && task.request.visit in db.visits
    ensures
      var v, after := task.request.visit, TaskStep(db, task, now).0.visits;
      && v in after && after[v].customer == db.visits[v].customer
      && (db.visits[v].status != Confirmed ==> after[v].status != Confirmed)
  {
    if ItemTool(task.request) {
      ItemToolsTouchItems(db, task, now);
    } else {
      RowToolsBindNobody(db, task, now);
    }
  }

  lemma RowToolsBindNobody(db: Db, task: Task, now: Instant)
    requires !task.request.Confirm? && !ItemTool(task.request) && task.request.visit in db.visits
    ensures
      var v, after := task.request.visit, TaskStep(db, task, now).0.visits;
      && v in after && after[v].customer == db.visits[v].customer
      && (db.visits[v].status != Confirmed ==> after[v].status != Confirmed)
  {
    if task.request.Recompute? || task.request.ChangeEta? {
      TimingBindsNobody(db, task, now);
    }
  }

  lemma TimingBindsNobody(db: Db, task: Task, now: Instant)
    requires (task.request.Recompute? || task.request.ChangeEta?) && task.request.visit in db.visits
    ensures
      var v, after := task.request.visit, TaskStep(db, task, now).0.visits;
      v in after && after[v].customer == db.visits[v].customer && after[v].status == db.visits[v].status
  {
  }

  /** Once a visit has a customer, no run of any requests gives it another one. */
  lemma {:induction false} CustomerIsPermanent(s: System, acts: seq<Action>, v: Id)
    requires Bound(s) && v in s.db.visits && s.db.visits[v].customer.Some?
    ensures v in Run(s, acts).db.visits && Run(s, acts).db.visits[v].customer == s.db.visits[v].customer
    decreases |acts|
  {
    if acts != [] {
      StepKeepsBound(s, acts[0]);
      StepKeepsCustomer(s, acts[0], v);
      CustomerIsPermanent(Step(s, acts[0]), acts[1..], v);
    }
  }

  /** Every confirm that ever answers success, fresh or repeated, answers it to the
      customer the visit is bound to; two successes name the same customer. */
  lemma ConfirmSuccessesAgree(s: System, acts: seq<Action>, one: Id, other: Id)
    requires Bound(s)
    requires
      var tasks := Run(s, acts).tasks;
      && one in tasks && other in tasks
      && tasks[one].request.Confirm? && tasks[other].request.Confirm?
      && tasks[one].request.visit == tasks[other].request.visit
      && tasks[one].phase.Finished? && tasks[one].phase.outcome.ConfirmedVisit?
      && tasks[other].phase.Finished? && tasks[other].phase.outcome.ConfirmedVisit?
    ensures
      var end := Run(s, acts);
      var v := end.tasks[one].request.visit;
      && end.tasks[one].request.customer == end.tasks[other].request.customer
      && v in end.db.visits && end.db.visits[v].customer == Some(end.tasks[one].request.customer)
  {
    RunKeepsBound(s, acts);
    var end := Run(s, acts);
    assert TaskBound(end.db, end.tasks[one]) && TaskBound(end.db, end.tasks[other]);
  }

  /** This step is the commit of a confirm of `v`: the answer with alreadyConfirmed false. */
  predicate FreshConfirm(s: System, a: Action, v: Id) {
    && a.Advance? && a.task in s.tasks
    && var task := s.tasks[a.task];
       && task.request.Confirm? && task.request.visit == v && task.phase.Checked?
       && TaskStep(s.db, task, a.now).1 == Finished(ConfirmedVisit(false))
  }

  /** Exactly one booking: after a fresh confirm no later step of any run is another. */
  lemma OneFreshConfirm(s: System, a: Action, between: seq<Action>, later: Action, v: Id)
    requires FreshConfirm(s, a, v)
    ensures !FreshConfirm(Run(Step(s, a), between), later, v)
  {
    RunKeepsFields(Step(s, a), between, v);
  }

  /** `v` is past draft and bound to customer `c`. */
  predicate BookedBy(db: Db, v: Id, c: Id) {
    v in db.visits && db.visits[v].status != Draft && db.visits[v].customer == Some(c)
  }

  lemma FreshConfirmBooks(s: System, a: Action, v: Id)
    requires FreshConfirm(s, a, v)
    ensures BookedBy(Step(s, a).db, v, s.tasks[a.task].request.customer)
  {
  }

  lemma StaysBookedBy(s: System, acts: seq<Action>, v: Id, c: Id)
    requires Bound(s) && BookedBy(s.db, v, c)
    ensures BookedBy(Run(s, acts).db, v, c)
  {
    CustomerIsPermanent(s, acts, v);
    RunKeepsFields(s, acts, v);
  }

  /** What any further step of any confirm of a booked visit does: a claim is lost, and the
      pre-read of a later duplicate, or the re-read of one that raced the booking, reports
      the booking if and only if it is this customer's and still `confirmed`. */
  lemma DuplicateStepIff(db: Db, task: Task, now: Instant, owner: Id)
    requires task.request.Confirm? && BookedBy(db, task.request.visit, owner)
    ensures
      var (after, phase) := TaskStep(db, task, now);
      var row := db.visits[task.request.visit];
      && after == db
      && (task.phase.Checked? ==> phase == ClaimLost)
      && (task.phase.Ready? || task.phase.ClaimLost? ==>
            if row.restaurant == task.restaurant && row.status == Confirmed && task.request.customer == owner
            then phase == Finished(ConfirmedVisit(true))
            else phase in {Finished(NotFound), Finished(Rejected(NotDraft))})
  {
  }

  /** After a booking every further step of every confirm of that visit, early or late, by
      its customer or by another, changes nothing, and succeeds if and only if it reads, for
      its customer, and the visit is still `confirmed`. Once the kitchen has started the
      customer's own repeat is refused, where the source's comment promises success. */
  lemma RepeatedConfirmIff(s: System, a: Action, between: seq<Action>, later: Action, v: Id)
    requires Bound(s) && FreshConfirm(s, a, v)
    requires later.Advance? && later.task in Run(Step(s, a), between).tasks
    requires Run(Step(s, a), between).tasks[later.task].request.Confirm?
    requires Run(Step(s, a), between).tasks[later.task].request.visit == v
    ensures
      var before := Run(Step(s, a), between);
      var task := before.tasks[later.task];
      var (after, phase) := TaskStep(before.db, task, later.now);
      && v in before.db.visits && after == before.db
      && (task.phase.Checked? ==> phase == ClaimLost)
      && (task.phase.Ready? || task.phase.ClaimLost? ==>
            (phase == Finished(ConfirmedVisit(true)) <==>
               before.db.visits[v].restaurant == task.restaurant && before.db.visits[v].status == Confirmed
               && task.request.customer == s.tasks[a.task].request.customer)
            && phase in {Finished(ConfirmedVisit(true)), Finished(NotFound), Finished(Rejected(NotDraft))})
  {
    var owner := s.tasks[a.task].request.customer;
    FreshConfirmBooks(s, a, v);
    StepKeepsBound(s, a);
    StaysBookedBy(Step(s, a), between, v, owner);
    DuplicateStepIff(Run(Step(s, a), between).db, Run(Step(s, a), between).tasks[later.task], later.now, owner);
  }

  predicate OnlyRefused(task: Task) {
    task.phase.Finished? ==> task.phase.outcome in {NotFound, Rejected(NotDraft)}
  }

  lemma {:induction false} StrangerStaysRefused(s: System, acts: seq<Action>, id: Id, v: Id, owner: Id)
    requires Bound(s) && BookedBy(s.db, v, owner) && id in Run(s, acts).tasks
    requires Run(s, acts).tasks[id].request.Confirm? && Run(s, acts).tasks[id].request.visit == v
    requires Run(s, acts).tasks[id].request.customer != owner
    requires id in s.tasks ==> OnlyRefused(s.tasks[id])
    ensures OnlyRefused(Run(s, acts).tasks[id])
    decreases |acts|
  {
    if acts != [] {
      var next := Step(s, acts[0]);
      StepKeepsBound(s, acts[0]);
      assert Run(s, [acts[0]]) == next by { assert [acts[0]][1..] == []; }
      StaysBookedBy(s, [acts[0]], v, owner);
      if id in s.tasks {
        RequestStays(next, acts[1..], id);
        if acts[0].Advance? && acts[0].task == id {
          DuplicateStepIff(s.db, s.tasks[id], acts[0].now, owner);
        }
      }
      StrangerStaysRefused(next, acts[1..], id, v, owner);
    }
  }

  lemma {:induction false} RequestStays(s: System, acts: seq<Action>, id: Id)
    requires id in s.tasks
    ensures id in Run(s, acts).tasks && Run(s, acts).tasks[id].request == s.tasks[id].request
    decreases |acts|
  {
    if acts != [] {
      RequestStays(Step(s, acts[0]), acts[1..], id);
    }
  }

  /** Another customer's confirm that was not answered before the booking is never answered
      with more than not-found or not_draft, wherever the booking caught it. */
  lemma StrangersAreRefused(s: System, a: Action, between: seq<Action>, v: Id, id: Id)
    requires Bound(s) && FreshConfirm(s, a, v)
    requires id in Step(s, a).tasks ==> !Step(s, a).tasks[id].phase.Finished?
    requires id in Run(Step(s, a), between).tasks
    requires Run(Step(s, a), between).tasks[id].request.Confirm?
        && Run(Step(s, a), between).tasks[id].request.visit == v
    requires Run(Step(s, a), between).tasks[id].request.customer != s.tasks[a.task].request.customer
    ensures OnlyRefused(Run(Step(s, a), between).tasks[id])
  {
    FreshConfirmBooks(s, a, v);
    StepKeepsBound(s, a);
    StrangerStaysRefused(Step(s, a), between, id, v, s.tasks[a.task].request.customer);
  }

  /** A complete draft at the free table 10 of restaurant 1. */
  function OneDraft(): System {
    var row := Visit(1, Draft, None, Some(2), Some(1000), None, Some(10), None, None, None, None, 0);
    System(Db(map[1 := row], map[10 := Table(1, "A", Free)], map[], map[], map[], [], map[]), map[])
  }

  /** Customer 7 confirms and the kitchen accepts. */
  function BookedAndAccepted(): seq<Action> {
    [Arrive(1, 1, Confirm(1, 7)), Advance(1, 1), Advance(1, 2), Arrive(2, 1, Accept(1, 9)), Advance(2, 3)]
  }

  lemma AfterBookedAndAccepted()
    ensures
      var s := Run(OneDraft(), BookedAndAccepted());
      && s.tasks.Keys == {1, 2} && s.tasks[1] == Task(1, Confirm(1, 7), Finished(ConfirmedVisit(false)))
      && 1 in s.db.visits && s.db.visits[1].restaurant == 1 && s.db.visits[1].status == KitchenStarted
  {
    var acts := BookedAndAccepted();
    var s0 := OneDraft();
    var s1 := Step(s0, acts[0]);
    var s2 := Step(s1, acts[1]);
    assert s2.tasks[1].phase == Checked(10);
    var s3 := Step(s2, acts[2]);
    var s4 := Step(s3, acts[3]);
    var s5 := Step(s4, acts[4]);
    assert Run(s0, acts) == s5 by {
      assert Run(s4, acts[4..]) == s5;
      assert Run(s3, acts[3..]) == s5;
      assert Run(s2, acts[2..]) == s5;
      assert Run(s1, acts[1..]) == s5;
    }
  }

  /** The same customer's retry is refused. */
  lemma LateRepeatIsRefused()
    ensures
      var s := Run(OneDraft(), BookedAndAccepted() + [Arrive(3, 1, Confirm(1, 7)), Advance(3, 4)]);
      && 1 in s.tasks && s.tasks[1] == Task(1, Confirm(1, 7), Finished(ConfirmedVisit(false)))
      && 3 in s.tasks && s.tasks[3] == Task(1, Confirm(1, 7), Finished(Rejected(NotDraft)))
  {
    AfterBookedAndAccepted();
    var s, again := Run(OneDraft(), BookedAndAccepted()), [Arrive(3, 1, Confirm(1, 7)), Advance(3, 4)];
    RunConcat(OneDraft(), BookedAndAccepted(), again);
    assert again[1..] == [Advance(3, 4)] && again[1..][1..] == [];
  }
}
