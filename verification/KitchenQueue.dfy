/** KitchenService.listQueue: which tickets the kitchen sees, in which order, and what
    can take one away. */
module KitchenQueue {
  import opened Domain
  import opened Protocol
  import opened RowHistory
  import opened Completeness
  import opened Ordering

  datatype TicketItem = TicketItem(id: Id, name: string, quantity: int, modifications: seq<string>,
                                   allergyFlags: seq<string>, prepTimeMinutes: int)

  datatype KitchenTicket = KitchenTicket(
    visitId: Id,
    status: VisitStatus,
    tableLabel: string,
    partySize: int,
    arrivalEta: Instant,
    kitchenStartTarget: Instant,
    foodOutTarget: Option<Instant>,
    items: seq<TicketItem>,
    allergyFlags: seq<string>,
    allergyAcknowledgedAt: Option<Instant>)

  /** The WHERE clause of the queue. */
  predicate Due(db: Db, r: Id, v: Id, now: Instant) {
    && v in db.visits
    && var visit := db.visits[v];
       && visit.restaurant == r && visit.status in {Confirmed, KitchenStarted} && visit.table.Some?
       && visit.kitchenStartTarget.Some? && visit.kitchenStartTarget.value <= now
  }

  predicate AllComplete(db: Db) {
    forall v :: v in db.visits ==> RowComplete(db, v)
  }

  // ---- Rows to tickets ----

  function ToTicketItem(db: Db, r: Id, item: Item): TicketItem {
    var dish := FindMenuItem(db, r, item.menuItem);
    TicketItem(item.id, if dish.Some? then dish.value.name else "",
               item.quantity, item.modifications, item.allergyFlags,
               if dish.Some? then dish.value.prepTimeMinutes else 0)
  }

  /** `new Set(...)`: each flag once, in order of first appearance. */
  function Dedupe(flags: seq<string>): seq<string> {
    if flags == [] then []
    else
      var init, last := Dedupe(flags[..|flags| - 1]), flags[|flags| - 1];
      if last in init then init else init + [last]
  }

  function AllFlags(items: seq<Item>): seq<string> {
    if items == [] then [] else items[0].allergyFlags + AllFlags(items[1..])
  }

  function ToTicket(db: Db, v: Id): KitchenTicket
    requires v in db.visits && RowComplete(db, v) && db.visits[v].status != Draft
        && db.visits[v].kitchenStartTarget.Some?
  {
    var visit, items := db.visits[v], ItemsOf(db, v);
    KitchenTicket(v, visit.status, db.tables[visit.table.value].name, visit.partySize.value, visit.arrivalEta.value,
           visit.kitchenStartTarget.value, visit.foodOutTarget,
           seq(|items|, i requires 0 <= i < |items| => ToTicketItem(db, visit.restaurant, items[i])),
           Dedupe(AllFlags(items)),
           if v in db.acks then Some(db.acks[v].at) else None)
  }

  /** `queue` holds exactly the due tickets, each once, earliest kitchen start first. */
  ghost predicate IsQueue(db: Db, r: Id, now: Instant, queue: seq<KitchenTicket>)
    requires AllComplete(db)
  {
    && (forall i :: 0 <= i < |queue| ==>
            Due(db, r, queue[i].visitId, now) && queue[i] == ToTicket(db, queue[i].visitId))
    && (forall v :: Due(db, r, v, now) ==> exists i :: 0 <= i < |queue| && queue[i].visitId == v)
    && (forall i, j :: 0 <= i < j < |queue| ==> queue[i].visitId != queue[j].visitId)
    && (forall i, j :: 0 <= i < j < |queue| ==> queue[i].kitchenStartTarget <= queue[j].kitchenStartTarget)
  }

  function DueVisits(db: Db, r: Id, now: Instant): (due: set<Id>)
    ensures forall v :: v in due <==> Due(db, r, v, now)
  {
    set v | v in db.visits && Due(db, r, v, now)
  }

  function StartTargets(db: Db, r: Id, now: Instant): (start: map<Id, Instant>)
    ensures start.Keys == DueVisits(db, r, now)
  {
    map v | v in DueVisits(db, r, now) :: db.visits[v].kitchenStartTarget.value
  }

  function Tickets(db: Db, r: Id, now: Instant, ids: seq<Id>): (queue: seq<KitchenTicket>)
    requires AllComplete(db) && forall i :: 0 <= i < |ids| ==> Due(db, r, ids[i], now)
    ensures |queue| == |ids|
  {
    seq(|ids|, i requires 0 <= i < |ids| =>
      (assert Due(db, r, ids[i], now) && RowComplete(db, ids[i]); ToTicket(db, ids[i])))
  }

  lemma OrderedTicketsAreTheQueue(db: Db, r: Id, now: Instant, ids: seq<Id>)
    requires AllComplete(db) && Orders(ids, DueVisits(db, r, now), StartTargets(db, r, now))
    requires forall i :: 0 <= i < |ids| ==> Due(db, r, ids[i], now)
    ensures IsQueue(db, r, now, Tickets(db, r, now, ids))
  {
    var queue, start := Tickets(db, r, now, ids), StartTargets(db, r, now);
    forall i | 0 <= i < |ids|
      ensures queue[i].visitId == ids[i] && queue[i].kitchenStartTarget == start[ids[i]]
    {
      assert Due(db, r, ids[i], now) && RowComplete(db, ids[i]);
    }
    forall v | Due(db, r, v, now) ensures exists i :: 0 <= i < |queue| && queue[i].visitId == v {
      assert v in ids;
      var i :| 0 <= i < |ids| && ids[i] == v;
      assert queue[i].visitId == v;
    }
  }

  method ListQueue(db: Db, r: Id, now: Instant) returns (queue: seq<KitchenTicket>)
    requires AllComplete(db)
    ensures IsQueue(db, r, now, queue)
  {
    var ids := OrderBy(DueVisits(db, r, now), StartTargets(db, r, now));
    assert forall i :: 0 <= i < |ids| ==> ids[i] in ids;
    OrderedTicketsAreTheQueue(db, r, now, ids);
    queue := Tickets(db, r, now, ids);
  }

  // ---- The queue by its rows ----

  /** A visit is on the queue if and only if it is r's, confirmed or being cooked, has a
      table, and its kitchen start has come. */
  lemma OnQueueIff(db: Db, r: Id, now: Instant, queue: seq<KitchenTicket>, v: Id)
    requires AllComplete(db) && IsQueue(db, r, now, queue)
    ensures
      (exists i :: 0 <= i < |queue| && queue[i].visitId == v) <==>
        && v in db.visits && db.visits[v].restaurant == r
        && (db.visits[v].status == Confirmed || db.visits[v].status == KitchenStarted)
        && db.visits[v].table != None && db.visits[v].kitchenStartTarget != None
        && db.visits[v].kitchenStartTarget.value <= now
  {
    assert (exists i :: 0 <= i < |queue| && queue[i].visitId == v) <==> Due(db, r, v, now);
  }

  /** What a ticket says of the visit, its table and its acknowledgment. */
  lemma TicketShowsItsRow(db: Db, r: Id, now: Instant, queue: seq<KitchenTicket>, i: nat)
    requires AllComplete(db) && IsQueue(db, r, now, queue) && i < |queue|
    ensures
      var ticket := queue[i];
      && ticket.visitId in db.visits
      && var row := db.visits[ticket.visitId];
         && row.status == ticket.status
         && row.table != None && row.table.value in db.tables
         && db.tables[row.table.value].name == ticket.tableLabel
         && row.partySize == Some(ticket.partySize) && row.arrivalEta == Some(ticket.arrivalEta)
         && row.kitchenStartTarget == Some(ticket.kitchenStartTarget) && row.foodOutTarget == ticket.foodOutTarget
         && (ticket.visitId in db.acks <==> ticket.allergyAcknowledgedAt != None)
         && (ticket.visitId in db.acks ==> ticket.allergyAcknowledgedAt.value == db.acks[ticket.visitId].at)
  {
    assert Due(db, r, queue[i].visitId, now) && RowComplete(db, queue[i].visitId);
  }

  /** What it says of each line, and that no line is missing. */
  lemma TicketShowsItsLines(db: Db, r: Id, now: Instant, queue: seq<KitchenTicket>, i: nat)
    requires AllComplete(db) && IsQueue(db, r, now, queue) && i < |queue|
    ensures |queue[i].items| == if queue[i].visitId in db.items then |db.items[queue[i].visitId]| else 0
    ensures forall k :: 0 <= k < |queue[i].items| ==>
              var shown, line := queue[i].items[k], db.items[queue[i].visitId][k];
              && shown.id == line.id && shown.quantity == line.quantity
              && shown.modifications == line.modifications && shown.allergyFlags == line.allergyFlags
              && (line.menuItem in db.menu && db.menu[line.menuItem].restaurant == r ==>
                    shown.name == db.menu[line.menuItem].name
                    && shown.prepTimeMinutes == db.menu[line.menuItem].prepTimeMinutes)
  {
    assert Due(db, r, queue[i].visitId, now) && RowComplete(db, queue[i].visitId);
  }

  // ---- The flags on a ticket ----

  lemma {:induction false} DedupeMeaning(flags: seq<string>)
    ensures forall f :: f in Dedupe(flags) <==> f in flags
    ensures Distinct(Dedupe(flags))
    decreases |flags|
  {
    if flags != [] {
      var init, last := flags[..|flags| - 1], flags[|flags| - 1];
      DedupeMeaning(init);
      assert flags == init + [last];
    }
  }

  lemma {:induction false} AllFlagsMeaning(items: seq<Item>, f: string)
    ensures f in AllFlags(items) <==> exists i :: 0 <= i < |items| && f in items[i].allergyFlags
    decreases |items|
  {
    if items != [] {
      AllFlagsMeaning(items[1..], f);
      if i :| 0 <= i < |items| && f in items[i].allergyFlags {
        assert i > 0 ==> items[1..][i - 1] == items[i];
      }
      if f in AllFlags(items[1..]) {
        var i :| 0 <= i < |items[1..]| && f in items[1..][i].allergyFlags;
        assert items[i + 1] == items[1..][i];
      }
    }
  }

  /** A ticket shows every flag of every line, each once, whether acknowledged or not. */
  lemma TicketShowsEveryFlag(db: Db, v: Id, f: string)
    requires v in db.visits && RowComplete(db, v) && db.visits[v].status != Draft
        && db.visits[v].kitchenStartTarget.Some?
    ensures
      var ticket, items := ToTicket(db, v), ItemsOf(db, v);
      && (f in ticket.allergyFlags <==> exists i :: 0 <= i < |items| && f in items[i].allergyFlags)
      && Distinct(ticket.allergyFlags)
  {
    DedupeMeaning(AllFlags(ItemsOf(db, v)));
    AllFlagsMeaning(ItemsOf(db, v), f);
  }

  /** The same queue with other acknowledgments: only `allergyAcknowledgedAt` differs. */
  function Reacknowledged(queue: seq<KitchenTicket>, acks: map<Id, Acknowledgment>): (q: seq<KitchenTicket>)
    ensures |q| == |queue|
  {
    seq(|queue|, i requires 0 <= i < |queue| =>
      queue[i].(allergyAcknowledgedAt := if queue[i].visitId in acks then Some(acks[queue[i].visitId].at) else None))
  }

  lemma TicketIgnoresAcknowledgments(db: Db, acks: map<Id, Acknowledgment>, v: Id)
    requires v in db.visits && RowComplete(db, v) && db.visits[v].status != Draft
        && db.visits[v].kitchenStartTarget.Some?
    ensures RowComplete(db.(acks := acks), v)
    ensures ToTicket(db.(acks := acks), v)
         == ToTicket(db, v).(allergyAcknowledgedAt := if v in acks then Some(acks[v].at) else None)
  {
    var other := db.(acks := acks);
    assert ToTicket(other, v).items == ToTicket(db, v).items;
  }

  lemma QueueIgnoresAcknowledgments(db: Db, acks: map<Id, Acknowledgment>, r: Id, now: Instant,
                                    queue: seq<KitchenTicket>)
    requires AllComplete(db) && IsQueue(db, r, now, queue)
    ensures AllComplete(db.(acks := acks)) && IsQueue(db.(acks := acks), r, now, Reacknowledged(queue, acks))
  {
    var other, q := db.(acks := acks), Reacknowledged(queue, acks);
    assert forall v :: v in db.visits ==> RowComplete(db, v) && RowComplete(other, v);
    forall i | 0 <= i < |q| ensures Due(other, r, q[i].visitId, now) && q[i] == ToTicket(other, q[i].visitId) {
      assert Due(db, r, queue[i].visitId, now);
      TicketIgnoresAcknowledgments(db, acks, queue[i].visitId);
    }
    forall v | Due(other, r, v, now) ensures exists i :: 0 <= i < |q| && q[i].visitId == v {
      assert Due(db, r, v, now);
      var i :| 0 <= i < |queue| && queue[i].visitId == v;
      assert q[i].visitId == v;
    }
  }

  // ---- What can take a ticket off the queue ----

  lemma {:induction false} CookingStaysCooking(s: System, acts: seq<Action>, v: Id)
    requires v in s.db.visits && s.db.visits[v].status in {KitchenStarted, FoodOut}
    ensures v in Run(s, acts).db.visits && Run(s, acts).db.visits[v].status in {KitchenStarted, FoodOut}
    decreases |acts|
  {
    if acts != [] {
      StepIsRowMove(s, acts[0], v);
      CookingStaysCooking(Step(s, acts[0]), acts[1..], v);
    }
  }

  /** An accepted ticket never vanishes: after any run, at any later time, it is still
      due under the same target, unless its food has gone out. */
  lemma AcceptedTicketStays(s: System, acts: seq<Action>, r: Id, v: Id, now: Instant, later: Instant)
    requires Due(s.db, r, v, now) && s.db.visits[v].status == KitchenStarted && now <= later
    ensures
      var after := Run(s, acts).db;
      && v in after.visits
      && (after.visits[v].status == FoodOut || (after.visits[v].status == KitchenStarted && Due(after, r, v, later)))
      && SameTargets(s.db.visits[v], after.visits[v])
  {
    CannotUncookFood(s, acts, v);
    CookingStaysCooking(s, acts, v);
    RunKeepsFields(s, acts, v);
  }

  /** This step writes new targets to `v`: a recompute, or an ETA change. */
  predicate RetimesVisit(s: System, a: Action, v: Id) {
    && a.Advance? && a.task in s.tasks
    && var task := s.tasks[a.task];
       && task.request.visit == v
       && ((task.request.Recompute? && task.phase.Retiming?) || (task.request.ChangeEta? && task.phase.Computed?))
  }

  /** A due confirmed ticket leaves the queue in one step only by being retimed past
      `now`; accepting it keeps it there. */
  lemma DueTicketLeavesOnlyByRetiming(s: System, a: Action, r: Id, v: Id, now: Instant)
    requires Due(s.db, r, v, now) && s.db.visits[v].status == Confirmed
    requires !Due(Step(s, a).db, r, v, now)
    ensures RetimesVisit(s, a, v)
    ensures v in Step(s, a).db.visits && Step(s, a).db.visits[v].kitchenStartTarget.Some?
    ensures Step(s, a).db.visits[v].kitchenStartTarget.value > now
  {
    StepIsRowMove(s, a, v);
    if a.Advance? && a.task in s.tasks {
      var task := s.tasks[a.task];
      OnlyOwnRow(s.db, task, a.now);
      if task.request.visit == v && !task.request.Recompute? && !task.request.ChangeEta? {
        OnlyRetimingMovesTargets(s.db, task, a.now);
      }
    }
  }

  /** Over runs: if a due confirmed ticket is off the queue after any run, and its food has
      not gone out, then some step of the run retimed it past `now`. */
  lemma {:induction false} MissingTicketWasRetimed(s: System, acts: seq<Action>, r: Id, v: Id, now: Instant)
      returns (k: nat)
    requires Due(s.db, r, v, now) && s.db.visits[v].status == Confirmed
    requires v in Run(s, acts).db.visits ==>
        !Due(Run(s, acts).db, r, v, now) && Run(s, acts).db.visits[v].status != FoodOut
    ensures k < |acts| && RetimesVisit(Run(s, acts[..k]), acts[k], v)
    ensures
      var after := Step(Run(s, acts[..k]), acts[k]).db;
      v in after.visits && after.visits[v].kitchenStartTarget.Some? && after.visits[v].kitchenStartTarget.value > now
    decreases |acts|
  {
    RunKeepsFields(s, acts, v);
    if acts == [] {
      assert false;
    } else {
      var next := Step(s, acts[0]);
      StepIsRowMove(s, acts[0], v);
      if !Due(next.db, r, v, now) {
        DueTicketLeavesOnlyByRetiming(s, acts[0], r, v, now);
        k := 0;
      } else if next.db.visits[v].status == KitchenStarted {
        AcceptedTicketStays(next, acts[1..], r, v, now, now);
        assert false;
      } else {
        var rest := MissingTicketWasRetimed(next, acts[1..], r, v, now);
        k := rest + 1;
        assert acts[..k][1..] == acts[1..][..rest];
      }
    }
  }

  lemma OnlyRetimingMovesTargets(db: Db, task: Task, now: Instant)
    requires !task.request.Recompute? && !task.request.ChangeEta? && task.request.visit in db.visits
    ensures
      var v, after := task.request.visit, TaskStep(db, task, now).0.visits;
      v in after && after[v].kitchenStartTarget == db.visits[v].kitchenStartTarget
  {
  }
}
