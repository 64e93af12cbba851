/** Tenant non-interference. Every query carries `restaurantId`, inside a transaction
    scoped by `forRestaurant`. Together: running requests of restaurant r on the whole
    database is the same as running them on r's rows alone, and leaves every other
    restaurant's rows as they were. */
module Tenancy {
  import opened Domain
  import opened Protocol

  predicate Owns(db: Db, r: Id, v: Id) {
    v in db.visits && db.visits[v].restaurant == r
  }

  function EventsFor(events: seq<StatusEvent>, r: Id): seq<StatusEvent> {
    if events == [] then []
    else
      var init, last := EventsFor(events[..|events| - 1], r), events[|events| - 1];
      if last.restaurant == r then init + [last] else init
  }

  /** The rows row-level security shows to restaurant r. */
  function View(db: Db, r: Id): Db {
    Db(
      map v | v in db.visits && db.visits[v].restaurant == r :: db.visits[v],
      map t | t in db.tables && db.tables[t].restaurant == r :: db.tables[t],
      map v | v in db.items && Owns(db, r, v) :: db.items[v],
      map m | m in db.menu && db.menu[m].restaurant == r :: db.menu[m],
      map v | v in db.acks && Owns(db, r, v) :: db.acks[v],
      EventsFor(db.events, r),
      map q | q in db.restaurants && q == r :: db.restaurants[q])
  }

  function SystemView(s: System, r: Id): System {
    System(View(s.db, r), map id | id in s.tasks && s.tasks[id].restaurant == r :: s.tasks[id])
  }

  // ---- What the view shows ----

  /** Row by row: r sees its own rows, whole, and no other. */
  lemma ViewShows(db: Db, r: Id, id: Id)
    ensures
      var view := View(db, r);
      && (id in view.visits <==> id in db.visits && db.visits[id].restaurant == r)
      && (id in view.visits ==> view.visits[id] == db.visits[id])
      && (id in view.tables <==> id in db.tables && db.tables[id].restaurant == r)
      && (id in view.tables ==> view.tables[id] == db.tables[id])
      && (id in view.items <==> id in db.items && id in db.visits && db.visits[id].restaurant == r)
      && (id in view.items ==> view.items[id] == db.items[id])
      && (id in view.menu <==> id in db.menu && db.menu[id].restaurant == r)
      && (id in view.menu ==> view.menu[id] == db.menu[id])
      && (id in view.acks <==> id in db.acks && id in db.visits && db.visits[id].restaurant == r)
      && (id in view.acks ==> view.acks[id] == db.acks[id])
      && (id in view.restaurants <==> id in db.restaurants && id == r)
      && (id in view.restaurants ==> view.restaurants[id] == db.restaurants[id])
  {
  }

  /** And its own audit entries, each as often as it was written. */
  lemma {:induction false} ViewShowsEvents(events: seq<StatusEvent>, r: Id, e: StatusEvent)
    ensures multiset(EventsFor(events, r))[e] == if e.restaurant == r then multiset(events)[e] else 0
    decreases |events|
  {
    if events != [] {
      var init, last := events[..|events| - 1], events[|events| - 1];
      assert events == init + [last];
      ViewShowsEvents(init, r, e);
    }
  }

  // ---- Reads see the view and nothing else ----

  lemma LookupsSeeTheView(db: Db, r: Id, v: Id)
    ensures FindVisit(View(db, r), r, v) == FindVisit(db, r, v)
    ensures SettingsOf(View(db, r), r) == SettingsOf(db, r)
    ensures FindVisit(db, r, v).Some? ==>
              ItemsOf(View(db, r), v) == ItemsOf(db, v) && (v in View(db, r).acks <==> v in db.acks)
              && (v in db.acks ==> View(db, r).acks[v] == db.acks[v])
  {
  }

  lemma {:induction false} MenuReadsSeeTheView(db: Db, r: Id, items: seq<Item>)
    ensures UnavailableItems(View(db, r), r, items) == UnavailableItems(db, r, items)
    ensures PrepTimes(View(db, r), r, items) == PrepTimes(db, r, items)
    decreases |items|
  {
    if items != [] {
      assert FindMenuItem(View(db, r), r, items[0].menuItem) == FindMenuItem(db, r, items[0].menuItem);
      MenuReadsSeeTheView(db, r, items[1..]);
    }
  }

  lemma TargetsSeeTheView(db: Db, r: Id, v: Id, eta: Instant)
    requires FindVisit(db, r, v).Some?
    ensures OrderTargets(View(db, r), r, v, eta) == OrderTargets(db, r, v, eta)
  {
    LookupsSeeTheView(db, r, v);
    MenuReadsSeeTheView(db, r, ItemsOf(db, v));
  }

  // ---- Writes commute with the view ----

  lemma PutVisitOwnView(db: Db, v: Id, row: Visit)
    requires v in db.visits ==> db.visits[v].restaurant == row.restaurant
    requires v !in db.visits ==> v !in db.items && v !in db.acks
    ensures View(PutVisit(db, v, row), row.restaurant) == PutVisit(View(db, row.restaurant), v, row)
  {
    var after, q := PutVisit(db, v, row), row.restaurant;
    forall w | w in db.items || w in db.acks ensures Owns(after, q, w) <==> Owns(db, q, w) {}
    assert View(after, q).visits == View(db, q).visits[v := row];
    assert View(after, q).items == View(db, q).items;
    assert View(after, q).acks == View(db, q).acks;
  }

  lemma PutVisitOtherView(db: Db, v: Id, row: Visit, q: Id)
    requires v in db.visits ==> db.visits[v].restaurant == row.restaurant
    requires q != row.restaurant
    ensures View(PutVisit(db, v, row), q) == View(db, q)
  {
    var after := PutVisit(db, v, row);
    forall w ensures Owns(after, q, w) <==> Owns(db, q, w) {}
    assert View(after, q).visits == View(db, q).visits;
  }

  lemma PutVisitView(db: Db, v: Id, row: Visit, q: Id)
    requires v in db.visits ==> db.visits[v].restaurant == row.restaurant
    requires v !in db.visits ==> v !in db.items && v !in db.acks
    ensures View(PutVisit(db, v, row), q) == if q == row.restaurant then PutVisit(View(db, q), v, row) else View(db, q)
  {
    if q == row.restaurant {
      PutVisitOwnView(db, v, row);
    } else {
      PutVisitOtherView(db, v, row, q);
    }
  }

  lemma PutTableView(db: Db, t: Id, status: TableStatus, q: Id)
    requires t in db.tables
    ensures t in View(db, q).tables <==> db.tables[t].restaurant == q
    ensures View(PutTable(db, t, status), q)
         == if q == db.tables[t].restaurant then PutTable(View(db, q), t, status) else View(db, q)
  {
    var after := PutTable(db, t, status);
    assert forall w :: Owns(after, q, w) <==> Owns(db, q, w);
  }

  lemma AddEventView(db: Db, e: StatusEvent, q: Id)
    ensures View(db.(events := db.events + [e]), q)
         == if q == e.restaurant then View(db, q).(events := View(db, q).events + [e]) else View(db, q)
  {
    assert (db.events + [e])[..|db.events|] == db.events;
    assert forall w :: Owns(db.(events := db.events + [e]), q, w) <==> Owns(db, q, w);
  }

  /** A status write and its audit event, in one transaction. */
  lemma LoggedWriteView(db: Db, v: Id, row: Visit, e: StatusEvent, q: Id)
    requires v in db.visits && db.visits[v].restaurant == row.restaurant == e.restaurant
    ensures
      var put := PutVisit(db, v, row);
      View(put.(events := put.events + [e]), q)
      == if q == row.restaurant
         then var mine := PutVisit(View(db, q), v, row); mine.(events := mine.events + [e])
         else View(db, q)
  {
    PutVisitView(db, v, row, q);
    AddEventView(PutVisit(db, v, row), e, q);
  }

  lemma PutItemsView(db: Db, r: Id, v: Id, items: seq<Item>, q: Id)
    requires Owns(db, r, v)
    ensures View(PutItems(db, v, items), q) == if q == r then PutItems(View(db, q), v, items) else View(db, q)
  {
    assert forall w :: Owns(PutItems(db, v, items), q, w) <==> Owns(db, q, w);
  }

  lemma PutAckView(db: Db, r: Id, v: Id, ack: Acknowledgment, q: Id)
    requires Owns(db, r, v)
    ensures View(db.(acks := db.acks[v := ack]), q)
         == if q == r then View(db, q).(acks := View(db, q).acks[v := ack]) else View(db, q)
  {
    assert forall w :: Owns(db.(acks := db.acks[v := ack]), q, w) <==> Owns(db, q, w);
  }

  /** `after` is what the same step does to the view; other restaurants see no change. */
  predicate Confined(db: Db, task: Task, now: Instant, q: Id) {
    var (after, phase) := TaskStep(db, task, now);
    if q == task.restaurant then TaskStep(View(db, q), task, now) == (View(after, q), phase)
    else View(after, q) == View(db, q)
  }

  /** A write that replaces one row of r, as a function of that row, commutes with the view. */
  lemma RowUpdateView(db: Db, after: Db, r: Id, v: Id, row: Visit, q: Id)
    requires FindVisit(db, r, v).Some? && row.restaurant == r && after == PutVisit(db, v, row)
    ensures q == r ==> View(after, q) == PutVisit(View(db, q), v, row)
    ensures q != r ==> View(after, q) == View(db, q)
  {
    if q == r {
      PutVisitOwnView(db, v, row);
    } else {
      PutVisitOtherView(db, v, row, q);
    }
  }

  lemma ConfirmConfined(db: Db, task: Task, now: Instant, q: Id)
    requires task.request.Confirm?
    ensures Confined(db, task, now, q)
  {
    var Task(r, Confirm(v, c), phase) := task;
    LookupsSeeTheView(db, r, v);
    MenuReadsSeeTheView(db, r, ItemsOf(db, v));
    if phase.Checked? {
      var t := phase.table;
      assert TableIs(View(db, r), r, t, Free) <==> TableIs(db, r, t, Free);
      if FindVisit(db, r, v).Some? && db.visits[v].status == Draft && TableIs(db, r, t, Free) {
        var row := db.visits[v].(status := Confirmed, arrivalConfirmedAt := Some(now), customer := Some(c),
                                 tableAssignedAt := Some(now), updatedAt := now);
        PutVisitView(db, v, row, q);
        PutTableView(PutVisit(db, v, row), t, Held, q);
        AddEventView(PutTable(PutVisit(db, v, row), t, Held), StatusEvent(r, v, Confirmed, c), q);
      }
    }
  }

  lemma ReassignConfined(db: Db, task: Task, now: Instant, q: Id)
    requires task.request.Reassign?
    ensures Confined(db, task, now, q)
  {
    var Task(r, Reassign(v, t), phase) := task;
    LookupsSeeTheView(db, r, v);
    if phase.Checked? {
      var previous := phase.table;
      assert TableIs(View(db, r), r, t, Free) <==> TableIs(db, r, t, Free);
      if FindVisit(db, r, v).Some? && db.visits[v].table == Some(previous) && Active(db.visits[v].status)
          && TableIs(db, r, t, Free) {
        var row := db.visits[v].(table := Some(t), tableAssignedAt := Some(now), updatedAt := now);
        PutVisitView(db, v, row, q);
        PutTableView(PutVisit(db, v, row), t, Held, q);
        var moved := PutTable(PutVisit(db, v, row), t, Held);
        assert q == r ==> (TableIs(View(moved, r), r, previous, Held) <==> TableIs(moved, r, previous, Held));
        if TableIs(moved, r, previous, Held) {
          PutTableView(moved, previous, Free, q);
        }
      }
    }
  }

  lemma RecomputeConfined(db: Db, task: Task, now: Instant, q: Id)
    requires task.request.Recompute?
    ensures Confined(db, task, now, q)
  {
    var Task(r, Recompute(v), phase) := task;
    LookupsSeeTheView(db, r, v);
    if FindVisit(db, r, v).Some? {
      match phase
      case Ready =>
        if db.visits[v].arrivalEta.Some? { TargetsSeeTheView(db, r, v, db.visits[v].arrivalEta.value); }
      case Retiming(targets, _) =>
        var row := WithTargets(db.visits[v], targets).(updatedAt := now);
        RowUpdateView(db, PutVisit(db, v, row), r, v, row, q);
      case _ =>
    }
  }

  lemma ChangeEtaConfined(db: Db, task: Task, now: Instant, q: Id)
    requires task.request.ChangeEta?
    ensures Confined(db, task, now, q)
  {
    var Task(r, ChangeEta(v, eta, expected), phase) := task;
    LookupsSeeTheView(db, r, v);
    if FindVisit(db, r, v).Some? {
      match phase
      case Ready => TargetsSeeTheView(db, r, v, eta);
      case Computed(targets) =>
        var row := db.visits[v].(arrivalEta := Some(eta), updatedAt := now);
        var written := if targets.Some? then WithTargets(row, targets.value) else row;
        RowUpdateView(db, PutVisit(db, v, written), r, v, written, q);
      case _ =>
    }
  }

  lemma AcceptConfined(db: Db, task: Task, now: Instant, q: Id)
    requires task.request.Accept?
    ensures Confined(db, task, now, q)
  {
    var Task(r, Accept(v, staff), phase) := task;
    LookupsSeeTheView(db, r, v);
    if phase.Ready? && FindVisit(db, r, v).Some? && db.visits[v].status == Confirmed {
      var row := db.visits[v].(status := KitchenStarted, updatedAt := now);
      LoggedWriteView(db, v, row, StatusEvent(r, v, KitchenStarted, staff), q);
    }
  }

  lemma ServeReadsSeeTheView(db: Db, r: Id, v: Id)
    ensures ServeGate(View(db, r), r, v) == ServeGate(db, r, v)
    ensures ServeReread(View(db, r), r, v) == ServeReread(db, r, v)
  {
    LookupsSeeTheView(db, r, v);
  }

  lemma ServeClaimConfined(db: Db, r: Id, v: Id, staff: Id, now: Instant, q: Id)
    ensures
      var (after, phase) := ServeClaim(db, r, v, staff, now);
      if q == r then ServeClaim(View(db, q), r, v, staff, now) == (View(after, q), phase)
          else View(after, q) == View(db, q)
  {
    LookupsSeeTheView(db, r, v);
    if FindVisit(db, r, v).Some? && db.visits[v].status == KitchenStarted {
      var row := db.visits[v].(status := FoodOut, updatedAt := now);
      LoggedWriteView(db, v, row, StatusEvent(r, v, FoodOut, staff), q);
    }
  }

  lemma ServeConfined(db: Db, task: Task, now: Instant, q: Id)
    requires task.request.Serve?
    ensures Confined(db, task, now, q)
  {
    var Task(r, Serve(v, staff), phase) := task;
    match phase
    case GatePassed => ServeClaimConfined(db, r, v, staff, now, q);
    case _ => ServeReadsSeeTheView(db, r, v);
  }

  lemma AcknowledgeConfined(db: Db, task: Task, now: Instant, q: Id)
    requires task.request.Acknowledge?
    ensures Confined(db, task, now, q)
  {
    var Task(r, Acknowledge(v, staff), phase) := task;
    LookupsSeeTheView(db, r, v);
    if phase.Unacknowledged? && FindVisit(db, r, v).Some? {
      PutAckView(db, r, v, Acknowledgment(staff, now), q);
    }
  }

  lemma ProposeConfined(db: Db, task: Task, now: Instant, q: Id)
    requires task.request.ProposeTable?
    ensures Confined(db, task, now, q)
  {
    var Task(r, ProposeTable(v, t), phase) := task;
    LookupsSeeTheView(db, r, v);
    match phase
    case Ready => assert TableIs(View(db, r), r, t, Free) <==> TableIs(db, r, t, Free);
    case Checked(seen) =>
      if FindVisit(db, r, v).Some? {
        PutVisitView(db, v, db.visits[v].(table := Some(seen), updatedAt := now), q);
      }
    case _ =>
  }

  lemma SetPartyConfined(db: Db, task: Task, now: Instant, q: Id)
    requires task.request.SetParty?
    ensures Confined(db, task, now, q)
  {
    var Task(r, SetParty(v, size, eta), phase) := task;
    LookupsSeeTheView(db, r, v);
    if phase.Ready? && FindVisit(db, r, v).Some? {
      RowUpdateView(db, SetPartyWrite(db, r, v, size, eta, now), r, v,
                    WithParty(db.visits[v], size, eta).(updatedAt := now), q);
    }
  }

  lemma RefreshConfined(db: Db, task: Task, now: Instant, q: Id)
    requires task.request.RefreshDraft?
    ensures Confined(db, task, now, q)
  {
    var Task(r, RefreshDraft(v, window), phase) := task;
    LookupsSeeTheView(db, r, v);
    if phase.Ready? && FindVisit(db, r, v).Some? {
      RowUpdateView(db, RefreshWrite(db, r, v, window, now), r, v,
                    db.visits[v].(draftExpiresAt := Some(now + window), updatedAt := now), q);
    }
  }

  lemma AddItemConfined(db: Db, task: Task, now: Instant, q: Id)
    requires task.request.AddItem?
    ensures Confined(db, task, now, q)
  {
    var Task(r, AddItem(v, item), phase) := task;
    match phase
    case Ready => assert FindMenuItem(View(db, r), r, item.menuItem) == FindMenuItem(db, r, item.menuItem);
    case Available =>
      LookupsSeeTheView(db, r, v);
      if FindVisit(db, r, v).Some? {
        PutItemsView(db, r, v, ItemsOf(db, v) + [item], q);
      }
    case _ =>
  }

  lemma EditItemConfined(db: Db, task: Task, now: Instant, q: Id)
    requires task.request.UpdateItem? || task.request.RemoveItem?
    ensures Confined(db, task, now, q)
  {
    var Task(r, request, phase) := task;
    var v, id := request.visit, request.itemId;
    LookupsSeeTheView(db, r, v);
    var items := ItemsOf(db, v);
    var k := IndexOf(items, id);
    if phase.Ready? && FindVisit(db, r, v).Some? && k < |items| {
      if request.RemoveItem? {
        PutItemsView(db, r, v, items[..k] + items[k + 1..], q);
      } else {
        var line := items[k].(quantity := OrElse(request.quantity, items[k].quantity),
                              modifications := OrElse(request.modifications, items[k].modifications),
                              allergyFlags := OrElse(request.flags, items[k].allergyFlags));
        PutItemsView(db, r, v, items[k := line], q);
      }
    }
  }

  lemma TaskStepConfined(db: Db, task: Task, now: Instant, q: Id)
    ensures Confined(db, task, now, q)
  {
    match task.request
    case Confirm(_, _) => ConfirmConfined(db, task, now, q);
    case Reassign(_, _) => ReassignConfined(db, task, now, q);
    case Recompute(_) => RecomputeConfined(db, task, now, q);
    case ChangeEta(_, _, _) => ChangeEtaConfined(db, task, now, q);
    case Accept(_, _) => AcceptConfined(db, task, now, q);
    case Serve(_, _) => ServeConfined(db, task, now, q);
    case Acknowledge(_, _) => AcknowledgeConfined(db, task, now, q);
    case AddItem(_, _) => AddItemConfined(db, task, now, q);
    case ProposeTable(_, _) => ProposeConfined(db, task, now, q);
    case SetParty(_, _, _) => SetPartyConfined(db, task, now, q);
    case RefreshDraft(_, _) => RefreshConfined(db, task, now, q);
    case _ => EditItemConfined(db, task, now, q);
  }

  // ---- Whole runs ----

  /** An action of restaurant r that names no row or request of another one. The ids
      of new drafts, dishes and requests are fresh, as uuids are. */
  predicate Scoped(s: System, a: Action, r: Id) {
    match a
    case Arrive(id, q, _) => q == r && id !in s.tasks
    case Advance(id, _) => id in s.tasks && s.tasks[id].restaurant == r
    case Crash(id) => id in s.tasks && s.tasks[id].restaurant == r
    case OpenDraft(v, q, _, _, _) => q == r && v !in s.db.visits && v !in s.db.items && v !in s.db.acks
    case EditMenu(m, row) => row.restaurant == r && (m in s.db.menu ==> s.db.menu[m].restaurant == r)
  }

  predicate ScopedAlong(s: System, acts: seq<Action>, r: Id)
    decreases |acts|
  {
    acts == [] || (Scoped(s, acts[0], r) && ScopedAlong(Step(s, acts[0]), acts[1..], r))
  }

  lemma EditMenuView(db: Db, m: Id, row: MenuItem, q: Id)
    requires m in db.menu ==> db.menu[m].restaurant == row.restaurant
    ensures View(db.(menu := db.menu[m := row]), q)
         == if q == row.restaurant then View(db, q).(menu := View(db, q).menu[m := row]) else View(db, q)
  {
    var after := db.(menu := db.menu[m := row]);
    assert forall w :: Owns(after, q, w) <==> Owns(db, q, w);
  }

  lemma StepCommutesWithView(s: System, a: Action, r: Id)
    requires Scoped(s, a, r)
    ensures SystemView(Step(s, a), r) == Step(SystemView(s, r), a)
  {
    match a
    case Advance(id, now) => TaskStepConfined(s.db, s.tasks[id], now, r);
    case OpenDraft(v, _, customer, expiresAt, now) => PutVisitView(s.db, v, NewDraft(r, customer, expiresAt, now), r);
    case EditMenu(m, row) => EditMenuView(s.db, m, row, r);
    case _ =>
  }

  lemma StepLeavesOthers(s: System, a: Action, r: Id, q: Id)
    requires Scoped(s, a, r) && q != r
    ensures SystemView(Step(s, a), q) == SystemView(s, q)
  {
    match a
    case Advance(id, now) => TaskStepConfined(s.db, s.tasks[id], now, q);
    case OpenDraft(v, _, customer, expiresAt, now) => PutVisitView(s.db, v, NewDraft(r, customer, expiresAt, now), q);
    case EditMenu(m, row) => EditMenuView(s.db, m, row, q);
    case _ =>
  }

  /** A run of r's requests on the whole deployment looks, to r, like the same run on
      r's rows alone: nothing r does or answers depends on another tenant. */
  lemma {:induction false} RunCommutesWithView(s: System, acts: seq<Action>, r: Id)
    requires ScopedAlong(s, acts, r)
    ensures SystemView(Run(s, acts), r) == Run(SystemView(s, r), acts)
    decreases |acts|
  {
    if acts != [] {
      StepCommutesWithView(s, acts[0], r);
      RunCommutesWithView(Step(s, acts[0]), acts[1..], r);
    }
  }

  /** Two deployments that agree on r give every request of r the same answer, and
      still agree on r afterwards. */
  lemma SameTenantSameAnswers(one: System, other: System, acts: seq<Action>, r: Id)
    requires SystemView(one, r) == SystemView(other, r)
    requires ScopedAlong(one, acts, r) && ScopedAlong(other, acts, r)
    ensures SystemView(Run(one, acts), r) == SystemView(Run(other, acts), r)
  {
    RunCommutesWithView(one, acts, r);
    RunCommutesWithView(other, acts, r);
  }

  /** A run of r's requests leaves the rows and requests of every other restaurant alone. */
  lemma {:induction false} OtherTenantsUntouched(s: System, acts: seq<Action>, r: Id, q: Id)
    requires ScopedAlong(s, acts, r) && q != r
    ensures SystemView(Run(s, acts), q) == SystemView(s, q)
    decreases |acts|
  {
    if acts != [] {
      StepLeavesOthers(s, acts[0], r, q);
      OtherTenantsUntouched(Step(s, acts[0]), acts[1..], r, q);
    }
  }
}
