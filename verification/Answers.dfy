/** Every request, step by step: exactly when it gives which answer, and exactly what it
    writes. Written with the rows and with literal statuses, not with the lookups and
    predicates the steps are built from. */
module Answers {
  import opened Domain
  import opened TimingEngine
  import opened Protocol
  import opened TargetHistory
  import opened OrderTiming

  /** The visit row a query of restaurant r can see. */
  predicate Mine(db: Db, r: Id, v: Id) {
    v in db.visits && db.visits[v].restaurant == r
  }

  predicate FreeTable(db: Db, r: Id, t: Id) {
    t in db.tables && db.tables[t].restaurant == r && db.tables[t].status == Free
  }

  /** `after` is `db` with another row for `v`. */
  predicate OnlyRow(db: Db, after: Db, v: Id, row: Visit) {
    after == db.(visits := db.visits[v := row])
  }

  predicate Logs(db: Db, after: Db, e: StatusEvent) {
    after.events == db.events + [e]
  }

  // ---- Confirm ----

  predicate DishAvailable(db: Db, r: Id, line: Item) {
    OnMenu(db, r, line) && db.menu[line.menuItem].available
  }

  predicate EveryDishAvailable(db: Db, r: Id, v: Id) {
    forall i :: v in db.items && 0 <= i < |db.items[v]| ==> DishAvailable(db, r, db.items[v][i])
  }

  lemma {:induction false} UnavailableMeaning(db: Db, r: Id, items: seq<Item>, id: Id)
    ensures id in UnavailableItems(db, r, items)
       <==> exists i :: 0 <= i < |items| && items[i].id == id && !DishAvailable(db, r, items[i])
    decreases |items|
  {
    if items != [] {
      UnavailableMeaning(db, r, items[1..], id);
      if i :| 0 <= i < |items| && items[i].id == id && !DishAvailable(db, r, items[i]) {
        assert i > 0 ==> items[1..][i - 1] == items[i];
      }
      if id in UnavailableItems(db, r, items[1..]) {
        var i :| 0 <= i < |items[1..]| && items[1..][i].id == id && !DishAvailable(db, r, items[1..][i]);
        assert items[i + 1] == items[1..][i];
      }
    }
  }

  lemma {:induction false} NoneUnavailableIff(db: Db, r: Id, items: seq<Item>)
    ensures UnavailableItems(db, r, items) == [] <==> forall i :: 0 <= i < |items| ==> DishAvailable(db, r, items[i])
    decreases |items|
  {
    if items != [] {
      NoneUnavailableIff(db, r, items[1..]);
      forall i | 0 < i < |items| ensures items[i] == items[1..][i - 1] {}
    }
  }

  predicate Filled(row: Visit) {
    row.partySize.Some? && row.arrivalEta.Some? && row.table.Some?
  }

  /** A draft this customer may confirm: nobody's yet, or the customer's own. */
  predicate Confirmable(db: Db, r: Id, v: Id, c: Id) {
    Mine(db, r, v) && db.visits[v].status == Draft
        && (db.visits[v].customer == None || db.visits[v].customer == Some(c))
  }

  /** The pre-read goes on to the claim if and only if the draft is the customer's to take,
      complete, and every dish of it is available now; and each refusal has its own cause. */
  lemma ConfirmReadIff(db: Db, r: Id, v: Id, c: Id, now: Instant)
    ensures
      var (after, phase) := TaskStep(db, Task(r, Confirm(v, c), Ready), now);
      && after == db
      && (phase.Checked? <==> Confirmable(db, r, v, c) && Filled(db.visits[v]) && EveryDishAvailable(db, r, v))
      && (phase.Checked? ==> db.visits[v].table == Some(phase.table))
      && (phase == Finished(ConfirmedVisit(true)) <==>
            Mine(db, r, v) && db.visits[v].status == Confirmed && db.visits[v].customer == Some(c))
      && (phase == Finished(NotFound) <==>
            || !Mine(db, r, v)
            || (db.visits[v].status == Confirmed && db.visits[v].customer != Some(c))
            || (db.visits[v].status == Draft && db.visits[v].customer.Some? && db.visits[v].customer != Some(c)))
      && (phase == Finished(Rejected(NotDraft)) <==>
            Mine(db, r, v) && db.visits[v].status != Draft && db.visits[v].status != Confirmed)
      && (phase == Finished(Rejected(MissingPartySize)) <==>
            Confirmable(db, r, v, c) && db.visits[v].partySize == None)
      && (phase == Finished(Rejected(MissingArrivalEta)) <==>
            Confirmable(db, r, v, c) && db.visits[v].partySize.Some? && db.visits[v].arrivalEta == None)
      && (phase == Finished(Rejected(MissingTable)) <==>
            Confirmable(db, r, v, c) && db.visits[v].partySize.Some? && db.visits[v].arrivalEta.Some?
                && db.visits[v].table == None)
      && (phase.Finished? && phase.outcome.Rejected? && phase.outcome.reason.ItemsUnavailable? <==>
            Confirmable(db, r, v, c) && Filled(db.visits[v]) && !EveryDishAvailable(db, r, v))
  {
    NoneUnavailableIff(db, r, ItemsOf(db, v));
  }

  /** The refused lines are those whose dish is missing from the menu or unavailable. */
  lemma ConfirmNamesTheLinesIff(db: Db, r: Id, v: Id, c: Id, now: Instant, id: Id)
    requires
      var phase := TaskStep(db, Task(r, Confirm(v, c), Ready), now).1;
      phase.Finished? && phase.outcome.Rejected? && phase.outcome.reason.ItemsUnavailable?
    ensures
      id in TaskStep(db, Task(r, Confirm(v, c), Ready), now).1.outcome.reason.items <==>
        exists i :: v in db.items && 0 <= i < |db.items[v]| && db.items[v][i].id == id
            && !DishAvailable(db, r, db.items[v][i])
  {
    UnavailableMeaning(db, r, ItemsOf(db, v), id);
  }

  lemma ConfirmCommitIff(db: Db, r: Id, v: Id, c: Id, t: Id, now: Instant)
    ensures
      var (after, phase) := TaskStep(db, Task(r, Confirm(v, c), Checked(t)), now);
      var claims := Mine(db, r, v) && db.visits[v].status == Draft;
      && (phase == Finished(ConfirmedVisit(false)) <==> claims && FreeTable(db, r, t))
      && (phase == Finished(Rejected(TableTaken)) <==> claims && !FreeTable(db, r, t))
      && (phase == ClaimLost <==> !claims)
      && (phase != Finished(ConfirmedVisit(false)) ==> after == db)
      && (phase == Finished(ConfirmedVisit(false)) ==>
            && v in after.visits && after.visits == db.visits[v := after.visits[v]]
            && after.visits[v] == db.visits[v].(status := Confirmed, customer := Some(c),
                                                arrivalConfirmedAt := Some(now), tableAssignedAt := Some(now),
                                                updatedAt := now)
            && after.tables == db.tables[t := db.tables[t].(status := Held)]
            && Logs(db, after, StatusEvent(r, v, Confirmed, c))
            && after == db.(visits := after.visits, tables := after.tables, events := after.events))
  {
  }

  lemma ConfirmRereadIff(db: Db, r: Id, v: Id, c: Id, now: Instant)
    ensures
      var (after, phase) := TaskStep(db, Task(r, Confirm(v, c), ClaimLost), now);
      && after == db
      && (phase == Finished(NotFound) <==> !Mine(db, r, v))
      && (phase == Finished(ConfirmedVisit(true)) <==>
            Mine(db, r, v) && db.visits[v].status == Confirmed && db.visits[v].customer == Some(c))
      && (phase == Finished(Rejected(NotDraft)) <==>
            Mine(db, r, v) && !(db.visits[v].status == Confirmed && db.visits[v].customer == Some(c)))
  {
  }

  predicate BookedFresh(task: Task) {
    task.request.Confirm? && (task.phase.Checked? || task.phase == Finished(ConfirmedVisit(false)))
  }

  /** Over any run: a confirm that claims, or that answers alreadyConfirmed false, found at
      its own read step a complete draft of which every dish was available. */
  lemma {:induction false} BookingsWereAvailable(s: System, acts: seq<Action>, id: Id) returns (k: nat)
    requires id !in s.tasks && id in Run(s, acts).tasks && BookedFresh(Run(s, acts).tasks[id])
    ensures FirstStep(s, acts, k, id)
    ensures
      var task, db := Run(s, acts).tasks[id], Run(s, acts[..k]).db;
      && Confirmable(db, task.restaurant, task.request.visit, task.request.customer)
      && Filled(db.visits[task.request.visit])
      && EveryDishAvailable(db, task.restaurant, task.request.visit)
      && (task.phase.Checked? ==> db.visits[task.request.visit].table == Some(task.phase.table))
    decreases |acts|
  {
    if acts == [] {
      assert false;
    } else {
      var n := |acts| - 1;
      var before := Run(s, acts[..n]);
      RunBack(s, acts);
      if id in before.tasks && BookedFresh(before.tasks[id]) {
        BookedFreshStays(before, acts[n], id);
        k := BookingsWereAvailable(s, acts[..n], id);
        assert acts[..n][..k] == acts[..k];
      } else {
        k := n;
        NewlyBookedFresh(before, acts[n], id);
        var Task(r, Confirm(v, c), _) := before.tasks[id];
        ConfirmReadIff(before.db, r, v, c, acts[n].now);
      }
    }
  }

  lemma BookedFreshStays(s: System, a: Action, id: Id)
    requires id in s.tasks && BookedFresh(s.tasks[id]) && BookedFresh(Step(s, a).tasks[id])
    ensures Step(s, a).tasks[id].restaurant == s.tasks[id].restaurant
        && Step(s, a).tasks[id].request == s.tasks[id].request
    ensures Step(s, a).tasks[id].phase.Checked? ==> Step(s, a).tasks[id] == s.tasks[id]
  {
  }

  lemma NewlyBookedFresh(s: System, a: Action, id: Id)
    requires id in Step(s, a).tasks && BookedFresh(Step(s, a).tasks[id])
        && (id in s.tasks ==> !BookedFresh(s.tasks[id]))
    ensures a.Advance? && a.task == id && id in s.tasks && s.tasks[id].phase == Ready && s.tasks[id].request.Confirm?
    ensures Step(s, a).tasks[id].request == s.tasks[id].request
        && Step(s, a).tasks[id].restaurant == s.tasks[id].restaurant
    ensures TaskStep(s.db, s.tasks[id], a.now).1 == Step(s, a).tasks[id].phase && Step(s, a).tasks[id].phase.Checked?
  {
    if a.Advance? && a.task == id && id in s.tasks && s.tasks[id].request.Confirm? && s.tasks[id].phase == Ready {
      var Task(r, Confirm(v, c), _) := s.tasks[id];
      ConfirmReadIff(s.db, r, v, c, a.now);
    }
  }

  // ---- Reassign ----

  predicate AtATable(row: Visit) {
    && row.table.Some?
    && (row.status == Confirmed || row.status == KitchenStarted || row.status == TableSet || row.status == GuestArrived)
  }

  lemma ReassignReadIff(db: Db, r: Id, v: Id, t: Id, now: Instant)
    ensures
      var (after, phase) := TaskStep(db, Task(r, Reassign(v, t), Ready), now);
      && after == db
      && (phase == Finished(NotFound) <==> !Mine(db, r, v))
      && (phase == Finished(Rejected(VisitNotActive)) <==> Mine(db, r, v) && !AtATable(db.visits[v]))
      && (phase == Finished(ReassignedTo(t, true)) <==>
          Mine(db, r, v) && AtATable(db.visits[v]) && db.visits[v].table == Some(t))
      && (phase.Checked? <==> Mine(db, r, v) && AtATable(db.visits[v]) && db.visits[v].table != Some(t))
      && (phase.Checked? ==> db.visits[v].table == Some(phase.table))
  {
  }

  lemma ReassignCommitIff(db: Db, r: Id, v: Id, t: Id, previous: Id, now: Instant)
    ensures
      var (after, phase) := TaskStep(db, Task(r, Reassign(v, t), Checked(previous)), now);
      var stays := Mine(db, r, v) && AtATable(db.visits[v]) && db.visits[v].table == Some(previous);
      && (phase == Finished(Rejected(TableTaken)) <==> !FreeTable(db, r, t))
      && (phase == Finished(Rejected(StaleUpdate)) <==> FreeTable(db, r, t) && !stays)
      && (phase == Finished(ReassignedTo(t, false)) <==> FreeTable(db, r, t) && stays)
      && (phase != Finished(ReassignedTo(t, false)) ==> after == db)
      && (phase == Finished(ReassignedTo(t, false)) ==>
            && after == db.(visits := after.visits, tables := after.tables)
            && v in after.visits && after.visits == db.visits[v := after.visits[v]]
            && after.visits[v] == db.visits[v].(table := Some(t), tableAssignedAt := Some(now), updatedAt := now)
            && t in after.tables && after.tables[t] == db.tables[t].(status := if t == previous then Free else Held)
            && after.tables.Keys == db.tables.Keys
            && forall u :: u in db.tables && u != t ==>
                 after.tables[u] == if u == previous && db.tables[u].restaurant == r && db.tables[u].status == Held
                                    then db.tables[u].(status := Free) else db.tables[u])
  {
  }

  // ---- Accept ----

  lemma AcceptIff(db: Db, r: Id, v: Id, staff: Id, now: Instant)
    ensures
      var (after, phase) := TaskStep(db, Task(r, Accept(v, staff), Ready), now);
      && (phase == Finished(KitchenAccepted(false)) <==> Mine(db, r, v) && db.visits[v].status == Confirmed)
      && (phase == ClaimLost <==> !(Mine(db, r, v) && db.visits[v].status == Confirmed))
      && (phase == ClaimLost ==> after == db)
      && (phase != ClaimLost ==>
            && after.visits == db.visits[v := db.visits[v].(status := KitchenStarted, updatedAt := now)]
            && Logs(db, after, StatusEvent(r, v, KitchenStarted, staff))
            && after == db.(visits := after.visits, events := after.events))
  {
  }

  /** Accepting again is safe once the kitchen has started, and refused before that or
      after the visit fell through. */
  lemma AcceptRereadIff(db: Db, r: Id, v: Id, staff: Id, now: Instant)
    ensures
      var (after, phase) := TaskStep(db, Task(r, Accept(v, staff), ClaimLost), now);
      && after == db
      && (phase == Finished(NotFound) <==> !Mine(db, r, v))
      && (phase == Finished(Rejected(NotConfirmed)) <==>
            && Mine(db, r, v)
            && (db.visits[v].status == Draft || db.visits[v].status == Confirmed
                || db.visits[v].status == Cancelled || db.visits[v].status == NoShow))
      && (phase == Finished(KitchenAccepted(true)) <==>
            && Mine(db, r, v)
            && (db.visits[v].status == KitchenStarted || db.visits[v].status == TableSet
                || db.visits[v].status == GuestArrived
                || db.visits[v].status == FoodOut || db.visits[v].status == Completed))
  {
  }

  // ---- Food out ----

  /** No line of the order carries a flag. */
  predicate NoFlags(db: Db, v: Id) {
    forall i :: v in db.items && 0 <= i < |db.items[v]| ==> db.items[v][i].allergyFlags == []
  }

  lemma ClearedIff(db: Db, v: Id)
    ensures Cleared(db, v) <==> v in db.acks || NoFlags(db, v)
  {
  }

  lemma ServeGateIff(db: Db, r: Id, v: Id, staff: Id, now: Instant)
    ensures
      var (after, phase) := TaskStep(db, Task(r, Serve(v, staff), Ready), now);
      && after == db
      && (phase == Finished(NotFound) <==> !Mine(db, r, v))
      && (phase == GatePassed <==> Mine(db, r, v) && (v in db.acks || NoFlags(db, v)))
      && (phase == Finished(Rejected(AllergyNotAcknowledged)) <==> Mine(db, r, v) && v !in db.acks && !NoFlags(db, v))
  {
    ClearedIff(db, v);
  }

  lemma ServeClaimIff(db: Db, r: Id, v: Id, staff: Id, now: Instant)
    ensures
      var (after, phase) := TaskStep(db, Task(r, Serve(v, staff), GatePassed), now);
      && (phase == Finished(FoodServed(false)) <==> Mine(db, r, v) && db.visits[v].status == KitchenStarted)
      && (phase == ClaimLost <==> !(Mine(db, r, v) && db.visits[v].status == KitchenStarted))
      && (phase == ClaimLost ==> after == db)
      && (phase != ClaimLost ==>
            && after.visits == db.visits[v := db.visits[v].(status := FoodOut, updatedAt := now)]
            && Logs(db, after, StatusEvent(r, v, FoodOut, staff))
            && after == db.(visits := after.visits, events := after.events))
  {
  }

  lemma ServeRereadIff(db: Db, r: Id, v: Id, staff: Id, now: Instant)
    ensures
      var (after, phase) := TaskStep(db, Task(r, Serve(v, staff), ClaimLost), now);
      && after == db
      && (phase == Finished(NotFound) <==> !Mine(db, r, v))
      && (phase == Finished(FoodServed(true)) <==>
            Mine(db, r, v) && (db.visits[v].status == FoodOut || db.visits[v].status == Completed))
      && (phase == Finished(Rejected(NotInProgress)) <==>
            Mine(db, r, v) && db.visits[v].status != FoodOut && db.visits[v].status != Completed)
  {
  }

  // ---- Acknowledge ----

  /** The first acknowledgment is kept, and every later one reports its time. */
  lemma AcknowledgeReadIff(db: Db, r: Id, v: Id, staff: Id, now: Instant)
    ensures
      var (after, phase) := TaskStep(db, Task(r, Acknowledge(v, staff), Ready), now);
      && after == db
      && (phase == Finished(NotFound) <==> !Mine(db, r, v))
      && (phase == Unacknowledged <==> Mine(db, r, v) && v !in db.acks)
      && (Mine(db, r, v) && v in db.acks ==> phase == Finished(Acknowledged(db.acks[v].at, true)))
  {
  }

  lemma AcknowledgeInsertIff(db: Db, r: Id, v: Id, staff: Id, now: Instant)
    ensures
      var (after, phase) := TaskStep(db, Task(r, Acknowledge(v, staff), Unacknowledged), now);
      if !Mine(db, r, v) then after == db && phase == Finished(NotFound)
      else if v in db.acks then after == db && phase == Finished(Acknowledged(db.acks[v].at, true))
      else after == db.(acks := db.acks[v := Acknowledgment(staff, now)]) && phase == Finished(Acknowledged(now, false))
  {
  }

  // ---- Recompute and ETA change ----

  predicate TargetsExist(db: Db, r: Id, v: Id) {
    HasOrder(db, v) && EveryDishTimed(db, r, v) && BuffersStored(db, r)
  }

  lemma RecomputeReadIff(db: Db, r: Id, v: Id, now: Instant)
    ensures
      var (after, phase) := TaskStep(db, Task(r, Recompute(v), Ready), now);
      var confirmed := Mine(db, r, v) && db.visits[v].status == Confirmed;
      && after == db
      && (phase == Finished(NotFound) <==> !Mine(db, r, v))
      && (phase == Finished(Rejected(VisitNotConfirmed)) <==> Mine(db, r, v) && !confirmed)
      && (phase == Finished(Rejected(VisitNotReady)) <==>
            confirmed && !(db.visits[v].arrivalEta.Some? && TargetsExist(db, r, v)))
      && (phase.Retiming? <==> confirmed && db.visits[v].arrivalEta.Some? && TargetsExist(db, r, v))
      && (phase.Retiming? ==>
            && SuitsOrder(db, r, v, db.visits[v].arrivalEta.value, phase.retimed)
            && phase.seen == db.visits[v].kitchenStartTarget)
  {
    if Mine(db, r, v) && db.visits[v].arrivalEta.Some? {
      var eta := db.visits[v].arrivalEta.value;
      TargetsExistIff(db, r, v, eta);
      if OrderTargets(db, r, v, eta).Some? { TargetsSuitTheOrder(db, r, v, eta); }
    }
  }

  lemma RecomputeWriteIff(db: Db, r: Id, v: Id, ts: Targets, seen: Option<Instant>, now: Instant)
    ensures
      var (after, phase) := TaskStep(db, Task(r, Recompute(v), Retiming(ts, seen)), now);
      if Mine(db, r, v) && db.visits[v].status == Confirmed then
        && phase == Finished(Applied(ts, seen))
        && OnlyRow(db, after, v, db.visits[v].(kitchenStartTarget := Some(ts.kitchenStart),
                                               foodOutTarget := Some(ts.foodOut), updatedAt := now))
      else phase == Finished(Rejected(VisitNotConfirmed)) && after == db
  {
  }

  lemma EtaReadIff(db: Db, r: Id, v: Id, eta: Instant, expected: Instant, now: Instant)
    ensures
      var (after, phase) := TaskStep(db, Task(r, ChangeEta(v, eta, expected), Ready), now);
      && after == db && phase.Computed?
      && (phase.targets.Some? <==> Mine(db, r, v) && TargetsExist(db, r, v))
      && (phase.targets.Some? ==> SuitsOrder(db, r, v, eta, phase.targets.value))
  {
    TargetsExistIff(db, r, v, eta);
    if OrderTargets(db, r, v, eta).Some? { TargetsSuitTheOrder(db, r, v, eta); }
  }

  lemma EtaCommitIff(db: Db, r: Id, v: Id, eta: Instant, expected: Instant, targets: Option<Targets>, now: Instant)
    ensures
      var (after, phase) := TaskStep(db, Task(r, ChangeEta(v, eta, expected), Computed(targets)), now);
      if !(Mine(db, r, v) && db.visits[v].status == Confirmed && db.visits[v].updatedAt == expected) then
        after == db && phase == ClaimLost
      else
        var row := db.visits[v].(arrivalEta := Some(eta), updatedAt := now);
        match targets
        case None => OnlyRow(db, after, v, row) && phase == Finished(Rejected(VisitNotReady))
        case Some(ts) =>
          && OnlyRow(db, after, v, row.(kitchenStartTarget := Some(ts.kitchenStart), foodOutTarget := Some(ts.foodOut)))
          && phase == Finished(Applied(ts, row.kitchenStartTarget))
  {
  }

  lemma EtaRereadIff(db: Db, r: Id, v: Id, eta: Instant, expected: Instant, now: Instant)
    ensures
      var (after, phase) := TaskStep(db, Task(r, ChangeEta(v, eta, expected), ClaimLost), now);
      && after == db
      && (phase == Finished(NotFound) <==> !Mine(db, r, v))
      && (phase == Finished(Rejected(VisitNotConfirmed)) <==> Mine(db, r, v) && db.visits[v].status != Confirmed)
      && (phase == Finished(Rejected(StaleUpdate)) <==> Mine(db, r, v) && db.visits[v].status == Confirmed)
  {
  }

  // ---- Intake ----

  lemma ProposeIff(db: Db, r: Id, v: Id, t: Id, seen: Id, now: Instant)
    ensures
      var (after, phase) := TaskStep(db, Task(r, ProposeTable(v, t), Ready), now);
      after == db && phase == if FreeTable(db, r, t) then Checked(t) else Finished(Rejected(Unavailable))
    ensures
      var (after, phase) := TaskStep(db, Task(r, ProposeTable(v, t), Checked(seen)), now);
      && phase == Finished(Done)
      && (!Mine(db, r, v) ==> after == db)
      && (Mine(db, r, v) ==> OnlyRow(db, after, v, db.visits[v].(table := Some(seen), updatedAt := now)))
  {
  }

  /** Given fields are written, the others keep what they held. */
  lemma SetPartyWrites(db: Db, r: Id, v: Id, size: Option<int>, eta: Option<Instant>, now: Instant)
    ensures
      var (after, phase) := TaskStep(db, Task(r, SetParty(v, size, eta), Ready), now);
      && phase == Finished(Done)
      && (!Mine(db, r, v) ==> after == db)
      && (Mine(db, r, v) ==>
            && v in after.visits && after == db.(visits := db.visits[v := after.visits[v]])
            && var row, was := after.visits[v], db.visits[v];
               && row == was.(partySize := row.partySize, arrivalEta := row.arrivalEta, updatedAt := now)
               && (size.Some? ==> row.partySize == size) && (size.None? ==> row.partySize == was.partySize)
               && (eta.Some? ==> row.arrivalEta == eta) && (eta.None? ==> row.arrivalEta == was.arrivalEta))
  {
  }

  lemma RefreshWrites(db: Db, r: Id, v: Id, window: Instant, now: Instant)
    ensures
      var (after, phase) := TaskStep(db, Task(r, RefreshDraft(v, window), Ready), now);
      && phase == Finished(Done)
      && (!Mine(db, r, v) ==> after == db)
      && (Mine(db, r, v) ==> OnlyRow(db, after, v,
                                     db.visits[v].(draftExpiresAt := Some(now + window), updatedAt := now)))
  {
  }

  lemma AddItemIff(db: Db, r: Id, v: Id, item: Item, now: Instant)
    ensures
      var (after, phase) := TaskStep(db, Task(r, AddItem(v, item), Ready), now);
      after == db && phase == if DishAvailable(db, r, item) then Available else Finished(Rejected(Unavailable))
    ensures
      var (after, phase) := TaskStep(db, Task(r, AddItem(v, item), Available), now);
      && (!Mine(db, r, v) ==> after == db && phase == Finished(NotFound))
      && (Mine(db, r, v) ==>
            && phase == Finished(Done)
            && after == db.(items := db.items[v := (if v in db.items then db.items[v] else []) + [item]]))
  {
  }

  /** Line `k` of the order of `v` is the first with this id. */
  predicate LineAt(db: Db, v: Id, id: Id, k: nat) {
    v in db.items && k < |db.items[v]| && db.items[v][k].id == id && forall i :: 0 <= i < k ==> db.items[v][i].id != id
  }

  predicate HasLine(db: Db, v: Id, id: Id) {
    exists k :: v in db.items && 0 <= k < |db.items[v]| && db.items[v][k].id == id
  }

  predicate OnlyOrder(db: Db, after: Db, v: Id) {
    v in after.items && after == db.(items := db.items[v := after.items[v]])
  }

  /** An edit changes the given fields of that one line; every other line, every other order
      and every other row stay. Without such a line nothing changes. */
  lemma UpdateItemIff(db: Db, r: Id, v: Id, id: Id, quantity: Option<int>, modifications: Option<seq<string>>,
                      flags: Option<seq<string>>, now: Instant)
    ensures
      var (after, phase) := TaskStep(db, Task(r, UpdateItem(v, id, quantity, modifications, flags), Ready), now);
      && (phase == Finished(Done) <==> Mine(db, r, v) && HasLine(db, v, id))
      && (phase == Finished(Rejected(ItemNotFound)) <==> !(Mine(db, r, v) && HasLine(db, v, id)))
      && (phase != Finished(Done) ==> after == db)
      && (phase == Finished(Done) ==>
            && OnlyOrder(db, after, v) && |after.items[v]| == |db.items[v]|
            && forall i :: 0 <= i < |db.items[v]| ==>
                 if LineAt(db, v, id, i) then LineEdited(db.items[v][i], after.items[v][i], quantity, modifications,
                                                         flags)
                 else after.items[v][i] == db.items[v][i])
  {
  }

  predicate LineEdited(was: Item, line: Item, quantity: Option<int>, modifications: Option<seq<string>>,
                       flags: Option<seq<string>>) {
    && line.id == was.id && line.menuItem == was.menuItem
    && (quantity.Some? ==> line.quantity == quantity.value) && (quantity.None? ==> line.quantity == was.quantity)
    && (modifications.Some? ==> line.modifications == modifications.value)
    && (modifications.None? ==> line.modifications == was.modifications)
    && (flags.Some? ==> line.allergyFlags == flags.value) && (flags.None? ==> line.allergyFlags == was.allergyFlags)
  }

  lemma RemoveItemIff(db: Db, r: Id, v: Id, id: Id, now: Instant)
    ensures
      var (after, phase) := TaskStep(db, Task(r, RemoveItem(v, id), Ready), now);
      && (phase == Finished(Done) <==> Mine(db, r, v) && HasLine(db, v, id))
      && (phase == Finished(Rejected(ItemNotFound)) <==> !(Mine(db, r, v) && HasLine(db, v, id)))
      && (phase != Finished(Done) ==> after == db)
      && (phase == Finished(Done) ==>
            OnlyOrder(db, after, v)
            && exists k: nat :: LineAt(db, v, id, k) && after.items[v] == db.items[v][..k] + db.items[v][k + 1..])
  {
    if Mine(db, r, v) && HasLine(db, v, id) {
      assert LineAt(db, v, id, IndexOf(db.items[v], id));
    }
  }

  // ---- The other actions ----

  lemma OpenDraftOpens(s: System, v: Id, r: Id, customer: Option<Id>, expiresAt: Instant, now: Instant)
    ensures
      var after := Step(s, OpenDraft(v, r, customer, expiresAt, now));
      if v in s.db.visits then after == s
      else
        && v in after.db.visits && after == s.(db := s.db.(visits := s.db.visits[v := after.db.visits[v]]))
        && var row := after.db.visits[v];
           && row.restaurant == r && row.status == Draft && row.customer == customer
           && row.partySize == None && row.arrivalEta == None && row.table == None
           && row.arrivalConfirmedAt == None && row.tableAssignedAt == None
           && row.kitchenStartTarget == None && row.foodOutTarget == None
           && row.draftExpiresAt == Some(expiresAt) && row.updatedAt == now
  {
  }

  /** A crash stops its request for good and writes nothing. */
  lemma CrashedStaysCrashed(s: System, id: Id, now: Instant)
    requires id in s.tasks
    ensures
      var crashed := Step(s, Crash(id));
      && crashed == s.(tasks := s.tasks[id := s.tasks[id].(phase := Crashed)])
      && Step(crashed, Advance(id, now)) == crashed
  {
    var crashed := Step(s, Crash(id));
    assert TaskStep(s.db, crashed.tasks[id], now) == (s.db, Crashed);
    assert crashed.tasks[id := crashed.tasks[id].(phase := Crashed)] == crashed.tasks;
  }
}
