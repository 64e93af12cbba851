/** The booking protocol as a transition system.

    A `System` is the committed rows plus every request in flight. A request is a
    task: what was asked for, and a phase holding what its earlier reads returned.
    One `Advance` runs one transaction of a task, or, where the code reads in one
    statement and writes conditionally in a later one, one of the two halves. A
    transaction that throws leaves the rows alone; `Crash` drops a task anywhere.

    The write batches of confirm, reassign and the ETA change commit in one step:
    each row they condition on stays row-locked from the matching UPDATE to the
    commit (module RowLocks proves this for statement-level transactions). The
    ETA change takes its row claim before it reads the order; because the claim is
    locked until commit, reading the order first and claiming at commit allows
    every outcome the code allows (Services.RecomputeForEtaChange runs in the
    code's order and is proved to be such a run). */
module Protocol {
  import opened Domain
  import opened TimingEngine

  datatype Request =
    | Confirm(visit: Id, customer: Id)
    | Reassign(visit: Id, newTable: Id)
    | Accept(visit: Id, staff: Id)
    | Serve(visit: Id, staff: Id)
    | Acknowledge(visit: Id, staff: Id)
    | Recompute(visit: Id)
    | ChangeEta(visit: Id, newEta: Instant, expected: Instant)
    | ProposeTable(visit: Id, newTable: Id)
    | SetParty(visit: Id, partySize: Option<int>, arrivalEta: Option<Instant>)
    | AddItem(visit: Id, item: Item)
    | UpdateItem(visit: Id, itemId: Id, quantity: Option<int>, modifications: Option<seq<string>>,
                 flags: Option<seq<string>>)
    | RemoveItem(visit: Id, itemId: Id)
    | RefreshDraft(visit: Id, window: Instant)

  datatype Phase =
    | Ready                                     // nothing has run yet
    | Checked(table: Id)                        // confirm, reassign, propose: the table id the pre-read returned
    | GatePassed                                // serve: the allergy gate let it through
    | Unacknowledged                            // acknowledge: no row found yet
    | Available                                 // add item: the dish was found
    // recompute: the targets of the order as read, and the start target read with it
    | Retiming(retimed: Targets, seen: Option<Instant>)
    | Computed(targets: Option<Targets>)        // ETA change: the targets of the order as read
    | ClaimLost                                 // a conditional UPDATE matched no row; the row is read again
    | Finished(outcome: Outcome)
    | Crashed

  datatype Rejection =
    | NotDraft | MissingPartySize | MissingArrivalEta | MissingTable | ItemsUnavailable(items: seq<Id>)
    | TableTaken | VisitNotActive | StaleUpdate
    | NotConfirmed | NotInProgress | AllergyNotAcknowledged
    | VisitNotConfirmed | VisitNotReady | Unavailable | ItemNotFound

  datatype Outcome =
    | NotFound
    | Rejected(reason: Rejection)
    | ConfirmedVisit(alreadyConfirmed: bool)
    | ReassignedTo(table: Id, alreadyAssigned: bool)
    | KitchenAccepted(alreadyAccepted: bool)
    | FoodServed(alreadyServed: bool)
    | Acknowledged(at: Instant, alreadyAcknowledged: bool)
    | Applied(newTargets: Targets, previous: Option<Instant>)
    | Done

  datatype Task = Task(restaurant: Id, request: Request, phase: Phase)

  datatype System = System(db: Db, tasks: map<Id, Task>)

  // ---- VisitsService.confirm ----

  function ConfirmRead(db: Db, r: Id, v: Id, c: Id): Phase {
    match FindVisit(db, r, v)
    case None => Finished(NotFound)
    case Some(visit) =>
      if visit.status == Confirmed then
        if visit.customer != Some(c) then Finished(NotFound) else Finished(ConfirmedVisit(true))
      else if visit.status != Draft then Finished(Rejected(NotDraft))
      else if visit.customer != None && visit.customer != Some(c) then Finished(NotFound)
      else if visit.partySize == None then Finished(Rejected(MissingPartySize))
      else if visit.arrivalEta == None then Finished(Rejected(MissingArrivalEta))
      else if visit.table == None then Finished(Rejected(MissingTable))
      else
        var gone := UnavailableItems(db, r, ItemsOf(db, v));
        if gone != [] then Finished(Rejected(ItemsUnavailable(gone))) else Checked(visit.table.value)
  }

  function UnavailableItems(db: Db, r: Id, items: seq<Item>): seq<Id> {
    if items == [] then []
    else
      var dish := FindMenuItem(db, r, items[0].menuItem);
      var rest := UnavailableItems(db, r, items[1..]);
      if dish.Some? && dish.value.available then rest else [items[0].id] + rest
  }

  function ConfirmCommit(db: Db, r: Id, v: Id, c: Id, t: Id, now: Instant): (Db, Phase) {
    match FindVisit(db, r, v)
    case None => (db, ClaimLost)
    case Some(visit) =>
      if visit.status != Draft then (db, ClaimLost)
      else if !TableIs(db, r, t, Free) then (db, Finished(Rejected(TableTaken)))
      else
        var row := visit.(status := Confirmed, arrivalConfirmedAt := Some(now), customer := Some(c),
                          tableAssignedAt := Some(now), updatedAt := now);
        var claimed := PutTable(PutVisit(db, v, row), t, Held);
        (claimed.(events := db.events + [StatusEvent(r, v, Confirmed, c)]), Finished(ConfirmedVisit(false)))
  }

  function ConfirmReread(db: Db, r: Id, v: Id, c: Id): Phase {
    match FindVisit(db, r, v)
    case None => Finished(NotFound)
    case Some(visit) =>
      if visit.status == Confirmed && visit.customer == Some(c) then Finished(ConfirmedVisit(true))
      else Finished(Rejected(NotDraft))
  }

  // ---- TableReassignmentService.reassign ----

  function ReassignRead(db: Db, r: Id, v: Id, newTable: Id): Phase {
    match FindVisit(db, r, v)
    case None => Finished(NotFound)
    case Some(visit) =>
      if !Active(visit.status) then Finished(Rejected(VisitNotActive))
      else if visit.table == None then Finished(Rejected(VisitNotActive))
      else if visit.table == Some(newTable) then Finished(ReassignedTo(newTable, true))
      else Checked(visit.table.value)
  }

  function ReassignCommit(db: Db, r: Id, v: Id, newTable: Id, previous: Id, now: Instant): (Db, Phase) {
    if !TableIs(db, r, newTable, Free) then (db, Finished(Rejected(TableTaken)))
    else
      match FindVisit(db, r, v)
      case None => (db, Finished(Rejected(StaleUpdate)))
      case Some(visit) =>
        if visit.table != Some(previous) || !Active(visit.status) then (db, Finished(Rejected(StaleUpdate)))
        else
          var row := visit.(table := Some(newTable), tableAssignedAt := Some(now), updatedAt := now);
          var moved := PutTable(PutVisit(db, v, row), newTable, Held);
          var released := if TableIs(moved, r, previous, Held) then PutTable(moved, previous, Free) else moved;
          (released, Finished(ReassignedTo(newTable, false)))
  }

  // ---- TimingService ----

  function PrepTimes(db: Db, r: Id, items: seq<Item>): seq<real> {
    if items == [] then []
    else
      var dish := FindMenuItem(db, r, items[0].menuItem);
      [if dish.Some? then dish.value.prepTimeMinutes as real else 0.0] + PrepTimes(db, r, items[1..])
  }

  lemma {:induction false} SameMenuSamePreps(one: Db, other: Db, r: Id, items: seq<Item>)
    requires one.menu == other.menu
    ensures PrepTimes(one, r, items) == PrepTimes(other, r, items)
    decreases |items|
  {
    if items != [] {
      SameMenuSamePreps(one, other, r, items[1..]);
    }
  }

  /** `isValidBufferMinutes` on both settings. */
  function ValidBuffers(s: Settings): Option<Buffers> {
    match (s.avgPrepBufferMinutes, s.expoBufferMinutes)
    case (Some(prep), Some(expo)) => if prep >= 0.0 && expo >= 0.0 then Some(Buffers(prep, expo)) else None
    case _ => None
  }

  /** The targets of the order as it stands, for a given ETA; `None` is visit_not_ready. */
  function OrderTargets(db: Db, r: Id, v: Id, eta: Instant): Option<Targets> {
    match ValidBuffers(SettingsOf(db, r))
    case None => None
    case Some(buffers) => ComputeTimingTargets(eta, PrepTimes(db, r, ItemsOf(db, v)), buffers)
  }

  function RecomputeRead(db: Db, r: Id, v: Id): Phase {
    match FindVisit(db, r, v)
    case None => Finished(NotFound)
    case Some(visit) =>
      if visit.status != Confirmed then Finished(Rejected(VisitNotConfirmed))
      else if visit.arrivalEta == None then Finished(Rejected(VisitNotReady))
      else
        var targets := OrderTargets(db, r, v, visit.arrivalEta.value);
        if targets == None then Finished(Rejected(VisitNotReady)) else Retiming(targets.value, visit.kitchenStartTarget)
  }

  function WithTargets(row: Visit, targets: Targets): Visit {
    row.(kitchenStartTarget := Some(targets.kitchenStart), foodOutTarget := Some(targets.foodOut))
  }

  /** `seen` is the start target of the earlier read, which is what the answer reports. */
  function RecomputeWrite(db: Db, r: Id, v: Id, targets: Targets, seen: Option<Instant>, now: Instant): (Db, Phase) {
    match FindVisit(db, r, v)
    case None => (db, Finished(Rejected(VisitNotConfirmed)))
    case Some(visit) =>
      if visit.status != Confirmed then (db, Finished(Rejected(VisitNotConfirmed)))
      else
        (PutVisit(db, v, WithTargets(visit, targets).(updatedAt := now)),
         Finished(Applied(targets, seen)))
  }

  /** The claim of an ETA change matches the row. */
  predicate EtaClaims(db: Db, r: Id, v: Id, expected: Instant) {
    var visit := FindVisit(db, r, v);
    visit.Some? && visit.value.status == Confirmed && visit.value.updatedAt == expected
  }

  function ChangeEtaCommit(db: Db, r: Id, v: Id, newEta: Instant, expected: Instant, targets: Option<Targets>,
                           now: Instant): (Db, Phase) {
    if !EtaClaims(db, r, v, expected) then (db, ClaimLost)
    else
      var visit := db.visits[v];
      var row := visit.(arrivalEta := Some(newEta), updatedAt := now);
      match targets
      case None => (PutVisit(db, v, row), Finished(Rejected(VisitNotReady)))
      case Some(ts) => (PutVisit(db, v, WithTargets(row, ts)), Finished(Applied(ts, visit.kitchenStartTarget)))
  }

  function ChangeEtaReread(db: Db, r: Id, v: Id): Phase {
    match FindVisit(db, r, v)
    case None => Finished(NotFound)
    case Some(visit) => Finished(Rejected(if visit.status != Confirmed then VisitNotConfirmed else StaleUpdate))
  }

  function AcceptClaim(db: Db, r: Id, v: Id, staff: Id, now: Instant): (Db, Phase) {
    match FindVisit(db, r, v)
    case None => (db, ClaimLost)
    case Some(visit) =>
      if visit.status != Confirmed then (db, ClaimLost)
      else
        var started := PutVisit(db, v, visit.(status := KitchenStarted, updatedAt := now));
        (started.(events := db.events + [StatusEvent(r, v, KitchenStarted, staff)]), Finished(KitchenAccepted(false)))
  }

  function AcceptReread(db: Db, r: Id, v: Id): Phase {
    match FindVisit(db, r, v)
    case None => Finished(NotFound)
    case Some(visit) =>
      if visit.status in {KitchenStarted, TableSet, GuestArrived, FoodOut, Completed}
      then Finished(KitchenAccepted(true))
      else Finished(Rejected(NotConfirmed))
  }

  // ---- KitchenService ----

  function ServeGate(db: Db, r: Id, v: Id): Phase {
    match FindVisit(db, r, v)
    case None => Finished(NotFound)
    case Some(_) => if Cleared(db, v) then GatePassed else Finished(Rejected(AllergyNotAcknowledged))
  }

  function ServeClaim(db: Db, r: Id, v: Id, staff: Id, now: Instant): (Db, Phase) {
    match FindVisit(db, r, v)
    case None => (db, ClaimLost)
    case Some(visit) =>
      if visit.status != KitchenStarted then (db, ClaimLost)
      else
        var served := PutVisit(db, v, visit.(status := FoodOut, updatedAt := now));
        (served.(events := db.events + [StatusEvent(r, v, FoodOut, staff)]), Finished(FoodServed(false)))
  }

  function ServeReread(db: Db, r: Id, v: Id): Phase {
    match FindVisit(db, r, v)
    case None => Finished(NotFound)
    case Some(visit) =>
      if visit.status in {FoodOut, Completed} then Finished(FoodServed(true)) else Finished(Rejected(NotInProgress))
  }

  function AcknowledgeRead(db: Db, r: Id, v: Id): Phase {
    match FindVisit(db, r, v)
    case None => Finished(NotFound)
    case Some(_) => if v in db.acks then Finished(Acknowledged(db.acks[v].at, true)) else Unacknowledged
  }

  /** The insert either succeeds or hits the unique key and returns the row that is there. */
  function AcknowledgeInsert(db: Db, r: Id, v: Id, staff: Id, now: Instant): (Db, Phase) {
    if FindVisit(db, r, v) == None then (db, Finished(NotFound))
    else if v in db.acks then (db, Finished(Acknowledged(db.acks[v].at, true)))
    else (db.(acks := db.acks[v := Acknowledgment(staff, now)]), Finished(Acknowledged(now, false)))
  }

  // ---- Intake tools: none of them looks at the visit's status ----

  function ProposeRead(db: Db, r: Id, t: Id): Phase {
    if TableIs(db, r, t, Free) then Checked(t) else Finished(Rejected(Unavailable))
  }

  function ProposeWrite(db: Db, r: Id, v: Id, t: Id, now: Instant): Db {
    match FindVisit(db, r, v)
    case None => db
    case Some(visit) => PutVisit(db, v, visit.(table := Some(t), updatedAt := now))
  }

  function WithParty(visit: Visit, partySize: Option<int>, eta: Option<Instant>): Visit {
    visit.(partySize := if partySize.Some? then partySize else visit.partySize,
           arrivalEta := if eta.Some? then eta else visit.arrivalEta)
  }

  function SetPartyWrite(db: Db, r: Id, v: Id, partySize: Option<int>, eta: Option<Instant>, now: Instant): Db {
    match FindVisit(db, r, v)
    case None => db
    case Some(visit) => PutVisit(db, v, WithParty(visit, partySize, eta).(updatedAt := now))
  }

  /** IntakeService.processTurn: the inactivity window starts again. */
  function RefreshWrite(db: Db, r: Id, v: Id, window: Instant, now: Instant): Db {
    match FindVisit(db, r, v)
    case None => db
    case Some(visit) => PutVisit(db, v, visit.(draftExpiresAt := Some(now + window), updatedAt := now))
  }

  function IndexOf(items: seq<Item>, id: Id): (k: nat)
    ensures k <= |items|
    ensures k < |items| ==> items[k].id == id
    ensures forall i :: 0 <= i < k ==> items[i].id != id
  {
    if items == [] || items[0].id == id then 0 else 1 + IndexOf(items[1..], id)
  }

  function OrElse<T>(change: Option<T>, current: T): T {
    if change.Some? then change.value else current
  }

  function PutItems(db: Db, v: Id, items: seq<Item>): Db {
    db.(items := db.items[v := items])
  }

  function UpdateItemWrite(db: Db, r: Id, v: Id, id: Id, quantity: Option<int>,
                           modifications: Option<seq<string>>, flags: Option<seq<string>>): (Db, Phase)
  {
    var items := ItemsOf(db, v);
    var k := IndexOf(items, id);
    if FindVisit(db, r, v) == None || k == |items| then (db, Finished(Rejected(ItemNotFound)))
    else
      var line := items[k].(quantity := OrElse(quantity, items[k].quantity),
                            modifications := OrElse(modifications, items[k].modifications),
                            allergyFlags := OrElse(flags, items[k].allergyFlags));
      (PutItems(db, v, items[k := line]), Finished(Done))
  }

  function RemoveItemWrite(db: Db, r: Id, v: Id, id: Id): (Db, Phase) {
    var items := ItemsOf(db, v);
    var k := IndexOf(items, id);
    if FindVisit(db, r, v) == None || k == |items| then (db, Finished(Rejected(ItemNotFound)))
    else (PutItems(db, v, items[..k] + items[k + 1..]), Finished(Done))
  }

  // ---- One step of one task ----

  function ConfirmStep(db: Db, r: Id, v: Id, c: Id, phase: Phase, now: Instant): (Db, Phase) {
    match phase
    case Ready => (db, ConfirmRead(db, r, v, c))
    case Checked(t) => ConfirmCommit(db, r, v, c, t, now)
    case ClaimLost => (db, ConfirmReread(db, r, v, c))
    case _ => (db, phase)
  }

  function ReassignStep(db: Db, r: Id, v: Id, t: Id, phase: Phase, now: Instant): (Db, Phase) {
    match phase
    case Ready => (db, ReassignRead(db, r, v, t))
    case Checked(previous) => ReassignCommit(db, r, v, t, previous, now)
    case _ => (db, phase)
  }

  function AcceptStep(db: Db, r: Id, v: Id, staff: Id, phase: Phase, now: Instant): (Db, Phase) {
    match phase
    case Ready => AcceptClaim(db, r, v, staff, now)
    case ClaimLost => (db, AcceptReread(db, r, v))
    case _ => (db, phase)
  }

  function ServeStep(db: Db, r: Id, v: Id, staff: Id, phase: Phase, now: Instant): (Db, Phase) {
    match phase
    case Ready => (db, ServeGate(db, r, v))
    case GatePassed => ServeClaim(db, r, v, staff, now)
    case ClaimLost => (db, ServeReread(db, r, v))
    case _ => (db, phase)
  }

  function AcknowledgeStep(db: Db, r: Id, v: Id, staff: Id, phase: Phase, now: Instant): (Db, Phase) {
    match phase
    case Ready => (db, AcknowledgeRead(db, r, v))
    case Unacknowledged => AcknowledgeInsert(db, r, v, staff, now)
    case _ => (db, phase)
  }

  function RecomputeStep(db: Db, r: Id, v: Id, phase: Phase, now: Instant): (Db, Phase) {
    match phase
    case Ready => (db, RecomputeRead(db, r, v))
    case Retiming(targets, seen) => RecomputeWrite(db, r, v, targets, seen, now)
    case _ => (db, phase)
  }

  function ChangeEtaStep(db: Db, r: Id, v: Id, eta: Instant, expected: Instant, phase: Phase, now: Instant)
    : (Db, Phase)
  {
    match phase
    case Ready => (db, Computed(if FindVisit(db, r, v).Some? then OrderTargets(db, r, v, eta) else None))
    case Computed(targets) => ChangeEtaCommit(db, r, v, eta, expected, targets, now)
    case ClaimLost => (db, ChangeEtaReread(db, r, v))
    case _ => (db, phase)
  }

  function ProposeStep(db: Db, r: Id, v: Id, t: Id, phase: Phase, now: Instant): (Db, Phase) {
    match phase
    case Ready => (db, ProposeRead(db, r, t))
    case Checked(seen) => (ProposeWrite(db, r, v, seen, now), Finished(Done))
    case _ => (db, phase)
  }

  function AddItemStep(db: Db, r: Id, v: Id, item: Item, phase: Phase): (Db, Phase) {
    match phase
    case Ready =>
      var dish := FindMenuItem(db, r, item.menuItem);
      (db, if dish.Some? && dish.value.available then Available else Finished(Rejected(Unavailable)))
    case Available =>
      if FindVisit(db, r, v) == None then (db, Finished(NotFound))
      else (PutItems(db, v, ItemsOf(db, v) + [item]), Finished(Done))
    case _ => (db, phase)
  }

  /** The intake writes that take a single statement. */
  function DirectStep(db: Db, r: Id, request: Request, phase: Phase, now: Instant): (Db, Phase) {
    if phase != Ready then (db, phase)
    else
      match request
      case SetParty(v, size, eta) => (SetPartyWrite(db, r, v, size, eta, now), Finished(Done))
      case RefreshDraft(v, window) => (RefreshWrite(db, r, v, window, now), Finished(Done))
      case UpdateItem(v, id, quantity, modifications, flags) =>
        UpdateItemWrite(db, r, v, id, quantity, modifications, flags)
      case RemoveItem(v, id) => RemoveItemWrite(db, r, v, id)
      case _ => (db, phase)
  }

  function TaskStep(db: Db, task: Task, now: Instant): (Db, Phase) {
    var Task(r, request, phase) := task;
    match request
    case Confirm(v, c) => ConfirmStep(db, r, v, c, phase, now)
    case Reassign(v, t) => ReassignStep(db, r, v, t, phase, now)
    case Accept(v, staff) => AcceptStep(db, r, v, staff, phase, now)
    case Serve(v, staff) => ServeStep(db, r, v, staff, phase, now)
    case Acknowledge(v, staff) => AcknowledgeStep(db, r, v, staff, phase, now)
    case Recompute(v) => RecomputeStep(db, r, v, phase, now)
    case ChangeEta(v, eta, expected) => ChangeEtaStep(db, r, v, eta, expected, phase, now)
    case ProposeTable(v, t) => ProposeStep(db, r, v, t, phase, now)
    case AddItem(v, item) => AddItemStep(db, r, v, item, phase)
    case _ => DirectStep(db, r, request, phase, now)
  }

  // ---- Actions, steps and runs ----

  datatype Action =
    | Arrive(task: Id, restaurant: Id, request: Request)
    | Advance(task: Id, now: Instant)
    | Crash(task: Id)
    | OpenDraft(visit: Id, restaurant: Id, customer: Option<Id>, expiresAt: Instant, now: Instant)
    | EditMenu(menuItem: Id, row: MenuItem)

  /** IntakeService.start. */
  function NewDraft(r: Id, customer: Option<Id>, expiresAt: Instant, now: Instant): Visit {
    Visit(r, Draft, customer, None, None, None, None, None, None, None, Some(expiresAt), now)
  }

  /** An action that names a used id, or another restaurant's row, changes nothing. */
  function Step(s: System, a: Action): System {
    match a
    case Arrive(id, r, request) =>
      if id in s.tasks then s else s.(tasks := s.tasks[id := Task(r, request, Ready)])
    case Advance(id, now) =>
      if id !in s.tasks then s
      else
        var (db, phase) := TaskStep(s.db, s.tasks[id], now);
        System(db, s.tasks[id := s.tasks[id].(phase := phase)])
    case Crash(id) =>
      if id !in s.tasks then s else s.(tasks := s.tasks[id := s.tasks[id].(phase := Crashed)])
    case OpenDraft(v, r, customer, expiresAt, now) =>
      if v in s.db.visits then s
      else s.(db := PutVisit(s.db, v, NewDraft(r, customer, expiresAt, now)))
    case EditMenu(m, row) =>
      if m in s.db.menu && s.db.menu[m].restaurant != row.restaurant then s
      else s.(db := s.db.(menu := s.db.menu[m := row]))
  }

  function Run(s: System, acts: seq<Action>): System
    decreases |acts|
  {
    if acts == [] then s else Run(Step(s, acts[0]), acts[1..])
  }

  lemma {:induction false} RunConcat(s: System, a: seq<Action>, b: seq<Action>)
    ensures Run(s, a + b) == Run(Run(s, a), b)
    decreases |a|
  {
    if a == [] {
      assert a + b == b;
    } else {
      assert (a + b)[1..] == a[1..] + b;
      RunConcat(Step(s, a[0]), a[1..], b);
    }
  }
}
