/** The FOH dashboard: the server's read model (dashboard.service.ts) and the client's
    fold of socket events (dashboard-events.ts), and why the two agree. */
module Dashboard {
  import opened Domain
  import opened Protocol
  import opened RowHistory
  import opened Completeness
  import opened Ordering
  import opened KitchenQueue
  import opened Tenancy
  import TimingEngine

  datatype DashboardItem = DashboardItem(id: Id, menuItem: Id, name: string, quantity: int,
                                         modifications: seq<string>, allergyFlags: seq<string>)

  datatype DashboardVisit = DashboardVisit(
    id: Id,
    status: VisitStatus,
    partySize: int,
    arrivalEta: Instant,
    tableId: Id,
    tableLabel: string,
    items: seq<DashboardItem>,
    kitchenStartTarget: Option<Instant>,
    foodOutTarget: Option<Instant>)

  // ---- The server's list ----

  /** The WHERE clause of "Tonight - Inbound". */
  predicate Inbound(db: Db, r: Id, v: Id) {
    v in db.visits && db.visits[v].restaurant == r && Booked(db.visits[v].status) && db.visits[v].table.Some?
  }

  function ToDashboardItem(db: Db, r: Id, item: Item): DashboardItem {
    var dish := FindMenuItem(db, r, item.menuItem);
    DashboardItem(item.id, item.menuItem, if dish.Some? then dish.value.name else "",
                  item.quantity, item.modifications, item.allergyFlags)
  }

  function ToDashboard(db: Db, v: Id): DashboardVisit
    requires v in db.visits && RowComplete(db, v) && db.visits[v].status != Draft
  {
    var visit, items := db.visits[v], ItemsOf(db, v);
    DashboardVisit(v, visit.status, visit.partySize.value, visit.arrivalEta.value, visit.table.value,
                   db.tables[visit.table.value].name,
                   seq(|items|, i requires 0 <= i < |items| => ToDashboardItem(db, visit.restaurant, items[i])),
                   visit.kitchenStartTarget, visit.foodOutTarget)
  }

  function Shown(db: Db, r: Id, v: Id): DashboardVisit
    requires AllComplete(db) && Inbound(db, r, v)
  {
    assert RowComplete(db, v);
    ToDashboard(db, v)
  }

  /** `list` holds exactly the inbound visits, each once, soonest arrival first. */
  ghost predicate IsInbound(db: Db, r: Id, list: seq<DashboardVisit>)
    requires AllComplete(db)
  {
    && (forall i :: 0 <= i < |list| ==> Inbound(db, r, list[i].id) && list[i] == Shown(db, r, list[i].id))
    && (forall v :: Inbound(db, r, v) ==> exists i :: 0 <= i < |list| && list[i].id == v)
    && UniqueIds(list)
    && (forall i, j :: 0 <= i < j < |list| ==> list[i].arrivalEta <= list[j].arrivalEta)
  }

  predicate UniqueIds(list: seq<DashboardVisit>) {
    forall i, j :: 0 <= i < j < |list| ==> list[i].id != list[j].id
  }

  function InboundVisits(db: Db, r: Id): (rows: set<Id>)
    ensures forall v :: v in rows <==> Inbound(db, r, v)
  {
    set v | v in db.visits && Inbound(db, r, v)
  }

  function Arrivals(db: Db, r: Id): (eta: map<Id, Instant>)
    requires AllComplete(db)
    ensures eta.Keys == InboundVisits(db, r)
    ensures forall v :: v in eta ==> Inbound(db, r, v) && eta[v] == Shown(db, r, v).arrivalEta
  {
    map v | v in InboundVisits(db, r) :: Shown(db, r, v).arrivalEta
  }

  /** dashboard.service.ts, listInboundVisits. */
  method ListInboundVisits(db: Db, r: Id) returns (list: seq<DashboardVisit>)
    requires AllComplete(db)
    ensures IsInbound(db, r, list)
  {
    var ids := OrderBy(InboundVisits(db, r), Arrivals(db, r));
    assert forall i :: 0 <= i < |ids| ==> ids[i] in ids;
    list := [];
    for k := 0 to |ids|
      invariant |list| == k
      invariant forall i :: 0 <= i < k ==> Inbound(db, r, ids[i]) && list[i] == Shown(db, r, ids[i])
    {
      list := list + [Shown(db, r, ids[k])];
    }
    forall i | 0 <= i < |list| ensures list[i].id == ids[i] && list[i].arrivalEta == Arrivals(db, r)[ids[i]] {}
    forall v | Inbound(db, r, v) ensures exists i :: 0 <= i < |list| && list[i].id == v {
      assert v in ids;
      var i :| 0 <= i < |ids| && ids[i] == v;
      assert list[i].id == v;
    }
  }

  // ---- The list by its rows ----

  /** A visit is listed if and only if it is r's, has a table, and is somewhere between
      its confirmation and its completion. */
  lemma OnDashboardIff(db: Db, r: Id, list: seq<DashboardVisit>, v: Id)
    requires AllComplete(db) && IsInbound(db, r, list)
    ensures
      (exists i :: 0 <= i < |list| && list[i].id == v) <==>
        && v in db.visits && db.visits[v].restaurant == r && db.visits[v].table != None
        && db.visits[v].status != Draft && db.visits[v].status != Completed
        && db.visits[v].status != Cancelled && db.visits[v].status != NoShow
  {
    assert (exists i :: 0 <= i < |list| && list[i].id == v) <==> Inbound(db, r, v);
  }

  lemma DashboardShowsItsRow(db: Db, r: Id, list: seq<DashboardVisit>, i: nat)
    requires AllComplete(db) && IsInbound(db, r, list) && i < |list|
    ensures
      var shown := list[i];
      && shown.id in db.visits
      && var row := db.visits[shown.id];
         && row.status == shown.status
         && row.partySize == Some(shown.partySize) && row.arrivalEta == Some(shown.arrivalEta)
         && row.table == Some(shown.tableId)
         && shown.tableId in db.tables && db.tables[shown.tableId].name == shown.tableLabel
         && row.kitchenStartTarget == shown.kitchenStartTarget && row.foodOutTarget == shown.foodOutTarget
  {
    assert Inbound(db, r, list[i].id) && RowComplete(db, list[i].id);
  }

  lemma DashboardShowsItsLines(db: Db, r: Id, list: seq<DashboardVisit>, i: nat)
    requires AllComplete(db) && IsInbound(db, r, list) && i < |list|
    ensures |list[i].items| == if list[i].id in db.items then |db.items[list[i].id]| else 0
    ensures forall k :: 0 <= k < |list[i].items| ==>
              var shown, line := list[i].items[k], db.items[list[i].id][k];
              && shown.id == line.id && shown.menuItem == line.menuItem && shown.quantity == line.quantity
              && shown.modifications == line.modifications && shown.allergyFlags == line.allergyFlags
              && (line.menuItem in db.menu && db.menu[line.menuItem].restaurant == r ==>
                    shown.name == db.menu[line.menuItem].name)
  {
    assert Inbound(db, r, list[i].id) && RowComplete(db, list[i].id);
  }

  // ---- The client's fold ----

  datatype Message =
    | VisitConfirmed(visit: Id)
    | TableReassigned(visit: Id, previousTable: Id, newTable: Id)
    | TimingRecomputed(visit: Id, kitchenStartTarget: Instant, foodOutTarget: Instant)
    | KitchenAccept(visit: Id)
    | Unrecognised

  function FindIndex(list: seq<DashboardVisit>, v: Id): (k: nat)
    ensures k <= |list|
    ensures k < |list| ==> list[k].id == v
    ensures forall i :: 0 <= i < k ==> list[i].id != v
  {
    if list == [] || list[0].id == v then 0 else 1 + FindIndex(list[1..], v)
  }

  /** `None` is the null that makes the caller fetch the list again. */
  function Apply(list: seq<DashboardVisit>, message: Message): Option<seq<DashboardVisit>> {
    match message
    case VisitConfirmed(v) => if FindIndex(list, v) < |list| then Some(list) else None
    case TimingRecomputed(v, start, out) =>
      var k := FindIndex(list, v);
      if k == |list| then None
      else Some(list[k := list[k].(kitchenStartTarget := Some(start), foodOutTarget := Some(out))])
    case KitchenAccept(v) =>
      var k := FindIndex(list, v);
      if k == |list| then None else Some(list[k := list[k].(status := KitchenStarted)])
    case TableReassigned(_, _, _) => None
    case Unrecognised => None
  }

  function Fold(list: seq<DashboardVisit>, messages: seq<Message>): Option<seq<DashboardVisit>>
    decreases |messages|
  {
    if messages == [] then Some(list)
    else
      match Apply(list, messages[0])
      case None => None
      case Some(next) => Fold(next, messages[1..])
  }

  // ---- What one event does ----

  lemma FindIndexIs(list: seq<DashboardVisit>, v: Id, k: nat)
    requires UniqueIds(list) && k < |list| && list[k].id == v
    ensures FindIndex(list, v) == k
  {
  }

  /** The row the message is about is redrawn in place; nothing else moves. */
  lemma RedrawnListIsInbound(before: Db, after: Db, r: Id, list: seq<DashboardVisit>, v: Id, k: nat)
    requires AllComplete(before) && AllComplete(after) && IsInbound(before, r, list)
    requires k < |list| && list[k].id == v
    requires forall w :: Inbound(after, r, w) <==> Inbound(before, r, w)
    requires forall w :: w != v && Inbound(after, r, w) && Inbound(before, r, w) ==>
        Shown(after, r, w) == Shown(before, r, w)
    requires Inbound(after, r, v) && Inbound(before, r, v)
        && Shown(after, r, v).arrivalEta == Shown(before, r, v).arrivalEta
    ensures IsInbound(after, r, list[k := Shown(after, r, v)])
  {
    var next := list[k := Shown(after, r, v)];
    forall i | 0 <= i < |next|
      ensures Inbound(after, r, next[i].id) && next[i] == Shown(after, r, next[i].id)
      ensures next[i].arrivalEta == list[i].arrivalEta && next[i].id == list[i].id
    {
      assert Inbound(before, r, list[i].id) && list[i] == Shown(before, r, list[i].id);
    }
    forall w | Inbound(after, r, w) ensures exists i :: 0 <= i < |next| && next[i].id == w {
      assert Inbound(before, r, w);
      var i :| 0 <= i < |list| && list[i].id == w;
      assert next[i].id == w;
    }
  }

  /** Same items, dishes and tables: what the dashboard joins in. */
  predicate SameJoins(before: Db, after: Db) {
    before.items == after.items && before.menu == after.menu && before.tables == after.tables
  }

  lemma SameRowSameDashboard(before: Db, after: Db, w: Id)
    requires SameJoins(before, after) && w in before.visits && w in after.visits && after.visits[w] == before.visits[w]
    requires RowComplete(before, w) && before.visits[w].status != Draft
    ensures RowComplete(after, w) && ToDashboard(after, w) == ToDashboard(before, w)
  {
    assert ToDashboard(after, w).items == ToDashboard(before, w).items;
  }

  /** The row of an inbound visit is rewritten; it stays inbound with the same ETA. */
  predicate Rewrites(before: Db, after: Db, r: Id, v: Id) {
    && SameJoins(before, after)
    && Inbound(before, r, v) && Inbound(after, r, v)
    && after.visits == before.visits[v := after.visits[v]]
    && after.visits[v].partySize == before.visits[v].partySize
    && after.visits[v].table == before.visits[v].table
    && CompleteRow(after.visits[v])
  }

  lemma RewriteSyncs(before: Db, after: Db, r: Id, list: seq<DashboardVisit>, v: Id)
    requires AllComplete(before) && IsInbound(before, r, list) && Rewrites(before, after, r, v)
    requires after.visits[v].arrivalEta == before.visits[v].arrivalEta
    ensures AllComplete(after) && FindIndex(list, v) < |list|
    ensures Inbound(after, r, v) && IsInbound(after, r, list[FindIndex(list, v) := Shown(after, r, v)])
  {
    forall w | w in after.visits ensures RowComplete(after, w) {
      assert RowComplete(before, w);
    }
    forall w | w != v && Inbound(before, r, w) && Inbound(after, r, w)
        ensures Shown(after, r, w) == Shown(before, r, w) {
      assert RowComplete(before, w);
      SameRowSameDashboard(before, after, w);
    }
    var k :| 0 <= k < |list| && list[k].id == v;
    FindIndexIs(list, v, k);
    RedrawnListIsInbound(before, after, r, list, v, k);
  }

  /** The accept event leaves the client with exactly the server's list. */
  lemma AcceptEventSyncs(before: Db, r: Id, v: Id, staff: Id, now: Instant, list: seq<DashboardVisit>)
    requires AllComplete(before) && IsInbound(before, r, list)
    requires FindVisit(before, r, v).Some? && before.visits[v].status == Confirmed
    ensures
      var after, next := AcceptClaim(before, r, v, staff, now).0, Apply(list, KitchenAccept(v));
      AllComplete(after) && next.Some? && IsInbound(after, r, next.value)
  {
    var after := AcceptClaim(before, r, v, staff, now).0;
    assert RowComplete(before, v);
    assert Rewrites(before, after, r, v);
    RewriteSyncs(before, after, r, list, v);
    var k := FindIndex(list, v);
    assert list[k] == ToDashboard(before, v);
    assert ToDashboard(after, v).items == ToDashboard(before, v).items;
    assert ToDashboard(after, v) == list[k].(status := KitchenStarted);
  }

  /** So does the event of a recompute that leaves the ETA alone. */
  lemma RecomputeEventSyncs(before: Db, r: Id, v: Id, targets: TimingEngine.Targets, seen: Option<Instant>,
                            now: Instant, list: seq<DashboardVisit>)
    requires AllComplete(before) && IsInbound(before, r, list)
    requires FindVisit(before, r, v).Some? && before.visits[v].status == Confirmed
    ensures
      var after := RecomputeWrite(before, r, v, targets, seen, now).0;
      var next := Apply(list, TimingRecomputed(v, targets.kitchenStart, targets.foodOut));
      AllComplete(after) && next.Some? && IsInbound(after, r, next.value)
  {
    var after := RecomputeWrite(before, r, v, targets, seen, now).0;
    assert RowComplete(before, v);
    assert Rewrites(before, after, r, v);
    RewriteSyncs(before, after, r, list, v);
    var k := FindIndex(list, v);
    assert list[k] == ToDashboard(before, v);
    assert ToDashboard(after, v).items == ToDashboard(before, v).items;
  }

  /** The event of an ETA change carries the targets but not the ETA: the client agrees
      with the server afterwards exactly when the ETA did not change. */
  lemma EtaEventSyncsIff(before: Db, r: Id, v: Id, eta: Instant, expected: Instant, targets: TimingEngine.Targets,
                         now: Instant,
                         list: seq<DashboardVisit>)
    requires AllComplete(before) && IsInbound(before, r, list) && EtaClaims(before, r, v, expected)
    ensures
      var after := ChangeEtaCommit(before, r, v, eta, expected, Some(targets), now).0;
      var next := Apply(list, TimingRecomputed(v, targets.kitchenStart, targets.foodOut));
      && AllComplete(after) && next.Some?
      && (IsInbound(after, r, next.value) <==> before.visits[v].arrivalEta == Some(eta))
  {
    var after := ChangeEtaCommit(before, r, v, eta, expected, Some(targets), now).0;
    assert RowComplete(before, v);
    assert Inbound(before, r, v) && Rewrites(before, after, r, v);
    forall w | w in after.visits ensures RowComplete(after, w) {
      assert RowComplete(before, w);
    }
    var k :| 0 <= k < |list| && list[k].id == v;
    FindIndexIs(list, v, k);
    assert list[k] == ToDashboard(before, v);
    if before.visits[v].arrivalEta == Some(eta) {
      RewriteSyncs(before, after, r, list, v);
      assert ToDashboard(after, v).items == ToDashboard(before, v).items;
    } else {
      var next := Apply(list, TimingRecomputed(v, targets.kitchenStart, targets.foodOut)).value;
      assert next[k].id == v && next[k].arrivalEta != ToDashboard(after, v).arrivalEta;
    }
  }

  /** Food going out is announced under a name the client drops unread: whoever was in
      step with the server no longer is, until the next fetch. */
  lemma FoodOutLeavesTheClientBehind(before: Db, r: Id, v: Id, staff: Id, now: Instant, list: seq<DashboardVisit>)
    requires AllComplete(before) && IsInbound(before, r, list)
    requires FindVisit(before, r, v).Some? && before.visits[v].status == KitchenStarted
    ensures
      var after := ServeClaim(before, r, v, staff, now).0;
      AllComplete(after) && !IsInbound(after, r, list)
  {
    var after := ServeClaim(before, r, v, staff, now).0;
    assert RowComplete(before, v);
    assert Rewrites(before, after, r, v);
    RewriteSyncs(before, after, r, list, v);
    var k := FindIndex(list, v);
    assert list[k] == Shown(before, r, v) && Shown(after, r, v).status == FoodOut;
  }

  // ---- Whole runs ----

  /** What r's dashboards take in after this step: the events of accepts and recomputes. */
  function Announced(s: System, a: Action, r: Id): seq<Message> {
    if !(a.Advance? && a.task in s.tasks && s.tasks[a.task].restaurant == r) then []
    else
      var task := s.tasks[a.task];
      var before, after := task.phase, TaskStep(s.db, task, a.now).1;
      if before.Finished? || !after.Finished? then []
      else if after.outcome == KitchenAccepted(false) then [KitchenAccept(task.request.visit)]
      else if after.outcome.Applied? then
        [TimingRecomputed(task.request.visit, after.outcome.newTargets.kitchenStart, after.outcome.newTargets.foodOut)]
      else []
  }

  /** Nothing r's dashboard shows has changed. */
  predicate Unseen(before: Db, after: Db, r: Id)
    requires AllComplete(before) && AllComplete(after)
  {
    && (forall v :: v in before.visits && Inbound(before, r, v) ==>
          Inbound(after, r, v) && Shown(after, r, v) == Shown(before, r, v))
    && (forall v :: v in after.visits && Inbound(after, r, v) ==> Inbound(before, r, v))
  }

  /** The step is an accept or a plain recompute of r, or shows nothing to r. */
  predicate Followed(s: System, a: Action, r: Id)
    requires AllComplete(s.db) && AllComplete(Step(s, a).db)
  {
    || (a.Advance? && a.task in s.tasks && s.tasks[a.task].restaurant == r
        && (s.tasks[a.task].request.Accept? || s.tasks[a.task].request.Recompute?))
    || (Announced(s, a, r) == [] && Unseen(s.db, Step(s, a).db, r))
  }

  lemma UnseenKeepsTheList(before: Db, after: Db, r: Id, list: seq<DashboardVisit>)
    requires AllComplete(before) && AllComplete(after) && IsInbound(before, r, list) && Unseen(before, after, r)
    ensures IsInbound(after, r, list)
  {
  }

  /** Exactly that: after a step of which nothing is announced, the list the client had is
      still the server's if and only if nothing it shows has changed. */
  lemma SilentStepIff(before: Db, after: Db, r: Id, list: seq<DashboardVisit>)
    requires AllComplete(before) && AllComplete(after) && IsInbound(before, r, list)
    ensures IsInbound(after, r, list) <==> Unseen(before, after, r)
  {
    if IsInbound(after, r, list) {
      forall v | Inbound(before, r, v) ensures Inbound(after, r, v) && Shown(after, r, v) == Shown(before, r, v) {
        var i :| 0 <= i < |list| && list[i].id == v;
        assert list[i] == Shown(before, r, v) && list[i] == Shown(after, r, v);
      }
      forall v | Inbound(after, r, v) ensures Inbound(before, r, v) {
        var i :| 0 <= i < |list| && list[i].id == v;
        assert Inbound(before, r, list[i].id);
      }
    } else if Unseen(before, after, r) {
      UnseenKeepsTheList(before, after, r, list);
    }
  }

  /** An intake edit of a booked visit is announced to nobody: the client keeps up if and
      only if the edit leaves the party size and the ETA as they were. */
  lemma SetPartyIsSilentIff(before: Db, r: Id, v: Id, size: Option<int>, eta: Option<Instant>, now: Instant,
                            list: seq<DashboardVisit>)
    requires AllComplete(before) && IsInbound(before, r, list) && Inbound(before, r, v)
    ensures
      var after := SetPartyWrite(before, r, v, size, eta, now);
      && AllComplete(after)
      && (IsInbound(after, r, list) <==>
            after.visits[v].partySize == before.visits[v].partySize
                && after.visits[v].arrivalEta == before.visits[v].arrivalEta)
  {
    var after := SetPartyWrite(before, r, v, size, eta, now);
    forall w | w in after.visits ensures RowComplete(after, w) {
      assert RowComplete(before, w);
    }
    SilentStepIff(before, after, r, list);
    assert RowComplete(before, v) && RowComplete(after, v);
    assert ToDashboard(after, v).items == ToDashboard(before, v).items;
    forall w | w != v && Inbound(before, r, w)
        ensures Inbound(after, r, w) && Shown(after, r, w) == Shown(before, r, w) {
      assert RowComplete(before, w);
      SameRowSameDashboard(before, after, w);
    }
    assert Shown(after, r, v).partySize == after.visits[v].partySize.value;
  }

  /** The list after the messages of one step is the server's, and no row moved. */
  ghost predicate Synced(list: seq<DashboardVisit>, messages: seq<Message>, after: Db, r: Id) {
    var next := Fold(list, messages);
    AllComplete(after) && next.Some? && IsInbound(after, r, next.value) && SameIds(list, next.value)
  }

  predicate SameIds(list: seq<DashboardVisit>, next: seq<DashboardVisit>) {
    |next| == |list| && forall i :: 0 <= i < |list| ==> next[i].id == list[i].id
  }

  lemma AcceptStepSyncs(s: System, a: Action, r: Id, list: seq<DashboardVisit>)
    requires AllComplete(s.db) && IsInbound(s.db, r, list)
    requires a.Advance? && a.task in s.tasks && s.tasks[a.task].restaurant == r && s.tasks[a.task].request.Accept?
    ensures Synced(list, Announced(s, a, r), Step(s, a).db, r)
  {
    var Task(_, Accept(v, staff), phase) := s.tasks[a.task];
    if phase.Ready? && FindVisit(s.db, r, v).Some? && s.db.visits[v].status == Confirmed {
      AcceptEventSyncs(s.db, r, v, staff, a.now, list);
      FoldOne(list, KitchenAccept(v));
      ApplyKeepsIds(list, KitchenAccept(v));
      assert Announced(s, a, r) == [KitchenAccept(v)];
    } else {
      assert Step(s, a).db == s.db && Announced(s, a, r) == [];
    }
  }

  /** A recompute writes and is announced, or does neither. */
  lemma RecomputeStepIs(s: System, a: Action, r: Id)
    requires a.Advance? && a.task in s.tasks && s.tasks[a.task].restaurant == r && s.tasks[a.task].request.Recompute?
    ensures
      var v, phase := s.tasks[a.task].request.visit, s.tasks[a.task].phase;
      if phase.Retiming? && FindVisit(s.db, r, v).Some? && s.db.visits[v].status == Confirmed then
        && Step(s, a).db == RecomputeWrite(s.db, r, v, phase.retimed, phase.seen, a.now).0
        && Announced(s, a, r) == [TimingRecomputed(v, phase.retimed.kitchenStart, phase.retimed.foodOut)]
      else Step(s, a).db == s.db && Announced(s, a, r) == []
  {
  }

  lemma RecomputeStepSyncs(s: System, a: Action, r: Id, list: seq<DashboardVisit>)
    requires AllComplete(s.db) && IsInbound(s.db, r, list)
    requires a.Advance? && a.task in s.tasks && s.tasks[a.task].restaurant == r && s.tasks[a.task].request.Recompute?
    ensures Synced(list, Announced(s, a, r), Step(s, a).db, r)
  {
    var v, phase := s.tasks[a.task].request.visit, s.tasks[a.task].phase;
    RecomputeStepIs(s, a, r);
    if phase.Retiming? && FindVisit(s.db, r, v).Some? && s.db.visits[v].status == Confirmed {
      AnnouncedRecomputeSyncs(s.db, r, v, phase.retimed, phase.seen, a.now, list);
    }
  }

  lemma AnnouncedRecomputeSyncs(db: Db, r: Id, v: Id, ts: TimingEngine.Targets, seen: Option<Instant>, now: Instant,
                                list: seq<DashboardVisit>)
    requires AllComplete(db) && IsInbound(db, r, list)
    requires FindVisit(db, r, v).Some? && db.visits[v].status == Confirmed
    ensures Synced(list, [TimingRecomputed(v, ts.kitchenStart, ts.foodOut)],
                   RecomputeWrite(db, r, v, ts, seen, now).0, r)
  {
    var message := TimingRecomputed(v, ts.kitchenStart, ts.foodOut);
    RecomputeEventSyncs(db, r, v, ts, seen, now, list);
    FoldOne(list, message);
    ApplyKeepsIds(list, message);
  }

  lemma ApplyKeepsIds(list: seq<DashboardVisit>, message: Message)
    requires Apply(list, message).Some?
    ensures SameIds(list, Apply(list, message).value)
  {
  }

  lemma FollowedStepSyncs(s: System, a: Action, r: Id, list: seq<DashboardVisit>)
    requires AllComplete(s.db) && IsInbound(s.db, r, list)
    requires AllComplete(Step(s, a).db) && Followed(s, a, r)
    ensures Synced(list, Announced(s, a, r), Step(s, a).db, r)
  {
    if a.Advance? && a.task in s.tasks && s.tasks[a.task].restaurant == r && s.tasks[a.task].request.Accept? {
      AcceptStepSyncs(s, a, r, list);
    } else if a.Advance? && a.task in s.tasks && s.tasks[a.task].restaurant == r && s.tasks[a.task].request.Recompute? {
      RecomputeStepSyncs(s, a, r, list);
    } else {
      UnseenKeepsTheList(s.db, Step(s, a).db, r, list);
    }
  }

  lemma FoldOne(list: seq<DashboardVisit>, message: Message)
    ensures Fold(list, [message]) == Apply(list, message)
  {
    if Apply(list, message).Some? {
      assert [message][1..] == [];
    }
  }

  lemma {:induction false} FoldConcat(list: seq<DashboardVisit>, a: seq<Message>, b: seq<Message>)
    ensures Fold(list, a + b) == (match Fold(list, a) case None => None case Some(next) => Fold(next, b))
    decreases |a|
  {
    if a == [] {
      assert a + b == b;
    } else {
      assert (a + b)[1..] == a[1..] + b;
      match Apply(list, a[0])
      case None =>
      case Some(next) => FoldConcat(next, a[1..], b);
    }
  }

  function AnnouncedAlong(s: System, acts: seq<Action>, r: Id): seq<Message>
    decreases |acts|
  {
    if acts == [] then [] else Announced(s, acts[0], r) + AnnouncedAlong(Step(s, acts[0]), acts[1..], r)
  }

  ghost predicate FollowedAlong(s: System, acts: seq<Action>, r: Id)
    requires Complete(s)
    decreases |acts|
  {
    acts == [] ||
    (StepKeepsComplete(s, acts[0]);
     Followed(s, acts[0], r) && FollowedAlong(Step(s, acts[0]), acts[1..], r))
  }

  // ---- Which steps a dashboard does not see ----

  /** What a dashboard of r shows is a function of the rows row-level security shows to r. */
  lemma ShownFromTheView(one: Db, other: Db, r: Id, v: Id)
    requires AllComplete(one) && AllComplete(other) && View(one, r) == View(other, r) && Inbound(one, r, v)
    ensures Inbound(other, r, v) && Shown(other, r, v) == Shown(one, r, v)
  {
    RowIsInTheView(one, r, v);
    assert v in View(other, r).visits;
    assert RowComplete(one, v) && RowComplete(other, v);
    var t := one.visits[v].table.value;
    assert one.tables[t] == View(one, r).tables[t] && other.tables[t] == View(other, r).tables[t];
    LookupsSeeTheView(one, r, v);
    LookupsSeeTheView(other, r, v);
    var items := ItemsOf(one, v);
    assert ItemsOf(other, v) == items;
    forall i | 0 <= i < |items| ensures ToDashboardItem(one, r, items[i]) == ToDashboardItem(other, r, items[i]) {
      assert FindMenuItem(View(one, r), r, items[i].menuItem) == FindMenuItem(one, r, items[i].menuItem);
      assert FindMenuItem(View(other, r), r, items[i].menuItem) == FindMenuItem(other, r, items[i].menuItem);
    }
    assert ToDashboard(one, v).items == ToDashboard(other, v).items;
  }

  lemma RowIsInTheView(db: Db, r: Id, v: Id)
    requires FindVisit(db, r, v).Some?
    ensures v in View(db, r).visits && View(db, r).visits[v] == db.visits[v]
  {
  }

  /** Nothing another restaurant does is announced to r's dashboards or changes what
      they show: such steps may stand anywhere in a followed run. */
  lemma OtherRestaurantsAreFollowed(s: System, a: Action, r: Id, q: Id)
    requires AllComplete(s.db) && AllComplete(Step(s, a).db)
    requires Scoped(s, a, q) && q != r
    ensures Followed(s, a, r)
  {
    StepLeavesOthers(s, a, q, r);
    forall v | Inbound(s.db, r, v)
        ensures Inbound(Step(s, a).db, r, v) && Shown(Step(s, a).db, r, v) == Shown(s.db, r, v) {
      ShownFromTheView(s.db, Step(s, a).db, r, v);
    }
    forall v | Inbound(Step(s, a).db, r, v) ensures Inbound(s.db, r, v) {
      ShownFromTheView(Step(s, a).db, s.db, r, v);
    }
  }

  /** Main result: a client that starts from the server's list and folds what the
      gateway announces over any run of accepts and non-ETA recomputes ends with
      exactly the server's list, order included. Completeness is the invariant of
      BookedVisitsAreComplete. */
  lemma {:induction false} FoldRefinesTheReadModel(s: System, acts: seq<Action>, r: Id, list: seq<DashboardVisit>)
    requires Complete(s) && IsInbound(s.db, r, list) && FollowedAlong(s, acts, r)
    ensures Synced(list, AnnouncedAlong(s, acts, r), Run(s, acts).db, r)
    decreases |acts|
  {
    if acts != [] {
      StepKeepsComplete(s, acts[0]);
      FollowedStepSyncs(s, acts[0], r, list);
      var next := Fold(list, Announced(s, acts[0], r)).value;
      FoldRefinesTheReadModel(Step(s, acts[0]), acts[1..], r, next);
      FoldConcat(list, Announced(s, acts[0], r), AnnouncedAlong(Step(s, acts[0]), acts[1..], r));
    }
  }

  // ---- Delivery ----

  lemma SameIdsSameIndex(list: seq<DashboardVisit>, k: nat, row: DashboardVisit, v: Id)
    requires k < |list| && row.id == list[k].id
    ensures FindIndex(list[k := row], v) == FindIndex(list, v)
  {
    forall m | 0 <= m < |list| ensures list[k := row][m].id == list[m].id {}
  }

  /** Delivering a message twice is delivering it once. */
  lemma DuplicateChangesNothing(list: seq<DashboardVisit>, message: Message)
    requires Apply(list, message).Some?
    ensures Apply(Apply(list, message).value, message) == Apply(list, message)
  {
    var next := Apply(list, message).value;
    if !message.VisitConfirmed? {
      var k := FindIndex(list, message.visit);
      assert next == list[k := next[k]];
      SameIdsSameIndex(list, k, next[k], message.visit);
      assert next[k := next[k]] == next;
    }
  }

  lemma AppliedKeepsIndex(list: seq<DashboardVisit>, message: Message, probe: Message)
    requires Apply(list, message).Some? && !probe.Unrecognised?
    ensures FindIndex(Apply(list, message).value, probe.visit) == FindIndex(list, probe.visit)
    ensures |Apply(list, message).value| == |list|
    ensures Apply(Apply(list, message).value, probe).Some? <==> Apply(list, probe).Some?
  {
    if !message.VisitConfirmed? {
      var k := FindIndex(list, message.visit);
      SameIdsSameIndex(list, k, Apply(list, message).value[k], probe.visit);
    }
  }

  lemma FoldTwo(list: seq<DashboardVisit>, one: Message, other: Message)
    ensures Fold(list, [one, other]) == match Apply(list, one) case None => None case Some(next) => Apply(next, other)
  {
    assert [one, other][1..] == [other];
    if Apply(list, one).Some? {
      FoldOne(Apply(list, one).value, other);
    }
  }

  /** Two resolvable messages write to two different slots. */
  lemma ResolvedCommute(list: seq<DashboardVisit>, one: Message, other: Message)
    requires Apply(list, one).Some? && Apply(list, other).Some? && one.visit != other.visit
    ensures
      var a, b := Apply(Apply(list, one).value, other), Apply(Apply(list, other).value, one);
      a.Some? && b.Some? && a.value == b.value
  {
    AppliedKeepsIndex(list, one, other);
    AppliedKeepsIndex(list, other, one);
    assert FindIndex(list, one.visit) != FindIndex(list, other.visit);
  }

  /** Messages about different visits can arrive in either order. */
  lemma DifferentVisitsCommute(list: seq<DashboardVisit>, one: Message, other: Message)
    requires !one.Unrecognised? && !other.Unrecognised? && one.visit != other.visit
    ensures Fold(list, [one, other]) == Fold(list, [other, one])
  {
    FoldTwo(list, one, other);
    FoldTwo(list, other, one);
    match (Apply(list, one), Apply(list, other))
    case (Some(_), Some(_)) => ResolvedCommute(list, one, other);
    case (Some(_), None) => AppliedKeepsIndex(list, one, other);
    case (None, Some(_)) => AppliedKeepsIndex(list, other, one);
    case (None, None) =>
  }

  /** The client asks for the list again exactly when the message cannot be resolved
      from what it holds. */
  lemma ResyncIff(list: seq<DashboardVisit>, message: Message)
    ensures Apply(list, message) == None <==>
              message.Unrecognised? || message.TableReassigned? || forall i :: 0 <= i < |list| ==>
                  list[i].id != message.visit
  {
  }
}
