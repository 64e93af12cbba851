/** ETA changes linearise on the visit's `updatedAt`. The token works as far as the
    stamp grows with every write to the row; two writes within one clock tick would
    share it. */
module EtaToken {
  import opened Domain
  import opened TimingEngine
  import opened Protocol
  import opened RowHistory
  import opened TargetHistory

  /** The rely: a step that changes a visit row stamps it later than before. */
  predicate StampGrows(s: System, a: Action) {
    a.Advance? && a.task in s.tasks && s.tasks[a.task].request.visit in s.db.visits ==>
      var v := s.tasks[a.task].request.visit;
      (v in Step(s, a).db.visits && Step(s, a).db.visits[v] != s.db.visits[v] ==> a.now > s.db.visits[v].updatedAt)
  }

  predicate StampsGrowAlong(s: System, acts: seq<Action>)
    decreases |acts|
  {
    acts == [] || (StampGrows(s, acts[0]) && StampsGrowAlong(Step(s, acts[0]), acts[1..]))
  }

  predicate Stamped(before: Visit, after: Visit, now: Instant) {
    after == before || after.updatedAt == now
  }

  /** Every write to a visit row sets `updatedAt`. */
  lemma WritesAreStamped(db: Db, task: Task, now: Instant)
    requires task.request.visit in db.visits
    ensures
      var v, after := task.request.visit, TaskStep(db, task, now).0.visits;
      v in after && Stamped(db.visits[v], after[v], now)
  {
  }

  /** The row has either not been written, or carries a later stamp. */
  predicate SameOrNewer(before: Visit, after: Visit) {
    after == before || after.updatedAt > before.updatedAt
  }

  lemma StepSameOrNewer(s: System, a: Action, v: Id)
    requires v in s.db.visits && StampGrows(s, a)
    ensures v in Step(s, a).db.visits && SameOrNewer(s.db.visits[v], Step(s, a).db.visits[v])
  {
    if a.Advance? && a.task in s.tasks {
      OnlyOwnRow(s.db, s.tasks[a.task], a.now);
      if s.tasks[a.task].request.visit == v {
        WritesAreStamped(s.db, s.tasks[a.task], a.now);
      }
    }
  }

  lemma {:induction false} RunSameOrNewer(s: System, acts: seq<Action>, v: Id)
    requires v in s.db.visits && StampsGrowAlong(s, acts)
    ensures v in Run(s, acts).db.visits && SameOrNewer(s.db.visits[v], Run(s, acts).db.visits[v])
    decreases |acts|
  {
    if acts != [] {
      StepSameOrNewer(s, acts[0], v);
      RunSameOrNewer(Step(s, acts[0]), acts[1..], v);
    }
  }

  /** This step is the transaction of an ETA change carrying token `e`, and its claim matches. */
  predicate EtaWrite(s: System, a: Action, v: Id, e: Instant) {
    && a.Advance? && a.task in s.tasks
    && var task := s.tasks[a.task];
       && task.request.ChangeEta? && task.request.visit == v && task.request.expected == e
       && task.phase.Computed? && EtaClaims(s.db, task.restaurant, v, e)
  }

  /** Of all requests that carry the same token, at most one ever writes. */
  lemma TokenIsSpentOnce(s: System, a: Action, between: seq<Action>, later: Action, v: Id, e: Instant)
    requires EtaWrite(s, a, v, e) && StampGrows(s, a) && a.now > e && StampsGrowAlong(Step(s, a), between)
    ensures !EtaWrite(Run(Step(s, a), between), later, v, e)
  {
    WritesAreStamped(s.db, s.tasks[a.task], a.now);
    assert Step(s, a).db.visits[v].updatedAt == a.now;
    RunSameOrNewer(Step(s, a), between, v);
  }

  /** What the stamp must do for that, exactly: right after a write, the same token
      still matches if and only if the write was stamped with the token itself. */
  lemma TokenStillMatchesIff(s: System, a: Action, v: Id, e: Instant)
    requires EtaWrite(s, a, v, e)
    ensures EtaClaims(Step(s, a).db, s.tasks[a.task].restaurant, v, e) <==> a.now == e
  {
  }

  /** The writers form a chain: a caller that once saw the row with stamp `e` and now
      writes with token `e` replaces exactly the row it saw. */
  lemma TokenNamesTheRow(seen: System, acts: seq<Action>, a: Action, v: Id, e: Instant)
    requires v in seen.db.visits && seen.db.visits[v].updatedAt == e
    requires StampsGrowAlong(seen, acts) && EtaWrite(Run(seen, acts), a, v, e)
    ensures Run(seen, acts).db.visits[v] == seen.db.visits[v]
  {
    RunSameOrNewer(seen, acts, v);
  }

  /** A claim that matches nothing, and the re-read that explains it, leave every row alone. */
  lemma LostEtaClaimWritesNothing(db: Db, task: Task, now: Instant)
    requires task.request.ChangeEta?
    requires task.phase.Computed? ==> !EtaClaims(db, task.restaurant, task.request.visit, task.request.expected)
    ensures TaskStep(db, task, now).0 == db
    ensures task.phase.Computed? ==> TaskStep(db, task, now).1 == ClaimLost
  {
  }

  // ---- What an ETA change commits ----

  /** The targets an ETA change works out when it reads the order. */
  function TargetsAsRead(db: Db, task: Task): Option<Targets>
    requires task.request.ChangeEta?
  {
    if FindVisit(db, task.restaurant, task.request.visit).Some?
    then OrderTargets(db, task.restaurant, task.request.visit, task.request.newEta)
    else None
  }

  /** This transaction left behind its own ETA and these targets, and says so. Without
      targets it answers visit_not_ready, and the new ETA is committed all the same. */
  predicate CommitsEta(before: System, a: Action, v: Id, targets: Option<Targets>)
    requires a.Advance? && a.task in before.tasks && before.tasks[a.task].request.ChangeEta? && v in before.db.visits
  {
    var after, was := Step(before, a), before.db.visits[v];
    && v in after.db.visits
    && after.db.visits[v].arrivalEta == Some(before.tasks[a.task].request.newEta)
    && match targets
       case None => SameTargets(was, after.db.visits[v])
           && after.tasks[a.task].phase == Finished(Rejected(VisitNotReady))
       case Some(ts) =>
         && after.db.visits[v].kitchenStartTarget == Some(ts.kitchenStart)
         && after.db.visits[v].foodOutTarget == Some(ts.foodOut)
         && after.tasks[a.task].phase == Finished(Applied(ts, was.kitchenStartTarget))
  }

  lemma ClaimedEtaCommits(before: System, a: Action, v: Id, e: Instant)
    requires EtaWrite(before, a, v, e)
    ensures CommitsEta(before, a, v, before.tasks[a.task].phase.targets)
  {
  }

  /** An ETA change whose claim matches commits its own ETA together with the targets of
      that ETA for the order as it stood at this request's own read step, between its
      arrival and its commit: never a mix of two updates. */
  lemma EtaChangeCommitsItsOwnTargets(s: System, acts: seq<Action>, a: Action, v: Id, e: Instant) returns (k: nat)
    requires a.Advance? && a.task !in s.tasks && EtaWrite(Run(s, acts), a, v, e)
    ensures FirstStep(s, acts, k, a.task)
    ensures CommitsEta(Run(s, acts), a, v, TargetsAsRead(Run(s, acts[..k]).db, Run(s, acts).tasks[a.task]))
  {
    k := PendingWasRead(s, acts, a.task);
    ClaimedEtaCommits(Run(s, acts), a, v, e);
  }

  // ---- What the token does not protect: a plain recompute ----

  /** The order, its dishes and the restaurant's buffers are the same in both. */
  predicate SameOrder(one: Db, other: Db, r: Id, v: Id) {
    && ItemsOf(one, v) == ItemsOf(other, v) && one.menu == other.menu
    && SettingsOf(one, r) == SettingsOf(other, r)
  }

  /** A plain recompute carries no token: it writes the targets of the ETA it read to
      whatever row is there. With the order unchanged they are the targets of the row's ETA
      if and only if that is the ETA it read, to within what truncation can hide. */
  lemma StaleRecomputeIff(read: Db, write: Db, r: Id, v: Id, seen: Instant, start: Option<Instant>, now: Instant)
    requires SameOrder(read, write, r, v) && OrderTargets(read, r, v, seen).Some?
    requires FindVisit(write, r, v).Some? && write.visits[v].status == Confirmed && write.visits[v].arrivalEta.Some?
    ensures
      var row := RecomputeWrite(write, r, v, OrderTargets(read, r, v, seen).value, start, now).0.visits[v];
      var own := OrderTargets(write, r, v, row.arrivalEta.value);
      && own.Some?
      && (HoldsTargets(row, own.value) <==>
            HidesShift(StartSum(seen, PrepTimes(read, r, ItemsOf(read, v)), ValidBuffers(SettingsOf(read, r)).value),
                       row.arrivalEta.value - seen))
  {
    var preps, buffers := PrepTimes(read, r, ItemsOf(read, v)), ValidBuffers(SettingsOf(read, r)).value;
    SameMenuSamePreps(read, write, r, ItemsOf(read, v));
    SameTargetsIff(seen, write.visits[v].arrivalEta.value - seen, preps, buffers);
  }

  /** One dish of ten minutes, a five-minute and an eight-minute buffer, due at one hour. */
  function Booking(): System {
    var row := Visit(1, Confirmed, Some(7), Some(2), Some(3600000), Some(0), Some(10), Some(0), None, None, None, 0);
    System(
      Db(map[1 := row], map[10 := Table(1, "A", Held)], map[1 := [Item(5, 6, 1, [], [])]],
         map[6 := MenuItem(1, "soup", 10, true)],
         map[], [], map[1 := Settings(Some(5.0), Some(8.0))]),
      map[])
  }

  /** A recompute reads ... */
  function RecomputeReads(): seq<Action> {
    [Arrive(1, 1, Recompute(1)), Advance(1, 1)]
  }

  /** ... the guest moves the ETA an hour back ... */
  function EtaMoves(): seq<Action> {
    [Arrive(2, 1, ChangeEta(1, 7200000, 0)), Advance(2, 2), Advance(2, 3)]
  }

  const WAITING := Task(1, Recompute(1), Retiming(Targets(2700000, 3780000), None))

  lemma AfterRecomputeReads()
    ensures Run(Booking(), RecomputeReads()) == System(Booking().db, map[1 := WAITING])
  {
    var acts := RecomputeReads();
    var s1 := Step(Booking(), acts[0]);
    BookingTargets(s1.db);
    var s2 := Step(s1, acts[1]);
    assert s2.tasks[1] == WAITING;
    assert Run(s1, acts[1..]) == s2;
  }

  lemma AfterEtaMoves()
    ensures
      var s := Run(System(Booking().db, map[1 := WAITING]), EtaMoves());
      && s.db == PutVisit(Booking().db, 1, Booking().db.visits[1].(arrivalEta := Some(7200000), updatedAt := 3,
                            kitchenStartTarget := Some(6300000), foodOutTarget := Some(7380000)))
      && 1 in s.tasks && s.tasks[1] == WAITING
  {
    var acts := EtaMoves();
    var s1 := Step(System(Booking().db, map[1 := WAITING]), acts[0]);
    BookingTargets(s1.db);
    var s2 := Step(s1, acts[1]);
    assert s2.tasks[2].phase == Computed(Some(Targets(6300000, 7380000)));
    var s3 := Step(s2, acts[2]);
    assert Run(s1, acts[1..]) == s3 by {
      assert Run(s2, acts[2..]) == s3;
    }
  }

  /** ... and the recompute writes. Both requests report success; the row ends with the
      later ETA and the earlier targets. */
  lemma LateRecomputeLeavesOldTargets()
    ensures
      var s := Run(Booking(), RecomputeReads() + EtaMoves() + [Advance(1, 4)]);
      && 1 in s.db.visits
      && s.db.visits[1].arrivalEta == Some(7200000) && s.db.visits[1].kitchenStartTarget == Some(2700000)
  {
    AfterRecomputeReads();
    AfterEtaMoves();
    RunConcat(Booking(), RecomputeReads(), EtaMoves());
    RunConcat(Booking(), RecomputeReads() + EtaMoves(), [Advance(1, 4)]);
    assert [Advance(1, 4)][1..] == [];
  }

  lemma BookingTargets(db: Db)
    requires db.items == Booking().db.items && db.menu == Booking().db.menu
        && db.restaurants == Booking().db.restaurants
    ensures OrderTargets(db, 1, 1, 3600000) == Some(Targets(2700000, 3780000))
    ensures OrderTargets(db, 1, 1, 7200000) == Some(Targets(6300000, 7380000))
  {
    var items := ItemsOf(db, 1);
    assert items[1..] == [];
    assert PrepTimes(db, 1, items) == [10.0];
    var buffers := Buffers(5.0, 8.0);
    assert ValidBuffers(SettingsOf(db, 1)) == Some(buffers);
    assert AddMinutes(3600000, -15.0) == 2700000 && AddMinutes(2700000, 18.0) == 3780000;
    assert AddMinutes(7200000, -15.0) == 6300000 && AddMinutes(6300000, 18.0) == 7380000;
    assert Longest([10.0]) == 10.0;
  }
}
