/** From a guest's ETA change to the alert, over whole runs: which drift is passed on,
    what it measures, and how often it can be sent. */
module DriftAlerts {
  import opened Domain
  import opened TimingEngine
  import opened Protocol
  import opened RowHistory
  import opened TargetHistory
  import opened EtaToken
  import opened Drift
  import N = Notifications

  // ---- What a retiming reports as the target it replaced ----

  function ReasonOf(request: Request): Reason {
    if request.ChangeEta? then EtaChanged else ItemsChanged
  }

  /** The drift handed on by this step, if it is a retiming that commits. */
  function DriftReported(s: System, a: Action): Option<int> {
    if !(a.Advance? && a.task in s.tasks && Pending(s.tasks[a.task])) then None
    else
      match TaskStep(s.db, s.tasks[a.task], a.now).1
      case Finished(Applied(ts, previous)) => DriftOf(ts.kitchenStart, previous, ReasonOf(s.tasks[a.task].request))
      case _ => None
  }

  /** An ETA change reads under its row lock: what it reports is the target it replaces. */
  lemma EtaChangeReportsTheReplacedTarget(db: Db, task: Task, now: Instant)
    requires task.request.ChangeEta? && task.phase.Computed?
    requires TaskStep(db, task, now).1.Finished? && TaskStep(db, task, now).1.outcome.Applied?
    ensures
      var (after, phase) := TaskStep(db, task, now);
      var v := task.request.visit;
      && v in db.visits && v in after.visits
      && phase.outcome.previous == db.visits[v].kitchenStartTarget
      && after.visits[v].kitchenStartTarget == Some(phase.outcome.newTargets.kitchenStart)
  {
  }

  /** This step is the write of a plain recompute, and it goes through. */
  predicate RecomputeWrites(s: System, a: Action) {
    && a.Advance? && a.task in s.tasks && s.tasks[a.task].request.Recompute? && s.tasks[a.task].phase.Retiming?
    && TaskStep(s.db, s.tasks[a.task], a.now).1.Finished? && TaskStep(s.db, s.tasks[a.task], a.now).1.outcome.Applied?
  }

  function Reported(s: System, a: Action): Option<Instant>
    requires RecomputeWrites(s, a)
  {
    TaskStep(s.db, s.tasks[a.task], a.now).1.outcome.previous
  }

  /** A plain recompute reports the start target its own read returned. */
  lemma RecomputeReportsWhatItRead(s: System, acts: seq<Action>, a: Action) returns (k: nat)
    requires a.Advance? && a.task !in s.tasks && RecomputeWrites(Run(s, acts), a)
    ensures FirstStep(s, acts, k, a.task)
    ensures
      var v, read := Run(s, acts).tasks[a.task].request.visit, Run(s, acts[..k + 1]).db;
      && v in read.visits && v in Run(s, acts).db.visits
      && Reported(Run(s, acts), a) == read.visits[v].kitchenStartTarget
  {
    k := PendingWasRead(s, acts, a.task);
    RunBack(s, acts[..k + 1]);
    assert acts[..k + 1][..k] == acts[..k];
  }

  /** That is the target it replaces if and only if nobody wrote the targets between the
      read and the write, or the last who did carried the same start. */
  lemma RecomputeReportsTheReplacedTargetIff(s: System, acts: seq<Action>, a: Action) returns (k: nat, j: nat)
    requires a.Advance? && a.task !in s.tasks && RecomputeWrites(Run(s, acts), a)
    ensures FirstStep(s, acts, k, a.task)
    ensures
      var before := Run(s, acts);
      var v := before.tasks[a.task].request.visit;
      && v in before.db.visits
      && (NoWriterAfter(s, acts, k, v) ==> Reported(before, a) == before.db.visits[v].kitchenStartTarget)
      && (!NoWriterAfter(s, acts, k, v) ==>
            && k < j && LastWriter(s, acts, j, v)
            && (Reported(before, a) == before.db.visits[v].kitchenStartTarget <==>
                  Reported(before, a) == Some(Carried(Run(s, acts[..j]).tasks[acts[j].task]).value.kitchenStart)))
  {
    var v := Run(s, acts).tasks[a.task].request.visit;
    k := RecomputeReportsWhatItRead(s, acts, a);
    if NoWriterAfter(s, acts, k, v) {
      UnwrittenTargetsStay(s, acts, k, v);
      j := 0;
    } else {
      j := LaterWriter(s, acts, k, v);
    }
  }

  /** Two recomputes read; the second writes first. */
  function RecomputesCross(): seq<Action> {
    [Arrive(3, 1, Recompute(1)), Advance(3, 2), Advance(3, 3)]
  }

  lemma AfterRecomputesCross()
    ensures
      var s := Run(System(Booking().db, map[1 := WAITING]), RecomputesCross());
      && s.tasks.Keys == {1, 3} && s.tasks[1] == WAITING
      && s.db == PutVisit(Booking().db, 1,
                          WithTargets(Booking().db.visits[1], Targets(2700000, 3780000)).(updatedAt := 3))
  {
    var acts := RecomputesCross();
    var s1 := Step(System(Booking().db, map[1 := WAITING]), acts[0]);
    BookingTargets(s1.db);
    var s2 := Step(s1, acts[1]);
    assert s2.tasks[3].phase == Retiming(Targets(2700000, 3780000), None);
    var s3 := Step(s2, acts[2]);
    assert Run(s1, acts[1..]) == s3 by {
      assert Run(s2, acts[2..]) == s3;
    }
  }

  /** The first recompute then reports that there was no target before, and replaces one. */
  lemma CrossedRecomputeReportsAnOlderTarget()
    ensures
      var s := Run(Booking(), RecomputeReads() + RecomputesCross());
      && 1 in s.db.visits && s.db.visits[1].kitchenStartTarget == Some(2700000)
      && 1 in s.tasks && TaskStep(s.db, s.tasks[1], 4).1 == Finished(Applied(Targets(2700000, 3780000), None))
  {
    AfterRecomputeReads();
    AfterRecomputesCross();
    RunConcat(Booking(), RecomputeReads(), RecomputesCross());
  }

  // ---- What the drift measures ----

  /** Longest prep plus buffer, in minutes, of the order as it stands. */
  function Lead(db: Db, r: Id, v: Id): Option<real> {
    var preps, buffers := PrepTimes(db, r, ItemsOf(db, v)), ValidBuffers(SettingsOf(db, r));
    if ValidPreps(preps) && buffers.Some? then Some(Longest(preps) + buffers.value.avgPrep) else None
  }

  lemma StartIsEtaLessLead(db: Db, r: Id, v: Id, eta: Instant)
    requires OrderTargets(db, r, v, eta).Some?
    ensures Lead(db, r, v).Some?
    ensures OrderTargets(db, r, v, eta).value.kitchenStart
        == Truncate(eta as real - Lead(db, r, v).value * MS_PER_MINUTE)
  {
    TargetsTruncateTheSums(eta, PrepTimes(db, r, ItemsOf(db, v)), ValidBuffers(SettingsOf(db, r)).value);
  }

  /** The change of the ETA less the change of the lead time. */
  function ExactDrift(lastEta: Instant, lead0: real, newEta: Instant, lead1: real): real {
    (newEta - lastEta) as real - (lead1 - lead0) * MS_PER_MINUTE
  }

  /** The drift is that change: two truncations cost less than two milliseconds, and none
      for whole ones. */
  predicate Measures(drift: int, lastEta: Instant, lead0: real, newEta: Instant, lead1: real) {
    var exact := ExactDrift(lastEta, lead0, newEta, lead1);
    && exact - 2.0 < drift as real < exact + 2.0
    && (WholeMs(lead0) && WholeMs(lead1) ==> drift as real == exact)
  }

  /** The difference of two truncated starts, each with its ETA and its lead. */
  function StartDifference(eta0: Instant, lead0: real, eta1: Instant, lead1: real): int {
    Truncate(eta1 as real - lead1 * MS_PER_MINUTE) - Truncate(eta0 as real - lead0 * MS_PER_MINUTE)
  }

  /** With the lead unchanged the drift is the ETA change if and only if the start it
      replaces was a whole millisecond or both starts lie on one side of the epoch. */
  predicate FollowsTheEta(drift: int, lastEta: Instant, lead0: real, newEta: Instant, lead1: real) {
    lead0 == lead1 ==>
      (drift == newEta - lastEta <==> ShiftsExactly(lastEta as real - lead0 * MS_PER_MINUTE, newEta - lastEta))
  }

  lemma UnchangedLeadFollowsTheEta(drift: int, eta0: Instant, lead0: real, eta1: Instant, lead1: real)
    requires drift == StartDifference(eta0, lead0, eta1, lead1)
    ensures FollowsTheEta(drift, eta0, lead0, eta1, lead1)
  {
    TruncateShiftsIff(eta0 as real - lead0 * MS_PER_MINUTE, eta1 - eta0);
  }

  lemma TruncatedDifference(drift: int, eta0: Instant, lead0: real, eta1: Instant, lead1: real)
    requires drift == StartDifference(eta0, lead0, eta1, lead1)
    ensures Measures(drift, eta0, lead0, eta1, lead1)
  {
    var x0, x1 := eta0 as real - lead0 * MS_PER_MINUTE, eta1 as real - lead1 * MS_PER_MINUTE;
    assert (lead1 - lead0) * MS_PER_MINUTE == lead1 * MS_PER_MINUTE - lead0 * MS_PER_MINUTE;
    TruncateBounds(x0);
    TruncateBounds(x1);
    if WholeMs(lead0) && WholeMs(lead1) {
      FloorOfWhole(x0, eta0 - (lead0 * MS_PER_MINUTE).Floor);
      FloorOfWhole(x1, eta1 - (lead1 * MS_PER_MINUTE).Floor);
    }
  }

  /** An ETA change that will answer with targets and a previous target. */
  predicate DriftingWrite(s: System, a: Action, v: Id) {
    && a.Advance? && a.task in s.tasks && s.tasks[a.task].request.ChangeEta?
    && EtaWrite(s, a, v, s.tasks[a.task].request.expected)
    && s.tasks[a.task].phase.targets.Some? && s.db.visits[v].kitchenStartTarget.Some?
  }

  /** Its new start target less the one on the row. */
  function DriftOfWrite(s: System, a: Action, v: Id): int
    requires DriftingWrite(s, a, v)
  {
    s.tasks[a.task].phase.targets.value.kitchenStart - s.db.visits[v].kitchenStartTarget.value
  }

  /** These are the only steps that hand on a drift, and that is the drift they hand on. */
  lemma OnlyEtaChangesDrift(s: System, a: Action)
    ensures DriftReported(s, a).Some? <==>
        a.Advance? && a.task in s.tasks && DriftingWrite(s, a, s.tasks[a.task].request.visit)
    ensures DriftReported(s, a).Some? ==> DriftReported(s, a) == Some(DriftOfWrite(s, a, s.tasks[a.task].request.visit))
  {
  }

  /** Who wrote the targets an ETA change replaces, and who works out the new ones. */
  datatype Chain = Chain(lastRead: nat, lastWrite: nat, lastEta: Instant, ownRead: nat)

  /** The last writer of the targets of `v` read at `lastRead` for `lastEta` and wrote at
      `lastWrite`; the ETA change of step `a` read at `ownRead`. Both found a lead time. */
  predicate Links(s: System, acts: seq<Action>, a: Action, v: Id, c: Chain)
    requires a.Advance? && a.task in Run(s, acts).tasks && v in Run(s, acts).db.visits
  {
    var r := Run(s, acts).db.visits[v].restaurant;
    && c.lastRead < c.lastWrite && LastWriter(s, acts, c.lastWrite, v)
    && FirstStep(s, acts, c.lastRead, acts[c.lastWrite].task)
    && Retimes(Run(s, acts[..c.lastRead]).tasks[acts[c.lastWrite].task].request)
    && EtaFor(Run(s, acts[..c.lastRead]).db, Run(s, acts[..c.lastRead]).tasks[acts[c.lastWrite].task])
         == Some(c.lastEta)
    && FirstStep(s, acts, c.ownRead, a.task)
    && Lead(Run(s, acts[..c.lastRead]).db, r, v).Some?
    && Lead(Run(s, acts[..c.ownRead]).db, r, v).Some?
  }

  /** The last target of `v`, as its last writer worked it out. */
  lemma ReplacedTargetIs(s: System, acts: seq<Action>, v: Id) returns (i: nat, j: nat, eta: Instant, lead: real)
    requires s.tasks == map[]
    requires v in s.db.visits ==> s.db.visits[v].kitchenStartTarget == None
    requires v in Run(s, acts).db.visits && Run(s, acts).db.visits[v].kitchenStartTarget.Some?
    ensures i < j && LastWriter(s, acts, j, v) && FirstStep(s, acts, i, acts[j].task)
    ensures Retimes(Run(s, acts[..i]).tasks[acts[j].task].request)
    ensures EtaFor(Run(s, acts[..i]).db, Run(s, acts[..i]).tasks[acts[j].task]) == Some(eta)
    ensures Lead(Run(s, acts[..i]).db, Run(s, acts).db.visits[v].restaurant, v) == Some(lead)
    ensures Run(s, acts).db.visits[v].kitchenStartTarget == Some(Truncate(eta as real - lead * MS_PER_MINUTE))
  {
    var ts;
    i, j, eta, ts := TargetsAreTheLastWriters(s, acts, v);
    RestaurantStays(s, acts, i, v);
    StartIsEtaLessLead(Run(s, acts[..i]).db, Run(s, acts).db.visits[v].restaurant, v, eta);
    lead := Lead(Run(s, acts[..i]).db, Run(s, acts).db.visits[v].restaurant, v).value;
  }

  /** The new target of a drifting ETA change, as its own read worked it out. */
  lemma NewTargetIs(s: System, acts: seq<Action>, a: Action, v: Id) returns (k: nat, lead: real)
    requires s.tasks == map[] && DriftingWrite(Run(s, acts), a, v)
    ensures FirstStep(s, acts, k, a.task)
    ensures Lead(Run(s, acts[..k]).db, Run(s, acts).db.visits[v].restaurant, v) == Some(lead)
    ensures Run(s, acts).tasks[a.task].phase.targets.value.kitchenStart
         == Truncate(NewEta(Run(s, acts), a) as real - lead * MS_PER_MINUTE)
  {
    k := PendingWasRead(s, acts, a.task);
    var task := Run(s, acts).tasks[a.task];
    StartIsEtaLessLead(Run(s, acts[..k]).db, task.restaurant, v, task.request.newEta);
    lead := Lead(Run(s, acts[..k]).db, task.restaurant, v).value;
  }

  /** The lead time the last writer read, and the one the ETA change read. */
  function Leads(s: System, acts: seq<Action>, a: Action, v: Id, c: Chain): (real, real)
    requires a.Advance? && a.task in Run(s, acts).tasks && v in Run(s, acts).db.visits && Links(s, acts, a, v, c)
  {
    var r := Run(s, acts).db.visits[v].restaurant;
    (Lead(Run(s, acts[..c.lastRead]).db, r, v).value, Lead(Run(s, acts[..c.ownRead]).db, r, v).value)
  }

  function NewEta(s: System, a: Action): Instant
    requires a.Advance? && a.task in s.tasks && s.tasks[a.task].request.ChangeEta?
  {
    s.tasks[a.task].request.newEta
  }

  /** The drift is such a difference, of the last retiming and this one. */
  lemma DriftDecomposes(s: System, acts: seq<Action>, a: Action, v: Id) returns (c: Chain, lead0: real, lead1: real)
    requires s.tasks == map[]
    requires v in s.db.visits ==> s.db.visits[v].kitchenStartTarget == None
    requires DriftingWrite(Run(s, acts), a, v)
    ensures Links(s, acts, a, v, c) && Leads(s, acts, a, v, c) == (lead0, lead1)
    ensures DriftOfWrite(Run(s, acts), a, v)
         == StartDifference(c.lastEta, lead0, NewEta(Run(s, acts), a), lead1)
  {
    var i, j, eta, k;
    i, j, eta, lead0 := ReplacedTargetIs(s, acts, v);
    k, lead1 := NewTargetIs(s, acts, a, v);
    c := Chain(i, j, eta, k);
  }

  /** Main result: over any run from rows without targets, the drift an ETA change hands on
      is its ETA less the ETA of the last retiming, less the change of the lead time between
      the two reads: exactly for whole milliseconds, within two milliseconds always. */
  lemma DriftIsEtaChangeLessLeadChange(s: System, acts: seq<Action>, a: Action, v: Id)
      returns (c: Chain, lead0: real, lead1: real)
    requires s.tasks == map[]
    requires v in s.db.visits ==> s.db.visits[v].kitchenStartTarget == None
    requires DriftingWrite(Run(s, acts), a, v)
    ensures Links(s, acts, a, v, c) && Leads(s, acts, a, v, c) == (lead0, lead1)
    ensures Measures(DriftOfWrite(Run(s, acts), a, v), c.lastEta, lead0, NewEta(Run(s, acts), a), lead1)
  {
    c, lead0, lead1 := DriftDecomposes(s, acts, a, v);
    TruncatedDifference(DriftOfWrite(Run(s, acts), a, v), c.lastEta, lead0, NewEta(Run(s, acts), a), lead1);
  }

  /** With the lead time unchanged between the two reads, the drift is the ETA change if and
      only if the replaced start was a whole millisecond or both lie on one side of the epoch. */
  lemma UnchangedLeadDriftsWithTheEtaIff(s: System, acts: seq<Action>, a: Action, v: Id)
      returns (c: Chain, lead0: real, lead1: real)
    requires s.tasks == map[]
    requires v in s.db.visits ==> s.db.visits[v].kitchenStartTarget == None
    requires DriftingWrite(Run(s, acts), a, v)
    ensures Links(s, acts, a, v, c) && Leads(s, acts, a, v, c) == (lead0, lead1)
    ensures FollowsTheEta(DriftOfWrite(Run(s, acts), a, v), c.lastEta, lead0, NewEta(Run(s, acts), a), lead1)
  {
    c, lead0, lead1 := DriftDecomposes(s, acts, a, v);
    UnchangedLeadFollowsTheEta(DriftOfWrite(Run(s, acts), a, v), c.lastEta, lead0, NewEta(Run(s, acts), a), lead1);
  }

  // ---- The alert ----

  /** The minutes of the alert this step attempts, if it attempts one. */
  function AlertOf(s: System, a: Action, threshold: real): Option<int> {
    var drift := DriftReported(s, a);
    if drift.None? then None else AlertMinutes(drift.value, threshold)
  }

  /** Every process that sends a drift alert was started by a step of the run that attempts
      one for that visit; a redelivered event may start any number of them. */
  predicate Caused(s: System, acts: seq<Action>, threshold: real, events: seq<N.Event>, cause: map<nat, nat>) {
    forall e :: e in events && e.Begin? && e.key.notificationType == N.EtaDriftAlert ==>
      && e.worker in cause && cause[e.worker] < |acts|
      && var before, a := Run(s, acts[..cause[e.worker]]), acts[cause[e.worker]];
         AlertOf(before, a, threshold).Some? && before.tasks[a.task].request.visit == e.key.visit
  }

  /** Of all drift alerts of a visit at most one is ever sent, over any schedule of any
      number of processes. */
  lemma OneAlertPerVisit(events: seq<N.Event>, v: Id, i: nat, j: nat)
    requires i < |N.RunAll(N.EMPTY, events).sends| && j < |N.RunAll(N.EMPTY, events).sends|
    requires N.RunAll(N.EMPTY, events).sends[i].key == N.RunAll(N.EMPTY, events).sends[j].key
        == N.Key(v, N.EtaDriftAlert)
    ensures i == j
  {
    N.SendsAtMostOnce(events);
  }

  /** Main result, the chain from end to end: a drift alert that is sent is the only one of
      its visit and goes back to an ETA change of the run. Its minutes differ from the change
      of the ETA less the change of the lead time by half a minute at most, plus the two
      truncations, and reach the threshold whenever that threshold never under-reports. */
  lemma SentAlertMeasuresTheChange(s: System, acts: seq<Action>, threshold: real, events: seq<N.Event>,
                                   cause: map<nat, nat>, i: nat, v: Id)
    returns (m: int, step: nat, c: Chain, lead0: real, lead1: real)
    requires s.tasks == map[] && threshold > 0.0 && Caused(s, acts, threshold, events, cause)
    requires v in s.db.visits ==> s.db.visits[v].kitchenStartTarget == None
    requires i < |N.RunAll(N.EMPTY, events).sends|
    requires N.RunAll(N.EMPTY, events).sends[i].key == N.Key(v, N.EtaDriftAlert)
    ensures forall j :: 0 <= j < |N.RunAll(N.EMPTY, events).sends| ==>
              (N.RunAll(N.EMPTY, events).sends[j].key == N.Key(v, N.EtaDriftAlert) <==> j == i)
    ensures step < |acts| && DriftingWrite(Run(s, acts[..step]), acts[step], v)
    ensures AlertOf(Run(s, acts[..step]), acts[step], threshold) == Some(m)
    ensures threshold > Ceil(threshold) as real - 0.5 ==> Size(m) as real >= threshold
    ensures Links(s, acts[..step], acts[step], v, c) && Leads(s, acts[..step], acts[step], v, c) == (lead0, lead1)
    ensures -30002.0 < ExactDrift(c.lastEta, lead0, NewEta(Run(s, acts[..step]), acts[step]), lead1)
                       - (m * 60000) as real < 30002.0
  {
    var send := N.RunAll(N.EMPTY, events).sends[i];
    forall j | 0 <= j < |N.RunAll(N.EMPTY, events).sends|
      && N.RunAll(N.EMPTY, events).sends[j].key == N.Key(v, N.EtaDriftAlert)
      ensures j == i
    {
      OneAlertPerVisit(events, v, i, j);
    }
    N.RunsAreRooted(events);
    assert N.Begin(send.worker, send.key) in events;
    step := cause[send.worker];
    var before := Run(s, acts[..step]);
    OnlyEtaChangesDrift(before, acts[step]);
    c, lead0, lead1 := DriftIsEtaChangeLessLeadChange(s, acts[..step], acts[step], v);
    m := AlertOf(before, acts[step], threshold).value;
    RoundedWithinHalfAMinute(DriftOfWrite(before, acts[step], v));
    ReportsAtLeastIff(threshold);
    assert AlertMinutes(DriftOfWrite(before, acts[step], v), threshold) == Some(m);
  }
}
