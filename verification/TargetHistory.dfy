/** Where the targets on a row come from. Recomputes and ETA changes read the order in
    one step and write in another; over any run, the targets a row holds are those its
    last writer worked out, at a moment and for an ETA that can be named. */
module TargetHistory {
  import opened Domain
  import opened TimingEngine
  import opened Protocol
  import opened RowHistory

  /** `acts[k]` is the first step of request `id`, the one that reads. */
  predicate FirstStep(s: System, acts: seq<Action>, k: nat, id: Id) {
    && k < |acts| && acts[k].Advance? && acts[k].task == id
    && id in Run(s, acts[..k]).tasks && Run(s, acts[..k]).tasks[id].phase == Ready
  }

  predicate Retimes(request: Request) {
    request.Recompute? || request.ChangeEta?
  }

  /** Between its read and its write. */
  predicate Pending(task: Task) {
    Retimes(task.request) && (task.phase.Retiming? || task.phase.Computed?)
  }

  lemma RunBack(s: System, acts: seq<Action>)
    requires acts != []
    ensures Run(s, acts) == Step(Run(s, acts[..|acts| - 1]), acts[|acts| - 1])
  {
    var last := acts[|acts| - 1];
    assert acts == acts[..|acts| - 1] + [last] && [last][1..] == [];
    RunConcat(s, acts[..|acts| - 1], [last]);
  }

  /** What a retiming request carries is what its own read step left, and that step lies
      in the run. */
  lemma {:induction false} PendingWasRead(s: System, acts: seq<Action>, id: Id) returns (k: nat)
    requires id !in s.tasks && id in Run(s, acts).tasks && Pending(Run(s, acts).tasks[id])
    ensures FirstStep(s, acts, k, id)
    ensures Run(s, acts[..k]).tasks[id] == Run(s, acts).tasks[id].(phase := Ready)
    ensures TaskStep(Run(s, acts[..k]).db, Run(s, acts[..k]).tasks[id], acts[k].now).1 == Run(s, acts).tasks[id].phase
    decreases |acts|
  {
    if acts == [] {
      assert false;
    } else {
      var n := |acts| - 1;
      var before := Run(s, acts[..n]);
      RunBack(s, acts);
      if id in before.tasks && before.tasks[id].phase != Ready {
        PendingStays(before, acts[n], id);
        k := PendingWasRead(s, acts[..n], id);
        assert acts[..n][..k] == acts[..k];
      } else {
        k := n;
      }
    }
  }

  /** Nothing but its read makes a request pending, and nobody else touches what it carries. */
  lemma PendingStays(s: System, a: Action, id: Id)
    requires id in s.tasks && s.tasks[id].phase != Ready && Pending(Step(s, a).tasks[id])
    ensures Step(s, a).tasks[id] == s.tasks[id]
  {
  }

  lemma RestaurantStays(s: System, acts: seq<Action>, k: nat, v: Id)
    requires k <= |acts| && v in Run(s, acts[..k]).db.visits
    ensures v in Run(s, acts).db.visits
    ensures Run(s, acts).db.visits[v].restaurant == Run(s, acts[..k]).db.visits[v].restaurant
  {
    assert acts == acts[..k] + acts[k..];
    RunConcat(s, acts[..k], acts[k..]);
    RunKeepsFields(Run(s, acts[..k]), acts[k..], v);
  }

  // ---- Writers ----

  /** The targets a pending request would write. */
  function Carried(task: Task): Option<Targets> {
    if task.request.Recompute? && task.phase.Retiming? then Some(task.phase.retimed)
    else if task.request.ChangeEta? && task.phase.Computed? then task.phase.targets
    else None
  }

  /** This step writes the targets of `v`. */
  predicate WritesTargets(s: System, a: Action, v: Id) {
    && a.Advance? && a.task in s.tasks
    && var task := s.tasks[a.task];
       && Retimes(task.request) && task.request.visit == v && Carried(task).Some?
       && FindVisit(s.db, task.restaurant, v).Some? && s.db.visits[v].status == Confirmed
       && (task.request.ChangeEta? ==> EtaClaims(s.db, task.restaurant, v, task.request.expected))
  }

  predicate HoldsTargets(row: Visit, ts: Targets) {
    row.kitchenStartTarget == Some(ts.kitchenStart) && row.foodOutTarget == Some(ts.foodOut)
  }

  lemma WriterWrites(s: System, a: Action, v: Id)
    requires WritesTargets(s, a, v)
    ensures v in Step(s, a).db.visits && HoldsTargets(Step(s, a).db.visits[v], Carried(s.tasks[a.task]).value)
  {
  }

  lemma OthersKeepTargets(s: System, a: Action, v: Id)
    requires v in s.db.visits && !WritesTargets(s, a, v)
    ensures v in Step(s, a).db.visits && SameTargets(s.db.visits[v], Step(s, a).db.visits[v])
  {
    if a.Advance? && a.task in s.tasks {
      var task := s.tasks[a.task];
      OnlyOwnRow(s.db, task, a.now);
      if task.request.visit == v && !Retimes(task.request) {
        OnlyRetimingWritesTargets(s.db, task, a.now);
      }
    }
  }

  lemma OnlyRetimingWritesTargets(db: Db, task: Task, now: Instant)
    requires !Retimes(task.request) && task.request.visit in db.visits
    ensures
      var v, after := task.request.visit, TaskStep(db, task, now).0.visits;
      v in after && SameTargets(db.visits[v], after[v])
  {
    if ItemTool(task.request) {
      ItemToolsTouchItems(db, task, now);
    } else if task.request.Confirm? || task.request.Reassign? || task.request.Accept? || task.request.Serve? {
      BookingAndServiceKeepTargets(db, task, now);
    }
  }

  lemma BookingAndServiceKeepTargets(db: Db, task: Task, now: Instant)
    requires task.request.Confirm? || task.request.Reassign? || task.request.Accept? || task.request.Serve?
    requires task.request.visit in db.visits
    ensures
      var v, after := task.request.visit, TaskStep(db, task, now).0.visits;
      v in after && SameTargets(db.visits[v], after[v])
  {
  }

  // ---- The last writer ----

  /** The ETA a request times for: its own new one, or the one on the row it reads. */
  function EtaFor(db: Db, task: Task): Option<Instant>
    requires Retimes(task.request)
  {
    if task.request.ChangeEta? then Some(task.request.newEta)
    else
      var visit := FindVisit(db, task.restaurant, task.request.visit);
      if visit.None? then None else visit.value.arrivalEta
  }

  /** Request `id` read at point `i`, for the ETA `eta`, and worked out `ts`. */
  predicate WorkedOut(s: System, acts: seq<Action>, i: nat, id: Id, v: Id, eta: Instant, ts: Targets) {
    && FirstStep(s, acts, i, id)
    && var before := Run(s, acts[..i]);
       var task := before.tasks[id];
       && Retimes(task.request) && task.request.visit == v
       && EtaFor(before.db, task) == Some(eta)
       && FindVisit(before.db, task.restaurant, v).Some?
       && OrderTargets(before.db, task.restaurant, v, eta) == Some(ts)
  }

  lemma CarriedWasWorkedOut(s: System, acts: seq<Action>, id: Id) returns (i: nat, eta: Instant)
    requires id !in s.tasks && id in Run(s, acts).tasks && Carried(Run(s, acts).tasks[id]).Some?
    ensures WorkedOut(s, acts, i, id, Run(s, acts).tasks[id].request.visit, eta, Carried(Run(s, acts).tasks[id]).value)
  {
    i := PendingWasRead(s, acts, id);
    var before := Run(s, acts[..i]);
    eta := EtaFor(before.db, before.tasks[id]).value;
  }

  /** No step after `acts[j]` writes the targets of `v`. */
  predicate NoWriterAfter(s: System, acts: seq<Action>, j: nat, v: Id)
    decreases |acts|
  {
    |acts| <= j + 1 ||
    (var n := |acts| - 1;
     !WritesTargets(Run(s, acts[..n]), acts[n], v) && NoWriterAfter(s, acts[..n], j, v))
  }

  lemma {:induction false} NoWriterAfterMeans(s: System, acts: seq<Action>, j: nat, v: Id, m: nat)
    requires NoWriterAfter(s, acts, j, v) && j < m < |acts|
    ensures !WritesTargets(Run(s, acts[..m]), acts[m], v)
    decreases |acts|
  {
    var n := |acts| - 1;
    if m < n {
      NoWriterAfterMeans(s, acts[..n], j, v, m);
      assert acts[..n][..m] == acts[..m];
    }
  }

  /** `acts[j]` writes the targets of `v`, and no later step does. */
  predicate LastWriter(s: System, acts: seq<Action>, j: nat, v: Id) {
    j < |acts| && WritesTargets(Run(s, acts[..j]), acts[j], v) && NoWriterAfter(s, acts, j, v)
  }

  lemma LaterStillWorkedOut(s: System, acts: seq<Action>, n: nat, i: nat, id: Id, v: Id, eta: Instant, ts: Targets)
    requires n <= |acts| && WorkedOut(s, acts[..n], i, id, v, eta, ts)
    ensures WorkedOut(s, acts, i, id, v, eta, ts)
  {
    assert acts[..n][..i] == acts[..i] && acts[..n][i] == acts[i];
  }

  lemma StillTheLastWriter(s: System, acts: seq<Action>, j: nat, v: Id)
    requires acts != [] && LastWriter(s, acts[..|acts| - 1], j, v)
    requires !WritesTargets(Run(s, acts[..|acts| - 1]), acts[|acts| - 1], v)
    ensures LastWriter(s, acts, j, v)
  {
    assert acts[..|acts| - 1][..j] == acts[..j] && acts[..|acts| - 1][j] == acts[j];
  }

  /** The writer of the last step is the last writer. */
  lemma NewestWriter(s: System, acts: seq<Action>, v: Id) returns (i: nat, eta: Instant, ts: Targets)
    requires s.tasks == map[] && acts != []
    requires WritesTargets(Run(s, acts[..|acts| - 1]), acts[|acts| - 1], v)
    ensures i < |acts| - 1 && LastWriter(s, acts, |acts| - 1, v)
    ensures WorkedOut(s, acts, i, acts[|acts| - 1].task, v, eta, ts)
    ensures v in Run(s, acts).db.visits && HoldsTargets(Run(s, acts).db.visits[v], ts)
  {
    var n := |acts| - 1;
    var before, id := Run(s, acts[..n]), acts[n].task;
    RunBack(s, acts);
    WriterWrites(before, acts[n], v);
    i, eta := CarriedWasWorkedOut(s, acts[..n], id);
    ts := Carried(before.tasks[id]).value;
    LaterStillWorkedOut(s, acts, n, i, id, v, eta, ts);
  }

  lemma NoWriterSameTargets(s: System, acts: seq<Action>, v: Id)
    requires acts != [] && !WritesTargets(Run(s, acts[..|acts| - 1]), acts[|acts| - 1], v)
    requires v in Run(s, acts).db.visits && Run(s, acts).db.visits[v].kitchenStartTarget.Some?
    ensures v in Run(s, acts[..|acts| - 1]).db.visits
    ensures SameTargets(Run(s, acts[..|acts| - 1]).db.visits[v], Run(s, acts).db.visits[v])
  {
    var before, last := Run(s, acts[..|acts| - 1]), acts[|acts| - 1];
    RunBack(s, acts);
    if v in before.db.visits {
      OthersKeepTargets(before, last, v);
    } else if last.Advance? && last.task in before.tasks {
      OnlyOwnRow(before.db, before.tasks[last.task], last.now);
    }
  }

  /** Main result: whatever interleaves, the targets on a row are those its last writer
      worked out from the order, the dishes and the buffers at its own read step, for its
      own ETA. */
  lemma {:induction false} TargetsAreTheLastWriters(s: System, acts: seq<Action>, v: Id)
    returns (i: nat, j: nat, eta: Instant, ts: Targets)
    requires s.tasks == map[]
    requires v in s.db.visits ==> s.db.visits[v].kitchenStartTarget == None
    requires v in Run(s, acts).db.visits && Run(s, acts).db.visits[v].kitchenStartTarget.Some?
    ensures i < j && LastWriter(s, acts, j, v)
    ensures WorkedOut(s, acts, i, acts[j].task, v, eta, ts)
    ensures HoldsTargets(Run(s, acts).db.visits[v], ts)
    decreases |acts|
  {
    if acts == [] {
      assert false;
    } else {
      var n := |acts| - 1;
      if WritesTargets(Run(s, acts[..n]), acts[n], v) {
        j := n;
        i, eta, ts := NewestWriter(s, acts, v);
      } else {
        NoWriterSameTargets(s, acts, v);
        i, j, eta, ts := TargetsAreTheLastWriters(s, acts[..n], v);
        StillTheLastWriter(s, acts, j, v);
        LaterStillWorkedOut(s, acts, n, i, acts[j].task, v, eta, ts);
      }
    }
  }

  /** From a point after which nobody writes them, the targets of a row stay. */
  lemma {:induction false} UnwrittenTargetsStay(s: System, acts: seq<Action>, k: nat, v: Id)
    requires k < |acts| && NoWriterAfter(s, acts, k, v) && v in Run(s, acts[..k + 1]).db.visits
    ensures v in Run(s, acts).db.visits
    ensures SameTargets(Run(s, acts[..k + 1]).db.visits[v], Run(s, acts).db.visits[v])
    decreases |acts|
  {
    var n := |acts| - 1;
    if k == n {
      assert acts[..k + 1] == acts;
    } else {
      assert acts[..n][..k + 1] == acts[..k + 1];
      UnwrittenTargetsStay(s, acts[..n], k, v);
      RunBack(s, acts);
      OthersKeepTargets(Run(s, acts[..n]), acts[n], v);
    }
  }

  /** If somebody wrote them after `acts[k]`, the row holds what the last such writer carried. */
  lemma {:induction false} LaterWriter(s: System, acts: seq<Action>, k: nat, v: Id) returns (j: nat)
    requires k < |acts| && !NoWriterAfter(s, acts, k, v)
    ensures k < j && LastWriter(s, acts, j, v)
    ensures v in Run(s, acts).db.visits
    ensures HoldsTargets(Run(s, acts).db.visits[v], Carried(Run(s, acts[..j]).tasks[acts[j].task]).value)
    decreases |acts|
  {
    var n := |acts| - 1;
    RunBack(s, acts);
    if WritesTargets(Run(s, acts[..n]), acts[n], v) {
      j := n;
      WriterWrites(Run(s, acts[..n]), acts[n], v);
    } else {
      j := LaterWriter(s, acts[..n], k, v);
      StillTheLastWriter(s, acts, j, v);
      OthersKeepTargets(Run(s, acts[..n]), acts[n], v);
      assert acts[..n][..j] == acts[..j];
    }
  }
}
