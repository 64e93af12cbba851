/** NotificationService.claimThenSend: at most one send per (visit, type), for any
    number of processes, redelivered events and crashes between any two steps. The
    protocol rests on the unique key of the claim row alone. */
module Notifications {
  import opened Domain

  datatype NotificationType = BookingConfirmation | NewInboundAlert | EtaDriftAlert

  datatype Key = Key(visit: Id, notificationType: NotificationType)

  datatype LogStatus = Pending | Sent | Failed

  /** A claim row; `claimer` is the process that inserted it. */
  datatype Row = Row(claimer: nat, status: LogStatus)

  /** Where a process is inside claimThenSend. `Marking` is the catch block. */
  datatype Stage = Claiming | Claimed | Delivered | Marking | Over

  datatype Worker = Worker(key: Key, stage: Stage)

  datatype Send = Send(key: Key, worker: nat, ok: bool)

  datatype State = State(log: map<Key, Row>, workers: map<nat, Worker>, sends: seq<Send>)

  /** `ok` says whether the statement, or the provider call, goes through. */
  datatype Event =
    | Begin(worker: nat, key: Key)
    | Proceed(worker: nat, ok: bool)
    | Die(worker: nat)

  function SetStage(s: State, w: nat, stage: Stage): State
    requires w in s.workers
  {
    s.(workers := s.workers[w := s.workers[w].(stage := stage)])
  }

  function SetStatus(s: State, key: Key, status: LogStatus): State {
    if key in s.log then s.(log := s.log[key := s.log[key].(status := status)]) else s
  }

  const EMPTY := State(map[], map[], [])

  function Next(s: State, e: Event): State {
    match e
    case Begin(w, key) => if w in s.workers then s else s.(workers := s.workers[w := Worker(key, Claiming)])
    case Die(w) => if w in s.workers then SetStage(s, w, Over) else s
    case Proceed(w, ok) =>
      if w !in s.workers then s
      else
        var Worker(key, stage) := s.workers[w];
        match stage
        case Claiming =>
          if key in s.log || !ok then SetStage(s, w, Over)
          else SetStage(s.(log := s.log[key := Row(w, Pending)]), w, Claimed)
        case Claimed =>
          SetStage(s.(sends := s.sends + [Send(key, w, ok)]), w, if ok then Delivered else Marking)
        case Delivered => if ok then SetStage(SetStatus(s, key, Sent), w, Over) else SetStage(s, w, Marking)
        case Marking => if ok then SetStage(SetStatus(s, key, Failed), w, Over) else SetStage(s, w, Over)
        case Over => s
  }

  function RunAll(s: State, events: seq<Event>): State
    decreases |events|
  {
    if events == [] then s else RunAll(Next(s, events[0]), events[1..])
  }

  // ---- The invariant ----

  /** The row a process past its claim holds. */
  predicate HoldsClaim(s: State, w: nat) {
    && w in s.workers
    && s.workers[w].key in s.log
    && s.log[s.workers[w].key] == Row(w, Pending)
  }

  predicate SendIs(s: State, i: int, key: Key, w: nat, ok: bool) {
    0 <= i < |s.sends| && s.sends[i] == Send(key, w, ok)
  }

  ghost predicate WorkerOk(s: State, w: nat)
    requires w in s.workers
  {
    var Worker(key, stage) := s.workers[w];
    && (stage in {Claimed, Delivered, Marking} ==> HoldsClaim(s, w))
    && (stage == Claimed ==> forall i :: 0 <= i < |s.sends| ==> s.sends[i].key != key)
    && (stage == Delivered ==> exists i :: SendIs(s, i, key, w, true))
  }

  predicate AtMostOnce(s: State) {
    forall i, j :: 0 <= i < j < |s.sends| ==> s.sends[i].key != s.sends[j].key
  }

  predicate SentByClaimer(s: State) {
    forall i :: 0 <= i < |s.sends| ==> s.sends[i].key in s.log && s.log[s.sends[i].key].claimer == s.sends[i].worker
  }

  ghost predicate SentMeansDelivered(s: State) {
    forall key :: key in s.log && s.log[key].status == Sent ==> exists i :: SendIs(s, i, key, s.log[key].claimer, true)
  }

  ghost predicate Inv(s: State) {
    && (forall w :: w in s.workers ==> WorkerOk(s, w))
    && AtMostOnce(s) && SentByClaimer(s) && SentMeansDelivered(s)
  }

  lemma ClaimKeepsInv(s: State, w: nat)
    requires Inv(s) && w in s.workers && s.workers[w].stage == Claiming && s.workers[w].key !in s.log
    ensures Inv(Next(s, Proceed(w, true)))
  {
    var s' := Next(s, Proceed(w, true));
    forall u | u in s'.workers ensures WorkerOk(s', u) {
      assert WorkerOk(s, u);
      if s.workers[u].stage == Delivered {
        var i :| SendIs(s, i, s.workers[u].key, u, true);
        assert SendIs(s', i, s.workers[u].key, u, true);
      }
    }
    forall key | key in s'.log && s'.log[key].status == Sent
        ensures exists i :: SendIs(s', i, key, s'.log[key].claimer, true) {
      var i :| SendIs(s, i, key, s.log[key].claimer, true);
      assert SendIs(s', i, key, s'.log[key].claimer, true);
    }
  }

  lemma SendKeepsInv(s: State, w: nat, ok: bool)
    requires Inv(s) && w in s.workers && s.workers[w].stage == Claimed
    ensures Inv(Next(s, Proceed(w, ok)))
  {
    var s' := Next(s, Proceed(w, ok));
    var mine := s.workers[w].key;
    assert WorkerOk(s, w) && HoldsClaim(s, w);
    assert SendIs(s', |s.sends|, mine, w, ok);
    forall u | u in s'.workers ensures WorkerOk(s', u) {
      assert WorkerOk(s, u);
      if u != w && s.workers[u].stage == Delivered {
        var i :| SendIs(s, i, s.workers[u].key, u, true);
        assert SendIs(s', i, s.workers[u].key, u, true);
      }
    }
    forall key | key in s'.log && s'.log[key].status == Sent
        ensures exists i :: SendIs(s', i, key, s'.log[key].claimer, true) {
      var i :| SendIs(s, i, key, s.log[key].claimer, true);
      assert SendIs(s', i, key, s'.log[key].claimer, true);
    }
  }

  lemma MarkKeepsInv(s: State, w: nat, status: LogStatus)
    requires Inv(s) && w in s.workers && s.workers[w].stage in {Delivered, Marking}
    requires status == Failed || (status == Sent && s.workers[w].stage == Delivered)
    ensures Inv(SetStage(SetStatus(s, s.workers[w].key, status), w, Over))
  {
    var mine := s.workers[w].key;
    var s' := SetStage(SetStatus(s, mine, status), w, Over);
    assert WorkerOk(s, w) && HoldsClaim(s, w);
    forall u | u in s'.workers ensures WorkerOk(s', u) {
      assert WorkerOk(s, u);
      if u != w && s.workers[u].stage == Delivered {
        var i :| SendIs(s, i, s.workers[u].key, u, true);
        assert SendIs(s', i, s.workers[u].key, u, true);
      }
    }
    forall key | key in s'.log && s'.log[key].status == Sent
        ensures exists i :: SendIs(s', i, key, s'.log[key].claimer, true) {
      var i :| SendIs(s, i, key, s.log[key].claimer, true);
      assert SendIs(s', i, key, s'.log[key].claimer, true);
    }
  }

  /** A process that stops, fails to write or has not started changes no row and no send. */
  lemma QuietKeepsInv(s: State, s': State)
    requires Inv(s) && s'.log == s.log && s'.sends == s.sends
    requires forall u :: u in s'.workers ==>
               s'.workers[u].stage in {Claiming, Over} || (u in s.workers && s'.workers[u] == s.workers[u])
               || (u in s.workers && s.workers[u].stage == Delivered
                   && s'.workers[u] == s.workers[u].(stage := Marking))
    ensures Inv(s')
  {
    forall u | u in s'.workers ensures WorkerOk(s', u) {
      if u in s.workers {
        assert WorkerOk(s, u);
        if s.workers[u].stage == Delivered {
          var i :| SendIs(s, i, s.workers[u].key, u, true);
          assert SendIs(s', i, s.workers[u].key, u, true);
        }
      }
    }
    forall key | key in s'.log && s'.log[key].status == Sent
        ensures exists i :: SendIs(s', i, key, s'.log[key].claimer, true) {
      var i :| SendIs(s, i, key, s.log[key].claimer, true);
      assert SendIs(s', i, key, s'.log[key].claimer, true);
    }
  }

  lemma NextKeepsInv(s: State, e: Event)
    requires Inv(s)
    ensures Inv(Next(s, e))
  {
    if e.Proceed? && e.worker in s.workers {
      var w, stage := e.worker, s.workers[e.worker].stage;
      if stage == Claiming && e.ok && s.workers[w].key !in s.log {
        ClaimKeepsInv(s, w);
      } else if stage == Claimed {
        SendKeepsInv(s, w, e.ok);
      } else if stage == Delivered && e.ok {
        MarkKeepsInv(s, w, Sent);
      } else if stage == Marking && e.ok {
        MarkKeepsInv(s, w, Failed);
      } else {
        QuietKeepsInv(s, Next(s, e));
      }
    } else {
      QuietKeepsInv(s, Next(s, e));
    }
  }

  lemma {:induction false} RunKeepsInv(s: State, events: seq<Event>)
    requires Inv(s)
    ensures Inv(RunAll(s, events))
    decreases |events|
  {
    if events != [] {
      NextKeepsInv(s, events[0]);
      RunKeepsInv(Next(s, events[0]), events[1..]);
    }
  }

  /** Main result: from an empty log, over any schedule of any number of processes, no
      (visit, type) is sent twice, every send comes from the process that owns the
      claim row, and a row marked sent was delivered by its claimer. */
  lemma SendsAtMostOnce(events: seq<Event>)
    ensures
      var s := RunAll(EMPTY, events);
      AtMostOnce(s) && SentByClaimer(s) && SentMeansDelivered(s)
  {
    RunKeepsInv(EMPTY, events);
  }

  // ---- The life of a row ----

  /** A row is never deleted, keeps its claimer, and its status moves once, from
      pending, in a step of its claimer. */
  lemma RowMovesOnce(s: State, e: Event, key: Key)
    requires Inv(s) && key in s.log
    ensures
      var s' := Next(s, e);
      && key in s'.log
      && s'.log[key].claimer == s.log[key].claimer
      && (s'.log[key].status != s.log[key].status ==>
            s.log[key].status == Pending && e.Proceed? && e.worker == s.log[key].claimer)
  {
    if e.Proceed? && e.worker in s.workers {
      assert WorkerOk(s, e.worker);
    }
  }

  lemma {:induction false} SettledRowsStay(s: State, events: seq<Event>, key: Key)
    requires Inv(s) && key in s.log && s.log[key].status != Pending
    ensures key in RunAll(s, events).log && RunAll(s, events).log[key] == s.log[key]
    decreases |events|
  {
    if events != [] {
      RowMovesOnce(s, events[0], key);
      NextKeepsInv(s, events[0]);
      SettledRowsStay(Next(s, events[0]), events[1..], key);
    }
  }

  lemma {:induction false} RunAllConcat(s: State, a: seq<Event>, b: seq<Event>)
    ensures RunAll(s, a + b) == RunAll(RunAll(s, a), b)
    decreases |a|
  {
    if a == [] {
      assert a + b == b;
    } else {
      assert (a + b)[1..] == a[1..] + b;
      RunAllConcat(Next(s, a[0]), a[1..], b);
    }
  }

  lemma RunAllBack(s: State, events: seq<Event>)
    requires events != []
    ensures RunAll(s, events) == Next(RunAll(s, events[..|events| - 1]), events[|events| - 1])
  {
    var last := events[|events| - 1];
    assert events == events[..|events| - 1] + [last] && [last][1..] == [];
    RunAllConcat(s, events[..|events| - 1], [last]);
  }

  // ---- Where a send comes from ----

  /** Every process was started for its key. */
  predicate Started(s: State, events: seq<Event>) {
    forall w :: w in s.workers ==> Begin(w, s.workers[w].key) in events
  }

  /** Every row belongs to a process of its key, and so does every send. */
  predicate Rooted(s: State) {
    && (forall key :: key in s.log ==> s.log[key].claimer in s.workers && s.workers[s.log[key].claimer].key == key)
    && (forall i :: 0 <= i < |s.sends| ==>
            s.sends[i].worker in s.workers && s.workers[s.sends[i].worker].key == s.sends[i].key)
  }

  lemma NextKeepsRooted(s: State, e: Event)
    requires Rooted(s)
    ensures Rooted(Next(s, e))
  {
    KeysStay(s, e);
  }

  lemma KeysStay(s: State, e: Event)
    ensures forall w :: w in s.workers ==> w in Next(s, e).workers && Next(s, e).workers[w].key == s.workers[w].key
  {
  }

  lemma {:induction false} RunsAreRooted(events: seq<Event>)
    ensures Rooted(RunAll(EMPTY, events)) && Started(RunAll(EMPTY, events), events)
    decreases |events|
  {
    if events != [] {
      var n := |events| - 1;
      RunAllBack(EMPTY, events);
      RunsAreRooted(events[..n]);
      NextKeepsRooted(RunAll(EMPTY, events[..n]), events[n]);
      NextKeepsStarted(RunAll(EMPTY, events[..n]), events);
    }
  }

  lemma NextKeepsStarted(before: State, events: seq<Event>)
    requires events != [] && Started(before, events[..|events| - 1])
    ensures Started(Next(before, events[|events| - 1]), events)
  {
    assert forall e :: e in events[..|events| - 1] ==> e in events;
  }

  // ---- Delivered, yet marked failed ----

  /** Process `w` has sent, with this outcome. */
  predicate SendBy(s: State, w: nat, ok: bool) {
    exists i :: 0 <= i < |s.sends| && s.sends[i].worker == w && s.sends[i].ok == ok
  }

  lemma SendGrows(s: State, e: Event, w: nat, ok: bool)
    ensures SendBy(Next(s, e), w, ok) <==>
              SendBy(s, w, ok) || (e == Proceed(w, ok) && w in s.workers && s.workers[w].stage == Claimed)
  {
    var next := Next(s, e);
    if SendBy(s, w, ok) {
      var i :| 0 <= i < |s.sends| && s.sends[i].worker == w && s.sends[i].ok == ok;
      assert next.sends[i] == s.sends[i];
    }
    if e == Proceed(w, ok) && w in s.workers && s.workers[w].stage == Claimed {
      assert next.sends[|s.sends|] == Send(s.workers[w].key, w, ok);
    }
  }

  /** At event `j` process `w`, having delivered, failed to record it. */
  predicate LosesRecord(events: seq<Event>, j: nat, w: nat) {
    && j < |events| && events[j] == Proceed(w, false)
    && var before := RunAll(EMPTY, events[..j]);
       w in before.workers && before.workers[w].stage == Delivered
  }

  ghost predicate LostRecord(events: seq<Event>, w: nat) {
    exists j :: 0 <= j < |events| && LosesRecord(events, j, w)
  }

  /** What the stage of a process, and in the end its row, says about its send. */
  ghost predicate StageTells(s: State, events: seq<Event>, w: nat)
    requires w in s.workers
  {
    var Worker(key, stage) := s.workers[w];
    match stage
    case Claiming => !SendBy(s, w, true) && !LostRecord(events, w)
    case Claimed => !SendBy(s, w, true) && !LostRecord(events, w)
    case Delivered => SendBy(s, w, true) && !LostRecord(events, w)
    case Marking => SendBy(s, w, true) <==> LostRecord(events, w)
    case Over => key in s.log && s.log[key] == Row(w, Failed) ==> (SendBy(s, w, true) <==> LostRecord(events, w))
  }

  lemma LostRecordGrows(events: seq<Event>, w: nat)
    requires events != []
    ensures LostRecord(events, w) <==> LostRecord(events[..|events| - 1], w) || LosesRecord(events, |events| - 1, w)
  {
    var n := |events| - 1;
    forall j | 0 <= j < n ensures LosesRecord(events, j, w) <==> LosesRecord(events[..n], j, w) {
      assert events[..n][..j] == events[..j];
    }
    if LostRecord(events[..n], w) {
      var j :| 0 <= j < n && LosesRecord(events[..n], j, w);
      assert LosesRecord(events, j, w);
    }
  }

  lemma {:induction false} NobodySentOrLost(events: seq<Event>, w: nat)
    requires w !in RunAll(EMPTY, events).workers
    ensures !SendBy(RunAll(EMPTY, events), w, true) && !LostRecord(events, w)
    decreases |events|
  {
    RunsAreRooted(events);
    if events != [] {
      RunAllBack(EMPTY, events);
      NobodySentOrLost(events[..|events| - 1], w);
      LostRecordGrows(events, w);
    }
  }

  lemma {:induction false} StagesTell(events: seq<Event>, w: nat)
    requires w in RunAll(EMPTY, events).workers
    ensures StageTells(RunAll(EMPTY, events), events, w)
    decreases |events|
  {
    if events == [] {
      assert false;
    } else {
      var n := |events| - 1;
      var before := RunAll(EMPTY, events[..n]);
      RunAllBack(EMPTY, events);
      if w in before.workers {
        StagesTell(events[..n], w);
        RunKeepsInv(EMPTY, events[..n]);
        StepTells(before, events, w);
      } else {
        NobodySentOrLost(events[..n], w);
        LostRecordGrows(events, w);
        SendGrows(before, events[n], w, true);
      }
    }
  }

  lemma StepTells(before: State, events: seq<Event>, w: nat)
    requires events != [] && before == RunAll(EMPTY, events[..|events| - 1]) && Inv(before)
    requires w in before.workers && StageTells(before, events[..|events| - 1], w)
    ensures w in Next(before, events[|events| - 1]).workers && StageTells(Next(before, events[|events| - 1]), events, w)
  {
    var e := events[|events| - 1];
    LostRecordGrows(events, w);
    SendGrows(before, e, w, true);
    assert WorkerOk(before, w);
    if e.Proceed? && e.worker in before.workers && e.worker != w {
      OthersLeaveMyRow(before, e, w);
    }
  }

  lemma OthersLeaveMyRow(s: State, e: Event, w: nat)
    requires Inv(s) && e.Proceed? && e.worker in s.workers && e.worker != w && w in s.workers
    ensures
      var key, s' := s.workers[w].key, Next(s, e);
      && s'.workers[w] == s.workers[w]
      && (key in s'.log && s'.log[key].claimer == w ==> key in s.log && s'.log[key] == s.log[key])
  {
    assert WorkerOk(s, e.worker);
  }

  /** Main result: over any schedule, a row marked failed was delivered all the same if and
      only if its claimer, having delivered, failed to record it. */
  lemma {:induction false} FailedAfterDeliveryIff(events: seq<Event>, key: Key)
    requires key in RunAll(EMPTY, events).log && RunAll(EMPTY, events).log[key].status == Failed
    ensures
      var end := RunAll(EMPTY, events);
      var w := end.log[key].claimer;
      (exists i :: SendIs(end, i, key, w, true)) <==> (exists j :: 0 <= j < |events| && LosesRecord(events, j, w))
  {
    var end := RunAll(EMPTY, events);
    var w := end.log[key].claimer;
    RunsAreRooted(events);
    RunKeepsInv(EMPTY, events);
    StagesTell(events, w);
    assert WorkerOk(end, w);
    if SendBy(end, w, true) {
      var i :| 0 <= i < |end.sends| && end.sends[i].worker == w && end.sends[i].ok == true;
      assert SendIs(end, i, key, w, true);
    }
    if i :| SendIs(end, i, key, w, true) {
      assert SendBy(end, w, true);
    }
  }

  /** It happens: the provider takes the message, the update to sent fails, the update to
      failed goes through. */
  lemma DeliveredYetFailed(key: Key)
    ensures
      var end := RunAll(EMPTY, [Begin(1, key), Proceed(1, true), Proceed(1, true), Proceed(1, false),
                                Proceed(1, true)]);
      end.sends == [Send(key, 1, true)] && end.log == map[key := Row(1, Failed)]
  {
    var events := [Begin(1, key), Proceed(1, true), Proceed(1, true), Proceed(1, false), Proceed(1, true)];
    var s1 := Next(EMPTY, events[0]);
    var s2 := Next(s1, events[1]);
    var s3 := Next(s2, events[2]);
    var s4 := Next(s3, events[3]);
    var s5 := Next(s4, events[4]);
    assert RunAll(EMPTY, events) == s5 by {
      assert RunAll(s4, events[4..]) == s5;
      assert RunAll(s3, events[3..]) == s5;
      assert RunAll(s2, events[2..]) == s5;
      assert RunAll(s1, events[1..]) == s5;
    }
  }

  // ---- What the log holds, read off the events alone ----

  /** One process as the schedule shows it: the key it was started for, whether its statements
      went through, in order, and whether it died. */
  datatype Track = Unstarted | Track(key: Key, oks: seq<bool>, dead: bool)

  function TrackOf(events: seq<Event>, w: nat): Track {
    if events == [] then Unstarted
    else
      var track, e := TrackOf(events[..|events| - 1], w), events[|events| - 1];
      match track
      case Unstarted => if e.Begin? && e.worker == w then Track(e.key, [], false) else Unstarted
      case Track(key, oks, dead) =>
        if dead || e.worker != w then track
        else
          match e
          case Begin(_, _) => track
          case Proceed(_, ok) => Track(key, oks + [ok], false)
          case Die(_) => Track(key, oks, true)
  }

  /** The insert went through, the provider took the message, and recording it went through. */
  predicate Recorded(oks: seq<bool>) {
    |oks| >= 3 && oks[0] && oks[1] && oks[2]
  }

  /** The insert went through, then the provider call failed and the update to failed went
      through, or the call went through, recording it failed, and the update to failed went
      through. */
  predicate MarkedFailed(oks: seq<bool>) {
    || (|oks| >= 3 && oks[0] && !oks[1] && oks[2])
    || (|oks| >= 4 && oks[0] && oks[1] && !oks[2] && oks[3])
  }

  predicate Owns(s: State, w: nat, key: Key) {
    key in s.log && s.log[key].claimer == w
  }

  /** The stage a process has reached after these outcomes. */
  function StageAfter(owns: bool, oks: seq<bool>, dead: bool): Stage {
    if dead then Over
    else if oks == [] then Claiming
    else if !owns then Over
    else if |oks| == 1 then Claimed
    else if |oks| == 2 then (if oks[1] then Delivered else Marking)
    else if |oks| == 3 && oks[1] && !oks[2] then Marking
    else Over
  }

  function StatusAfter(oks: seq<bool>): LogStatus {
    if Recorded(oks) then Sent else if MarkedFailed(oks) then Failed else Pending
  }

  /** A process, its row and its send are what its track says. */
  ghost predicate Tracked(s: State, events: seq<Event>, w: nat) {
    match TrackOf(events, w)
    case Unstarted => w !in s.workers
    case Track(key, oks, dead) =>
      && w in s.workers && s.workers[w] == Worker(key, StageAfter(Owns(s, w, key), oks, dead))
      && (Owns(s, w, key) ==> |oks| > 0 && oks[0] && s.log[key].status == StatusAfter(oks))
      && (|oks| > 0 && oks[0] ==> key in s.log)
  }

  lemma TrackGrows(events: seq<Event>, e: Event, w: nat)
    ensures
      var track := TrackOf(events, w);
      TrackOf(events + [e], w)
      == if e.worker != w then track
         else match track
              case Unstarted => if e.Begin? then Track(e.key, [], false) else Unstarted
              case Track(key, oks, dead) =>
                if dead || e.Begin? then track
                else if e.Proceed? then Track(key, oks + [e.ok], false) else Track(key, oks, true)
  {
    assert (events + [e])[..|events|] == events;
  }

  /** Another process's event leaves this one's stage, and its row, alone. */
  lemma OthersKeepTracked(s: State, events: seq<Event>, e: Event, w: nat)
    requires Inv(s) && Rooted(s) && Tracked(s, events, w) && e.worker != w
    ensures Tracked(Next(s, e), events + [e], w)
  {
    TrackGrows(events, e, w);
    if e.Proceed? && e.worker in s.workers {
      assert WorkerOk(s, e.worker);
    }
  }

  lemma OwnKeepsTracked(s: State, events: seq<Event>, e: Event, w: nat)
    requires Inv(s) && Rooted(s) && Tracked(s, events, w) && e.worker == w
    ensures Tracked(Next(s, e), events + [e], w)
  {
    TrackGrows(events, e, w);
    if w in s.workers {
      assert WorkerOk(s, w);
    }
  }

  lemma {:induction false} RunsAreTracked(events: seq<Event>, w: nat)
    ensures Tracked(RunAll(EMPTY, events), events, w)
    decreases |events|
  {
    if events != [] {
      var n := |events| - 1;
      var before := RunAll(EMPTY, events[..n]);
      RunAllBack(EMPTY, events);
      RunsAreTracked(events[..n], w);
      RunKeepsInv(EMPTY, events[..n]);
      RunsAreRooted(events[..n]);
      assert events == events[..n] + [events[n]];
      if events[n].worker == w {
        OwnKeepsTracked(before, events[..n], events[n], w);
      } else {
        OthersKeepTracked(before, events[..n], events[n], w);
      }
    }
  }

  /** Main result: over any schedule, a row belongs to a process whose insert went through;
      it is sent if and only if that process delivered and recorded it, failed if and only
      if its update to failed went through, and pending otherwise. */
  lemma StatusIsWhatTheEventsSay(events: seq<Event>, key: Key)
    requires key in RunAll(EMPTY, events).log
    ensures
      var row := RunAll(EMPTY, events).log[key];
      var track := TrackOf(events, row.claimer);
      && track.Track? && track.key == key && |track.oks| > 0 && track.oks[0]
      && (row.status == Sent <==> Recorded(track.oks))
      && (row.status == Failed <==> MarkedFailed(track.oks))
  {
    RunsAreTracked(events, RunAll(EMPTY, events).log[key].claimer);
    RunsAreRooted(events);
  }

  predicate SecondStatement(s: State, events: seq<Event>, w: nat, ok: bool) {
    var track := TrackOf(events, w);
    track.Track? && Owns(s, w, track.key) && |track.oks| >= 2 && track.oks[1] == ok
  }

  /** A process sends exactly once it owns the row and takes its second statement, and the
      outcome is that statement's. */
  lemma {:induction false} SendsAreSecondStatements(events: seq<Event>, w: nat, ok: bool)
    ensures SendBy(RunAll(EMPTY, events), w, ok) <==> SecondStatement(RunAll(EMPTY, events), events, w, ok)
    decreases |events|
  {
    if events != [] {
      var n := |events| - 1;
      RunAllBack(EMPTY, events);
      SendsAreSecondStatements(events[..n], w, ok);
      SendGrows(RunAll(EMPTY, events[..n]), events[n], w, ok);
      SecondStatementGrows(events[..n], events[n], w, ok);
      assert events == events[..n] + [events[n]];
    }
  }

  lemma SecondStatementGrows(events: seq<Event>, e: Event, w: nat, ok: bool)
    ensures
      var before := RunAll(EMPTY, events);
      SecondStatement(Next(before, e), events + [e], w, ok) <==>
        || SecondStatement(before, events, w, ok)
        || (e == Proceed(w, ok) && w in before.workers && before.workers[w].stage == Claimed)
  {
    RunsAreTracked(events, w);
    RunsAreRooted(events);
    RunKeepsInv(EMPTY, events);
    if e.worker == w {
      OwnSecondStatement(RunAll(EMPTY, events), events, e, w, ok);
    } else {
      OthersSecondStatement(RunAll(EMPTY, events), events, e, w, ok);
    }
  }

  lemma OwnSecondStatement(s: State, events: seq<Event>, e: Event, w: nat, ok: bool)
    requires Inv(s) && Tracked(s, events, w) && e.worker == w
    ensures SecondStatement(Next(s, e), events + [e], w, ok) <==>
              SecondStatement(s, events, w, ok)
                  || (e == Proceed(w, ok) && w in s.workers && s.workers[w].stage == Claimed)
  {
    TrackGrows(events, e, w);
    if w in s.workers { assert WorkerOk(s, w); }
  }

  lemma OthersSecondStatement(s: State, events: seq<Event>, e: Event, w: nat, ok: bool)
    requires Tracked(s, events, w) && e.worker != w
    ensures SecondStatement(Next(s, e), events + [e], w, ok) <==> SecondStatement(s, events, w, ok)
  {
    TrackGrows(events, e, w);
  }

  /** There is a row as soon as any process of the key got its insert through, or lost it to
      the row of another. */
  lemma ClaimedIff(events: seq<Event>, key: Key)
    ensures key in RunAll(EMPTY, events).log <==> exists w :: Inserted(events, w, key)
  {
    if key in RunAll(EMPTY, events).log {
      StatusIsWhatTheEventsSay(events, key);
      assert Inserted(events, RunAll(EMPTY, events).log[key].claimer, key);
    }
    if w :| Inserted(events, w, key) {
      RunsAreTracked(events, w);
    }
  }

  predicate Inserted(events: seq<Event>, w: nat, key: Key) {
    var track := TrackOf(events, w);
    track.Track? && track.key == key && |track.oks| > 0 && track.oks[0]
  }

  // ---- The service ----

  /** Events of other processes. */
  predicate Foreign(events: seq<Event>, me: nat) {
    forall i :: 0 <= i < |events| ==> events[i].worker != me
  }

  lemma {:induction false} ForeignKeepsWorker(s: State, events: seq<Event>, me: nat)
    requires Foreign(events, me) && me in s.workers
    ensures me in RunAll(s, events).workers && RunAll(s, events).workers[me] == s.workers[me]
    decreases |events|
  {
    if events != [] {
      ForeignKeepsWorker(Next(s, events[0]), events[1..], me);
    }
  }

  lemma {:induction false} SendsGrow(s: State, events: seq<Event>)
    ensures s.sends <= RunAll(s, events).sends
    decreases |events|
  {
    if events != [] {
      SendsGrow(Next(s, events[0]), events[1..]);
    }
  }

  lemma OneMore(s: State, events: seq<Event>, e: Event)
    ensures RunAll(s, events + [e]) == Next(RunAll(s, events), e)
  {
    RunAllConcat(s, events, [e]);
    assert [e][1..] == [];
  }

  /** The first k statements of one process, with other processes running before each. */
  function Schedule(me: nat, key: Key, others: seq<seq<Event>>, oks: seq<bool>, k: nat): seq<Event>
    requires k <= |others| && k <= |oks|
  {
    if k == 0 then [Begin(me, key)]
        else Schedule(me, key, others, oks, k - 1) + others[k - 1] + [Proceed(me, oks[k - 1])]
  }

  /** One process, with other processes running before each of its statements. */
  class NotificationService {
    var log: map<Key, Row>
    var workers: map<nat, Worker>
    var sends: seq<Send>

    constructor ()
      ensures Now() == EMPTY
    {
      log, workers, sends := map[], map[], [];
    }

    function Now(): State
      reads this
    {
      State(log, workers, sends)
    }

    method RunOthers(events: seq<Event>)
      modifies this
      ensures Now() == RunAll(old(Now()), events)
    {
      assert events[..0] == [];
      for k := 0 to |events|
        invariant Now() == RunAll(old(Now()), events[..k])
      {
        var next := Next(Now(), events[k]);
        OneMore(old(Now()), events[..k], events[k]);
        assert events[..k + 1] == events[..k] + [events[k]];
        log, workers, sends := next.log, next.workers, next.sends;
      }
      assert events[..|events|] == events;
    }

    /** Others run, then this process takes its step; `trace` grows by both. */
    method WaitFor(me: nat, others: seq<Event>, ok: bool, ghost start: State, ghost trace: seq<Event>)
      returns (ghost longer: seq<Event>)
      requires me in workers && Foreign(others, me) && Now() == RunAll(start, trace)
      modifies this
      ensures me in workers && workers[me] == old(workers)[me]
      ensures longer == trace + others + [Proceed(me, ok)]
      ensures RunAll(start, longer) == Next(Now(), Proceed(me, ok))
      ensures old(sends) <= sends
      ensures Inv(start) && workers[me].stage in {Claimed, Delivered, Marking} ==> HoldsClaim(Now(), me)
    {
      ForeignKeepsWorker(Now(), others, me);
      SendsGrow(Now(), others);
      if Inv(start) {
        RunKeepsInv(start, trace);
        RunKeepsInv(Now(), others);
        assert WorkerOk(RunAll(Now(), others), me);
      }
      RunAllConcat(start, trace, others);
      RunOthers(others);
      OneMore(start, trace + others, Proceed(me, ok));
      longer := trace + others + [Proceed(me, ok)];
    }

    /** The insert of the claim row: it succeeds, hits the unique key, or fails otherwise. */
    method Claim(me: nat, key: Key, ok: bool) returns (claimed: bool)
      requires me in workers && workers[me] == Worker(key, Claiming)
      modifies this
      ensures Now() == Next(old(Now()), Proceed(me, ok))
      ensures claimed <==> ok && key !in old(log)
      ensures claimed ==> key in log && log[key] == Row(me, Pending)
      ensures ok ==> key in log
      ensures me in workers && workers[me] == Worker(key, if claimed then Claimed else Over)
    {
      claimed := ok && key !in log;
      if claimed {
        log := log[key := Row(me, Pending)];
      }
      workers := workers[me := Worker(key, if claimed then Claimed else Over)];
    }

    /** The provider call. */
    method Deliver(me: nat, key: Key, ok: bool)
      requires me in workers && workers[me] == Worker(key, Claimed)
      modifies this
      ensures Now() == Next(old(Now()), Proceed(me, ok))
      ensures me in workers && workers[me] == Worker(key, if ok then Delivered else Marking)
      ensures log == old(log) && sends == old(sends) + [Send(key, me, ok)]
    {
      sends := sends + [Send(key, me, ok)];
      workers := workers[me := Worker(key, if ok then Delivered else Marking)];
    }

    /** The update of the claim row to sent, in the try block. */
    method Record(me: nat, key: Key, ok: bool)
      requires me in workers && workers[me] == Worker(key, Delivered)
      modifies this
      ensures Now() == Next(old(Now()), Proceed(me, ok))
      ensures me in workers && workers[me] == Worker(key, if ok then Over else Marking)
      ensures key in old(log) ==>
          key in log && log[key] == old(log)[key].(status := if ok then Sent else old(log)[key].status)
      ensures sends == old(sends)
    {
      if ok && key in log {
        log := log[key := log[key].(status := Sent)];
      }
      workers := workers[me := Worker(key, if ok then Over else Marking)];
    }

    /** The update to failed, in the catch block. */
    method MarkFailed(me: nat, key: Key, ok: bool)
      requires me in workers && workers[me] == Worker(key, Marking)
      modifies this
      ensures Now() == Next(old(Now()), Proceed(me, ok))
      ensures me in workers && workers[me] == Worker(key, Over)
      ensures key in old(log) ==>
          key in log && log[key] == old(log)[key].(status := if ok then Failed else old(log)[key].status)
      ensures sends == old(sends)
    {
      if ok && key in log {
        log := log[key := log[key].(status := Failed)];
      }
      workers := workers[me := Worker(key, Over)];
    }

    /** claimThenSend. The flags say whether the insert, the provider call and the two
        updates go through. An insert that fails for another reason than the unique key, and
        a failing update to failed, are thrown on to the caller. Its run is the protocol's:
        what is proved of every schedule holds of it. */
    method ClaimThenSend(me: nat, key: Key, others: seq<seq<Event>>, claimOk: bool, sendOk: bool, recordOk: bool,
                         markOk: bool)
      returns (threw: bool, ghost steps: nat)
      requires me !in workers && |others| == 4 && forall i :: 0 <= i < 4 ==> Foreign(others[i], me)
      modifies this
      ensures 1 <= steps <= 4 && me in workers && workers[me] == Worker(key, Over)
      ensures Now() == RunAll(old(Now()),
                              Schedule(me, key, others,
                                       [claimOk, sendOk, if sendOk then recordOk else markOk, markOk], steps))
      ensures steps == 1 ==> (threw <==> !claimOk)
      ensures steps > 1 ==> claimOk && (threw <==> !(sendOk && recordOk) && !markOk)
      ensures Inv(old(Now())) && steps > 1 ==>
                && key in log
                && log[key] == Row(me, if sendOk && recordOk then Sent else if markOk then Failed else Pending)
                && Send(key, me, sendOk) in sends
      ensures steps == 1 && claimOk ==> key in log
    {
      ghost var start := Now();
      ghost var oks := [claimOk, sendOk, if sendOk then recordOk else markOk, markOk];
      workers := workers[me := Worker(key, Claiming)];
      OneMore(start, [], Begin(me, key));
      ghost var trace := WaitFor(me, others[0], claimOk, start, [] + [Begin(me, key)]);
      assert trace == Schedule(me, key, others, oks, 1);
      var claimed := Claim(me, key, claimOk);
      if !claimed {
        return !claimOk, 1; // thrown on, or already claimed
      }
      trace := WaitFor(me, others[1], sendOk, start, trace);
      assert trace == Schedule(me, key, others, oks, 2);
      ghost var at := |sends|;
      Deliver(me, key, sendOk);
      assert sends[at] == Send(key, me, sendOk);
      if !sendOk {
        trace := WaitFor(me, others[2], markOk, start, trace);
        assert trace == Schedule(me, key, others, oks, 3);
        MarkFailed(me, key, markOk);
        assert sends[at] == Send(key, me, sendOk);
        return !markOk, 3;
      }
      trace := WaitFor(me, others[2], recordOk, start, trace);
      assert trace == Schedule(me, key, others, oks, 3);
      Record(me, key, recordOk);
      if recordOk {
        assert sends[at] == Send(key, me, sendOk);
        return false, 3;
      }
      trace := WaitFor(me, others[3], markOk, start, trace);
      assert trace == Schedule(me, key, others, oks, 4);
      MarkFailed(me, key, markOk);
      assert sends[at] == Send(key, me, sendOk);
      return !markOk, 4;
    }
  }
}
