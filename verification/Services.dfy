/** The services, statement by statement. Each method takes the actions other requests
    perform between its own transactions, so it is proved for every interleaving: the
    rows and the answer it leaves are those of a run of the protocol in which its own
    steps and the others' alternate as given. What is proved of runs holds of it. */
module Services {
  import opened Domain
  import opened TimingEngine
  import opened Protocol
  import opened TargetHistory
  import opened OrderTiming
  import opened Backend

  /** The run so far, and what it answers. */
  predicate Answers(before: System, after: System, trace: seq<Action>, me: Id, outcome: Outcome) {
    after == Run(before, trace) && me in after.tasks && after.tasks[me].phase == Finished(outcome)
  }

  class VisitsService {
    const store: Store

    constructor (store: Store)
      ensures this.store == store
    {
      this.store := store;
    }

    /** visits.service.ts, confirm. `between` runs after the pre-read, `later` after a lost claim. */
    method Confirm(me: Id, r: Id, v: Id, c: Id, between: seq<Action>, later: seq<Action>, now: Instant)
      returns (outcome: Outcome, ghost trace: seq<Action>)
      requires me !in store.tasks && Foreign(between, me) && Foreign(later, me)
      modifies store
      ensures trace <= [Arrive(me, r, Request.Confirm(v, c)), Advance(me, now)] + between
                       + [Advance(me, now)] + later + [Advance(me, now)]
      ensures Answers(old(store.State()), store.State(), trace, me, outcome)
    {
      ghost var start := store.State();
      trace := store.Begin(me, r, Request.Confirm(v, c), now);
      ghost var before := store.State();
      var phase := CheckDraft(r, v, c);
      ConfirmSteps(before.db, r, v, c, 0, now);
      store.Settle(me, phase, now, before);
      if phase.Finished? {
        return phase.outcome, trace;
      }

      trace := store.Interleave(me, between, now, start, trace);
      before := store.State();
      ConfirmSteps(before.db, r, v, c, phase.table, now);
      phase := Book(r, v, c, phase.table, now);
      store.Settle(me, phase, now, before);
      if phase.Finished? {
        return phase.outcome, trace;
      }

      // the claim was lost: read the row again
      trace := store.Interleave(me, later, now, start, trace);
      before := store.State();
      outcome := Resolve(r, v, c);
      ConfirmSteps(before.db, r, v, c, 0, now);
      store.Settle(me, Finished(outcome), now, before);
    }

    lemma ConfirmSteps(db: Db, r: Id, v: Id, c: Id, t: Id, now: Instant)
      ensures TaskStep(db, Task(r, Request.Confirm(v, c), Ready), now) == (db, ConfirmRead(db, r, v, c))
      ensures TaskStep(db, Task(r, Request.Confirm(v, c), Checked(t)), now) == ConfirmCommit(db, r, v, c, t, now)
      ensures TaskStep(db, Task(r, Request.Confirm(v, c), ClaimLost), now) == (db, ConfirmReread(db, r, v, c))
    {
    }

    /** A lost claim is a repeated confirm if the row is now this customer's. */
    method Resolve(r: Id, v: Id, c: Id) returns (outcome: Outcome)
      ensures Finished(outcome) == ConfirmReread(store.Rows(), r, v, c)
    {
      var current := FindVisit(store.Rows(), r, v);
      if current == None {
        return NotFound;
      }
      if current.value.status == Confirmed && current.value.customer == Some(c) {
        return ConfirmedVisit(true);
      }
      return Rejected(NotDraft);
    }

    /** The transaction: claim the visit, claim the table, stamp and log. A throw
        restores what it wrote. */
    method Book(r: Id, v: Id, c: Id, t: Id, now: Instant) returns (phase: Phase)
      modifies store`visits, store`tables, store`events
      ensures ConfirmCommit(old(store.Rows()), r, v, c, t, now) == (store.Rows(), phase)
      ensures phase.Finished? || phase == ClaimLost
    {
      var saved := store.visits;
      var visit := FindVisit(store.Rows(), r, v);
      if visit == None || visit.value.status != Draft {
        return ClaimLost;
      }
      store.visits := store.visits[v := visit.value.(status := Confirmed, arrivalConfirmedAt := Some(now),
                                                     customer := Some(c), updatedAt := now)];
      if !TableIs(store.Rows(), r, t, Free) {
        store.visits := saved;
        return Finished(Rejected(TableTaken));
      }
      store.tables := store.tables[t := store.tables[t].(status := Held)];
      store.visits := store.visits[v := store.visits[v].(tableAssignedAt := Some(now), updatedAt := now)];
      assert store.visits == saved[v := store.visits[v]];
      store.events := store.events + [StatusEvent(r, v, Confirmed, c)];
      return Finished(ConfirmedVisit(false));
    }

    /** The pre-read and its checks, in order. */
    method CheckDraft(r: Id, v: Id, c: Id) returns (phase: Phase)
      ensures phase == ConfirmRead(store.Rows(), r, v, c)
      ensures phase.Finished? || phase.Checked?
    {
      var visit := FindVisit(store.Rows(), r, v);
      if visit == None {
        return Finished(NotFound);
      }
      var row := visit.value;
      if row.status == Confirmed {
        if row.customer != Some(c) {
          return Finished(NotFound);
        }
        return Finished(ConfirmedVisit(true));
      }
      if row.status != Draft {
        return Finished(Rejected(NotDraft));
      }
      if row.customer != None && row.customer != Some(c) {
        return Finished(NotFound);
      }
      if row.partySize == None {
        return Finished(Rejected(MissingPartySize));
      }
      if row.arrivalEta == None {
        return Finished(Rejected(MissingArrivalEta));
      }
      if row.table == None {
        return Finished(Rejected(MissingTable));
      }
      var gone := UnavailableItems(store.Rows(), r, ItemsOf(store.Rows(), v));
      if gone != [] {
        return Finished(Rejected(ItemsUnavailable(gone)));
      }
      return Checked(row.table.value);
    }
  }

  class TableReassignmentService {
    const store: Store

    constructor (store: Store)
      ensures this.store == store
    {
      this.store := store;
    }

    /** table-reassignment.service.ts, reassign. */
    method Reassign(me: Id, r: Id, v: Id, newTable: Id, between: seq<Action>, now: Instant)
      returns (outcome: Outcome, ghost trace: seq<Action>)
      requires me !in store.tasks && Foreign(between, me)
      modifies store
      ensures trace <= [Arrive(me, r, Request.Reassign(v, newTable)), Advance(me, now)] + between + [Advance(me, now)]
      ensures Answers(old(store.State()), store.State(), trace, me, outcome)
    {
      ghost var start := store.State();
      trace := store.Begin(me, r, Request.Reassign(v, newTable), now);
      ghost var before := store.State();
      var phase := CheckVisit(r, v, newTable);
      store.Settle(me, phase, now, before);
      if phase.Finished? {
        return phase.outcome, trace;
      }
      trace := store.Interleave(me, between, now, start, trace);
      before := store.State();
      outcome := MoveTable(r, v, newTable, phase.table, now);
      store.Settle(me, Finished(outcome), now, before);
    }

    /** The pre-read: an active visit, at a table, and not at this one already. */
    method CheckVisit(r: Id, v: Id, newTable: Id) returns (phase: Phase)
      ensures phase == ReassignRead(store.Rows(), r, v, newTable)
      ensures phase.Finished? || phase.Checked?
    {
      var visit := FindVisit(store.Rows(), r, v);
      if visit == None {
        return Finished(NotFound);
      }
      if !Active(visit.value.status) {
        return Finished(Rejected(VisitNotActive));
      }
      if visit.value.table == None {
        return Finished(Rejected(VisitNotActive));
      }
      if visit.value.table == Some(newTable) {
        return Finished(ReassignedTo(newTable, true));
      }
      return Checked(visit.value.table.value);
    }

    /** The transaction: claim the new table, move the visit, release the old table. */
    method MoveTable(r: Id, v: Id, newTable: Id, previous: Id, now: Instant) returns (outcome: Outcome)
      modifies store`visits, store`tables
      ensures ReassignCommit(old(store.Rows()), r, v, newTable, previous, now) == (store.Rows(), Finished(outcome))
    {
      if !TableIs(store.Rows(), r, newTable, Free) {
        return Rejected(TableTaken);
      }
      var savedTables := store.tables;
      store.tables := store.tables[newTable := store.tables[newTable].(status := Held)];
      var visit := FindVisit(store.Rows(), r, v);
      if visit == None || visit.value.table != Some(previous) || !Active(visit.value.status) {
        store.tables := savedTables;
        return Rejected(StaleUpdate);
      }
      var row := visit.value.(table := Some(newTable), tableAssignedAt := Some(now), updatedAt := now);
      store.visits := store.visits[v := row];
      if TableIs(store.Rows(), r, previous, Held) {
        store.tables := store.tables[previous := store.tables[previous].(status := Free)];
      }
      return ReassignedTo(newTable, false);
    }
  }

  class KitchenService {
    const store: Store

    constructor (store: Store)
      ensures this.store == store
    {
      this.store := store;
    }

    /** kitchen.service.ts, markFoodOut: the gate's read, then the conditional write. */
    method MarkFoodOut(me: Id, r: Id, v: Id, staff: Id, between: seq<Action>, later: seq<Action>, now: Instant)
      returns (outcome: Outcome, ghost trace: seq<Action>)
      requires me !in store.tasks && Foreign(between, me) && Foreign(later, me)
      modifies store
      ensures trace <= [Arrive(me, r, Serve(v, staff)), Advance(me, now)] + between
                       + [Advance(me, now)] + later + [Advance(me, now)]
      ensures Answers(old(store.State()), store.State(), trace, me, outcome)
    {
      ghost var start := store.State();
      trace := store.Begin(me, r, Serve(v, staff), now);
      ghost var before := store.State();
      var phase := FoodOutGate(r, v);
      ServeSteps(before.db, r, v, staff, now);
      store.Settle(me, phase, now, before);
      if phase.Finished? {
        return phase.outcome, trace;
      }
      trace := store.Interleave(me, between, now, start, trace);
      before := store.State();
      phase := SendOut(r, v, staff, now);
      ServeSteps(before.db, r, v, staff, now);
      store.Settle(me, phase, now, before);
      if phase.Finished? {
        return phase.outcome, trace;
      }
      trace := store.Interleave(me, later, now, start, trace);
      before := store.State();
      outcome := Explain(r, v);
      ServeSteps(before.db, r, v, staff, now);
      store.Settle(me, Finished(outcome), now, before);
    }

    lemma ServeSteps(db: Db, r: Id, v: Id, staff: Id, now: Instant)
      ensures TaskStep(db, Task(r, Serve(v, staff), Ready), now) == (db, ServeGate(db, r, v))
      ensures TaskStep(db, Task(r, Serve(v, staff), GatePassed), now) == ServeClaim(db, r, v, staff, now)
      ensures TaskStep(db, Task(r, Serve(v, staff), ClaimLost), now) == (db, ServeReread(db, r, v))
    {
    }

    /** The gate: flags need an acknowledgment. */
    method FoodOutGate(r: Id, v: Id) returns (phase: Phase)
      ensures phase == ServeGate(store.Rows(), r, v)
      ensures phase.Finished? || phase == GatePassed
    {
      if FindVisit(store.Rows(), r, v) == None {
        return Finished(NotFound);
      }
      if HasFlags(ItemsOf(store.Rows(), v)) && v !in store.acks {
        return Finished(Rejected(AllergyNotAcknowledged));
      }
      return GatePassed;
    }

    method Explain(r: Id, v: Id) returns (outcome: Outcome)
      ensures Finished(outcome) == ServeReread(store.Rows(), r, v)
    {
      var current := FindVisit(store.Rows(), r, v);
      if current == None {
        return NotFound;
      }
      if current.value.status == FoodOut || current.value.status == Completed {
        return FoodServed(true);
      }
      return Rejected(NotInProgress);
    }

    /** The conditional write to food_out, and its event. */
    method SendOut(r: Id, v: Id, staff: Id, now: Instant) returns (phase: Phase)
      modifies store`visits, store`events
      ensures ServeClaim(old(store.Rows()), r, v, staff, now) == (store.Rows(), phase)
      ensures phase.Finished? || phase == ClaimLost
    {
      var visit := FindVisit(store.Rows(), r, v);
      if visit == None || visit.value.status != KitchenStarted {
        return ClaimLost;
      }
      store.visits := store.visits[v := visit.value.(status := FoodOut, updatedAt := now)];
      store.events := store.events + [StatusEvent(r, v, FoodOut, staff)];
      return Finished(FoodServed(false));
    }

    /** kitchen.service.ts, acknowledgeAllergies: read, then a unique insert. */
    method AcknowledgeAllergies(me: Id, r: Id, v: Id, staff: Id, between: seq<Action>, now: Instant)
      returns (outcome: Outcome, ghost trace: seq<Action>)
      requires me !in store.tasks && Foreign(between, me)
      modifies store
      ensures trace <= [Arrive(me, r, Acknowledge(v, staff)), Advance(me, now)] + between + [Advance(me, now)]
      ensures Answers(old(store.State()), store.State(), trace, me, outcome)
    {
      ghost var start := store.State();
      trace := store.Begin(me, r, Acknowledge(v, staff), now);
      ghost var before := store.State();
      if FindVisit(store.Rows(), r, v) == None {
        outcome := NotFound;
        store.Settle(me, Finished(outcome), now, before);
        return;
      }
      if v in store.acks {
        outcome := Acknowledged(store.acks[v].at, true);
        store.Settle(me, Finished(outcome), now, before);
        return;
      }
      store.Settle(me, Unacknowledged, now, before);
      trace := store.Interleave(me, between, now, start, trace);
      before := store.State();
      if FindVisit(store.Rows(), r, v) == None {
        outcome := NotFound;
      } else if v in store.acks {
        outcome := Acknowledged(store.acks[v].at, true);
      } else {
        store.acks := store.acks[v := Acknowledgment(staff, now)];
        outcome := Acknowledged(now, false);
      }
      store.Settle(me, Finished(outcome), now, before);
    }
  }

  class TimingService {
    const store: Store

    constructor (store: Store)
      ensures this.store == store
    {
      this.store := store;
    }

    /** timing.service.ts, acceptKitchenStart. */
    method AcceptKitchenStart(me: Id, r: Id, v: Id, staff: Id, later: seq<Action>, now: Instant)
      returns (outcome: Outcome, ghost trace: seq<Action>)
      requires me !in store.tasks && Foreign(later, me)
      modifies store
      ensures trace <= [Arrive(me, r, Accept(v, staff)), Advance(me, now)] + later + [Advance(me, now)]
      ensures Answers(old(store.State()), store.State(), trace, me, outcome)
    {
      ghost var start := store.State();
      trace := store.Begin(me, r, Accept(v, staff), now);
      ghost var before := store.State();
      var phase := StartKitchen(r, v, staff, now);
      store.Settle(me, phase, now, before);
      if phase.Finished? {
        return phase.outcome, trace;
      }
      trace := store.Interleave(me, later, now, start, trace);
      before := store.State();
      var current := FindVisit(store.Rows(), r, v);
      if current == None {
        outcome := NotFound;
      } else if current.value.status in {KitchenStarted, TableSet, GuestArrived, FoodOut, Completed} {
        outcome := KitchenAccepted(true);
      } else {
        outcome := Rejected(NotConfirmed);
      }
      store.Settle(me, Finished(outcome), now, before);
    }

    /** The conditional write to kitchen_started, and its event. */
    method StartKitchen(r: Id, v: Id, staff: Id, now: Instant) returns (phase: Phase)
      modifies store`visits, store`events
      ensures AcceptClaim(old(store.Rows()), r, v, staff, now) == (store.Rows(), phase)
      ensures phase.Finished? || phase == ClaimLost
    {
      var visit := FindVisit(store.Rows(), r, v);
      if visit == None || visit.value.status != Confirmed {
        return ClaimLost;
      }
      store.visits := store.visits[v := visit.value.(status := KitchenStarted, updatedAt := now)];
      store.events := store.events + [StatusEvent(r, v, KitchenStarted, staff)];
      return Finished(KitchenAccepted(false));
    }

    /** timing.service.ts, recompute: the read of recomputeTargets, then its conditional write. */
    method Recompute(me: Id, r: Id, v: Id, between: seq<Action>, now: Instant)
      returns (outcome: Outcome, ghost trace: seq<Action>)
      requires me !in store.tasks && Foreign(between, me)
      modifies store
      ensures trace <= [Arrive(me, r, Request.Recompute(v)), Advance(me, now)] + between + [Advance(me, now)]
      ensures Answers(old(store.State()), store.State(), trace, me, outcome)
      ensures outcome.Applied? ==>
                && v in old(store.visits) && old(store.visits)[v].arrivalEta.Some?
                && SuitsOrder(old(store.Rows()), r, v, old(store.visits)[v].arrivalEta.value, outcome.newTargets)
                && v in store.visits && HoldsTargets(store.visits[v], outcome.newTargets)
    {
      ghost var start := store.State();
      var phase;
      phase, trace := BeginRecompute(me, r, v, now);
      if phase.Finished? {
        return phase.outcome, trace;
      }
      trace := store.Interleave(me, between, now, start, trace);
      ghost var before := store.State();
      outcome := WriteTargets(r, v, phase.retimed, phase.seen, now);
      WriteIsTheStep(before.db, r, v, phase.retimed, phase.seen, now);
      store.Settle(me, Finished(outcome), now, before);
    }

    /** The request arrives and its read runs: it is answered, or has targets that suit the order. */
    method BeginRecompute(me: Id, r: Id, v: Id, now: Instant) returns (phase: Phase, ghost trace: seq<Action>)
      requires me !in store.tasks
      modifies store
      ensures trace == [Arrive(me, r, Request.Recompute(v)), Advance(me, now)]
      ensures store.State() == Run(old(store.State()), trace)
      ensures me in store.tasks && store.tasks[me] == Task(r, Request.Recompute(v), phase)
      ensures phase.Finished? ==> !phase.outcome.Applied?
      ensures !phase.Finished? ==>
                && phase.Retiming?
                && v in old(store.visits) && old(store.visits)[v].arrivalEta.Some?
                && SuitsOrder(old(store.Rows()), r, v, old(store.visits)[v].arrivalEta.value, phase.retimed)
    {
      trace := store.Begin(me, r, Request.Recompute(v), now);
      ghost var before := store.State();
      phase := ReadTargets(r, v);
      if phase.Retiming? {
        TargetsSuitTheOrder(store.Rows(), r, v, store.visits[v].arrivalEta.value);
      }
      store.Settle(me, phase, now, before);
    }

    /** With the targets in hand, the write is the request's next step. */
    lemma WriteIsTheStep(db: Db, r: Id, v: Id, targets: Targets, seen: Option<Instant>, now: Instant)
      ensures TaskStep(db, Task(r, Request.Recompute(v), Retiming(targets, seen)), now)
          == RecomputeWrite(db, r, v, targets, seen, now)
    {
    }

    /** The read of recomputeTargets, and the reasons not to go on. */
    method ReadTargets(r: Id, v: Id) returns (phase: Phase)
      ensures phase == RecomputeRead(store.Rows(), r, v)
      ensures phase.Finished? || phase.Retiming?
    {
      var visit := FindVisit(store.Rows(), r, v);
      if visit == None {
        return Finished(NotFound);
      }
      if visit.value.status != Confirmed {
        return Finished(Rejected(VisitNotConfirmed));
      }
      if visit.value.arrivalEta == None {
        return Finished(Rejected(VisitNotReady));
      }
      var targets := OrderTargets(store.Rows(), r, v, visit.value.arrivalEta.value);
      if targets == None {
        return Finished(Rejected(VisitNotReady));
      }
      return Retiming(targets.value, visit.value.kitchenStartTarget);
    }

    /** The write, conditional on the visit still being confirmed. The answer reports the
        start target that was read, whatever the row holds by now. */
    method WriteTargets(r: Id, v: Id, targets: Targets, seen: Option<Instant>, now: Instant) returns (outcome: Outcome)
      modifies store`visits
      ensures RecomputeWrite(old(store.Rows()), r, v, targets, seen, now) == (store.Rows(), Finished(outcome))
    {
      var visit := FindVisit(store.Rows(), r, v);
      if visit == None || visit.value.status != Confirmed {
        return Rejected(VisitNotConfirmed);
      }
      store.visits := store.visits[v := WithTargets(visit.value, targets).(updatedAt := now)];
      return Applied(targets, seen);
    }

    /** While an ETA change holds its row lock nobody else writes the row. */
    predicate RowLocked(s: System, acts: seq<Action>, r: Id, v: Id)
      decreases |acts|
    {
      acts == [] ||
      (FindVisit(Step(s, acts[0]).db, r, v) == FindVisit(s.db, r, v) && RowLocked(Step(s, acts[0]), acts[1..], r, v))
    }

    lemma {:induction false} LockKeepsRow(s: System, acts: seq<Action>, r: Id, v: Id)
      requires RowLocked(s, acts, r, v)
      ensures FindVisit(Run(s, acts).db, r, v) == FindVisit(s.db, r, v)
      decreases |acts|
    {
      if acts != [] {
        LockKeepsRow(Step(s, acts[0]), acts[1..], r, v);
      }
    }

    lemma {:induction false} LockSplits(s: System, a: seq<Action>, b: seq<Action>, r: Id, v: Id)
      requires RowLocked(s, a + b, r, v)
      ensures RowLocked(s, a, r, v) && RowLocked(Run(s, a), b, r, v)
      decreases |a|
    {
      if a == [] {
        assert a + b == b;
      } else {
        assert (a + b)[1..] == a[1..] + b;
        LockSplits(Step(s, a[0]), a[1..], b, r, v);
      }
    }

    /** timing.service.ts, recomputeForEtaChange, in the source's order: the claim; then,
        with the row locked, `beforeRead` runs, the order is read, `beforeCommit` runs, and
        the transaction commits. What others do in both windows may touch items and dishes.
        The run is the protocol's, where the claim is made at the commit. */
    method RecomputeForEtaChange(me: Id, r: Id, v: Id, eta: Instant, expected: Instant,
                                 beforeRead: seq<Action>, beforeCommit: seq<Action>, now: Instant)
      returns (outcome: Outcome, ghost trace: seq<Action>)
      requires me !in store.tasks && Foreign(beforeRead, me) && Foreign(beforeCommit, me)
      requires EtaClaims(store.Rows(), r, v, expected) ==>
                 RowLocked(Step(store.State(), Arrive(me, r, ChangeEta(v, eta, expected))),
                           beforeRead + ([Advance(me, now)] + beforeCommit), r, v)
      modifies store
      ensures trace == [Arrive(me, r, ChangeEta(v, eta, expected))] +
                       if EtaClaims(old(store.Rows()), r, v, expected)
                       then beforeRead + [Advance(me, now)] + beforeCommit + [Advance(me, now)]
                       else [Advance(me, now), Advance(me, now)] + beforeRead + [Advance(me, now)]
      ensures Answers(old(store.State()), store.State(), trace, me, outcome)
      ensures outcome.Applied? ==>
                && v in store.visits && store.visits[v].arrivalEta == Some(eta)
                && HoldsTargets(store.visits[v], outcome.newTargets)
                && SuitsOrder(Run(Step(old(store.State()), Arrive(me, r, ChangeEta(v, eta, expected))), beforeRead).db,
                              r, v, eta, outcome.newTargets)
    {
      ghost var start := store.State();
      var claimed := FindVisit(store.Rows(), r, v);
      if claimed.Some? && claimed.value.status == Confirmed && claimed.value.updatedAt == expected {
        outcome, trace := ClaimedEtaChange(me, r, v, eta, expected, claimed.value, beforeRead, beforeCommit, now);
        if outcome.Applied? {
          TargetsSuitTheOrder(Run(Step(start, Arrive(me, r, ChangeEta(v, eta, expected))), beforeRead).db, r, v, eta);
        }
      } else {
        outcome, trace := LostEtaChange(me, r, v, eta, expected, beforeRead, now);
      }
    }

    method ClaimedEtaChange(me: Id, r: Id, v: Id, eta: Instant, expected: Instant, visit: Visit,
                            beforeRead: seq<Action>, beforeCommit: seq<Action>, now: Instant)
      returns (outcome: Outcome, ghost trace: seq<Action>)
      requires me !in store.tasks && Foreign(beforeRead, me) && Foreign(beforeCommit, me)
      requires EtaClaims(store.Rows(), r, v, expected) && FindVisit(store.Rows(), r, v) == Some(visit)
      requires RowLocked(Step(store.State(), Arrive(me, r, ChangeEta(v, eta, expected))),
                         beforeRead + ([Advance(me, now)] + beforeCommit), r, v)
      modifies store
      ensures trace == [Arrive(me, r, ChangeEta(v, eta, expected))]
          + (beforeRead + [Advance(me, now)] + beforeCommit + [Advance(me, now)])
      ensures Answers(old(store.State()), store.State(), trace, me, outcome)
      ensures outcome.Applied? ==>
                && v in store.visits && store.visits[v].arrivalEta == Some(eta)
                && HoldsTargets(store.visits[v], outcome.newTargets)
                && OrderTargets(Run(Step(old(store.State()), Arrive(me, r, ChangeEta(v, eta, expected))),
                                    beforeRead).db,
                                r, v, eta) == Some(outcome.newTargets)
    {
      ghost var start := store.State();
      var targets;
      targets, trace := ReadUnderLock(me, r, v, eta, expected, beforeRead, beforeCommit, now);
      trace := store.Interleave(me, beforeCommit, now, start, trace);
      ghost var before := store.State();
      EtaWriteIsTheStep(before.db, r, v, eta, expected, targets, now);
      outcome := WriteEta(r, v, eta, visit, targets, now);
      store.Settle(me, Finished(outcome), now, before);
    }

    /** The row is claimed: others run, then the order is read. Its row is still the claimed
        one when the transaction comes to commit. */
    method ReadUnderLock(me: Id, r: Id, v: Id, eta: Instant, expected: Instant,
                         beforeRead: seq<Action>, ghost beforeCommit: seq<Action>, now: Instant)
      returns (targets: Option<Targets>, ghost trace: seq<Action>)
      requires me !in store.tasks && Foreign(beforeRead, me) && FindVisit(store.Rows(), r, v).Some?
      requires RowLocked(Step(store.State(), Arrive(me, r, ChangeEta(v, eta, expected))),
                         beforeRead + ([Advance(me, now)] + beforeCommit), r, v)
      modifies store
      ensures trace == [Arrive(me, r, ChangeEta(v, eta, expected))] + beforeRead + [Advance(me, now)]
      ensures store.State() == Run(old(store.State()), trace)
      ensures targets == OrderTargets(Run(Step(old(store.State()), Arrive(me, r, ChangeEta(v, eta, expected))),
                                          beforeRead).db,
                                      r, v, eta)
      ensures me in store.tasks && store.tasks[me] == Task(r, ChangeEta(v, eta, expected), Computed(targets))
      ensures FindVisit(Run(store.State(), beforeCommit).db, r, v) == FindVisit(old(store.Rows()), r, v)
    {
      ghost var start := store.State();
      trace := store.Begin(me, r, ChangeEta(v, eta, expected), now);
      RunOneMore(start, [], Arrive(me, r, ChangeEta(v, eta, expected)));
      LockSplits(store.State(), beforeRead, [Advance(me, now)] + beforeCommit, r, v);
      LockKeepsRow(store.State(), beforeRead, r, v);
      trace := store.Interleave(me, beforeRead, now, start, [] + [Arrive(me, r, ChangeEta(v, eta, expected))]);
      LockAfterTheRead(store.State(), me, beforeCommit, r, v, now);
      ghost var before := store.State();
      targets := OrderTargets(store.Rows(), r, v, eta);
      EtaReadIsTheStep(before.db, r, v, eta, expected, now);
      store.Settle(me, Computed(targets), now, before);
    }

    lemma EtaReadIsTheStep(db: Db, r: Id, v: Id, eta: Instant, expected: Instant, now: Instant)
      ensures TaskStep(db, Task(r, ChangeEta(v, eta, expected), Ready), now)
           == (db, Computed(if FindVisit(db, r, v).Some? then OrderTargets(db, r, v, eta) else None))
    {
    }

    lemma EtaRereadIsTheStep(db: Db, r: Id, v: Id, eta: Instant, expected: Instant, now: Instant)
      ensures TaskStep(db, Task(r, ChangeEta(v, eta, expected), ClaimLost), now) == (db, ChangeEtaReread(db, r, v))
    {
    }

    lemma EtaWriteIsTheStep(db: Db, r: Id, v: Id, eta: Instant, expected: Instant, targets: Option<Targets>,
                            now: Instant)
      ensures TaskStep(db, Task(r, ChangeEta(v, eta, expected), Computed(targets)), now)
           == ChangeEtaCommit(db, r, v, eta, expected, targets, now)
    {
    }

    lemma LockAfterTheRead(s: System, me: Id, beforeCommit: seq<Action>, r: Id, v: Id, now: Instant)
      requires RowLocked(s, [Advance(me, now)] + beforeCommit, r, v)
      ensures FindVisit(Run(Step(s, Advance(me, now)), beforeCommit).db, r, v) == FindVisit(s.db, r, v)
    {
      assert ([Advance(me, now)] + beforeCommit)[1..] == beforeCommit;
      LockKeepsRow(s, [Advance(me, now)] + beforeCommit, r, v);
    }

    method LostEtaChange(me: Id, r: Id, v: Id, eta: Instant, expected: Instant, others: seq<Action>, now: Instant)
      returns (outcome: Outcome, ghost trace: seq<Action>)
      requires me !in store.tasks && Foreign(others, me) && !EtaClaims(store.Rows(), r, v, expected)
      modifies store
      ensures trace == [Arrive(me, r, ChangeEta(v, eta, expected))] +
                       ([Advance(me, now), Advance(me, now)] + others + [Advance(me, now)])
      ensures Answers(old(store.State()), store.State(), trace, me, outcome) && !outcome.Applied?
    {
      ghost var start := store.State();
      trace := store.Begin(me, r, ChangeEta(v, eta, expected), now);
      ghost var before := store.State();
      var order := if FindVisit(store.Rows(), r, v).Some? then OrderTargets(store.Rows(), r, v, eta) else None;
      EtaReadIsTheStep(before.db, r, v, eta, expected, now);
      store.Settle(me, Computed(order), now, before);
      before := store.State();
      EtaWriteIsTheStep(before.db, r, v, eta, expected, order, now);
      RunOneMore(start, trace, Advance(me, now));
      store.Settle(me, ClaimLost, now, before);
      trace := store.Interleave(me, others, now, start, trace + [Advance(me, now)]);
      before := store.State();
      outcome := ExplainLostClaim(r, v);
      EtaRereadIsTheStep(before.db, r, v, eta, expected, now);
      store.Settle(me, Finished(outcome), now, before);
    }

    method ExplainLostClaim(r: Id, v: Id) returns (outcome: Outcome)
      ensures Finished(outcome) == ChangeEtaReread(store.Rows(), r, v) && !outcome.Applied?
    {
      var current := FindVisit(store.Rows(), r, v);
      if current == None {
        return NotFound;
      }
      if current.value.status != Confirmed {
        return Rejected(VisitNotConfirmed);
      }
      return Rejected(StaleUpdate);
    }

    /** The writes of the claimed transaction: the new ETA, then the targets if there are any. */
    method WriteEta(r: Id, v: Id, eta: Instant, visit: Visit, targets: Option<Targets>, now: Instant)
        returns (outcome: Outcome)
      requires FindVisit(store.Rows(), r, v) == Some(visit) && visit.status == Confirmed
      modifies store`visits
      ensures ChangeEtaCommit(old(store.Rows()), r, v, eta, visit.updatedAt, targets, now)
          == (store.Rows(), Finished(outcome))
      ensures outcome.Applied? ==>
                && targets == Some(outcome.newTargets)
                && v in store.visits && store.visits[v].arrivalEta == Some(eta)
                && HoldsTargets(store.visits[v], outcome.newTargets)
    {
      ghost var before := store.Rows();
      var row := visit.(arrivalEta := Some(eta), updatedAt := now);
      store.visits := store.visits[v := row];
      assert store.Rows() == PutVisit(before, v, row);
      if targets == None {
        return Rejected(VisitNotReady);
      }
      store.visits := store.visits[v := WithTargets(row, targets.value)];
      assert store.Rows() == PutVisit(before, v, WithTargets(row, targets.value));
      return Applied(targets.value, visit.kitchenStartTarget);
    }
  }

  class IntakeTools {
    const store: Store

    constructor (store: Store)
      ensures this.store == store
    {
      this.store := store;
    }

    /** tool-handlers.ts, proposeTable: a read that the table is free, then an unguarded write. */
    method ProposeTable(me: Id, r: Id, v: Id, t: Id, between: seq<Action>, now: Instant)
      returns (outcome: Outcome, ghost trace: seq<Action>)
      requires me !in store.tasks && Foreign(between, me)
      modifies store
      ensures trace <= [Arrive(me, r, Request.ProposeTable(v, t)), Advance(me, now)] + between + [Advance(me, now)]
      ensures Answers(old(store.State()), store.State(), trace, me, outcome)
    {
      ghost var start := store.State();
      trace := store.Begin(me, r, Request.ProposeTable(v, t), now);
      ghost var before := store.State();
      if !TableIs(store.Rows(), r, t, Free) {
        outcome := Rejected(Unavailable);
        store.Settle(me, Finished(outcome), now, before);
        return;
      }
      store.Settle(me, Checked(t), now, before);
      trace := store.Interleave(me, between, now, start, trace);
      before := store.State();
      var visit := FindVisit(store.Rows(), r, v);
      if visit.Some? {
        store.visits := store.visits[v := visit.value.(table := Some(t), updatedAt := now)];
      }
      outcome := Done;
      store.Settle(me, Finished(outcome), now, before);
    }

    /** tool-handlers.ts, addOrderItem: the dish must exist and be available; then the insert. */
    method AddOrderItem(me: Id, r: Id, v: Id, item: Item, between: seq<Action>, now: Instant)
      returns (outcome: Outcome, ghost trace: seq<Action>)
      requires me !in store.tasks && Foreign(between, me)
      modifies store
      ensures trace <= [Arrive(me, r, AddItem(v, item)), Advance(me, now)] + between + [Advance(me, now)]
      ensures Answers(old(store.State()), store.State(), trace, me, outcome)
    {
      ghost var start := store.State();
      trace := store.Begin(me, r, AddItem(v, item), now);
      ghost var before := store.State();
      var dish := FindMenuItem(store.Rows(), r, item.menuItem);
      if dish == None || !dish.value.available {
        outcome := Rejected(Unavailable);
        store.Settle(me, Finished(outcome), now, before);
        return;
      }
      store.Settle(me, Available, now, before);
      trace := store.Interleave(me, between, now, start, trace);
      before := store.State();
      if FindVisit(store.Rows(), r, v) == None {
        outcome := NotFound;
      } else {
        store.items := store.items[v := ItemsOf(store.Rows(), v) + [item]];
        outcome := Done;
      }
      store.Settle(me, Finished(outcome), now, before);
    }

    /** tool-handlers.ts, setPartyDetails: only the fields given are written. */
    method SetPartyDetails(r: Id, v: Id, partySize: Option<int>, eta: Option<Instant>, now: Instant)
      modifies store`visits
      ensures store.Rows() == SetPartyWrite(old(store.Rows()), r, v, partySize, eta, now)
    {
      var visit := FindVisit(store.Rows(), r, v);
      if visit == None {
        return;
      }
      var row := visit.value;
      if partySize.Some? {
        row := row.(partySize := partySize);
      }
      if eta.Some? {
        row := row.(arrivalEta := eta);
      }
      store.visits := store.visits[v := row.(updatedAt := now)];
    }

    /** tool-handlers.ts, updateOrderItem: a line of this visit, or nothing. */
    method UpdateOrderItem(r: Id, v: Id, id: Id, quantity: Option<int>, modifications: Option<seq<string>>,
                           flags: Option<seq<string>>)
      returns (found: bool)
      modifies store`items
      ensures UpdateItemWrite(old(store.Rows()), r, v, id, quantity, modifications, flags)
           == (store.Rows(), Finished(if found then Done else Rejected(ItemNotFound)))
    {
      var items := ItemsOf(store.Rows(), v);
      var k := IndexOf(items, id);
      if FindVisit(store.Rows(), r, v) == None || k == |items| {
        return false;
      }
      var line := items[k];
      if quantity.Some? {
        line := line.(quantity := quantity.value);
      }
      if modifications.Some? {
        line := line.(modifications := modifications.value);
      }
      if flags.Some? {
        line := line.(allergyFlags := flags.value);
      }
      store.items := store.items[v := items[k := line]];
      return true;
    }

    /** tool-handlers.ts, removeOrderItem. */
    method RemoveOrderItem(r: Id, v: Id, id: Id) returns (removed: bool)
      modifies store`items
      ensures RemoveItemWrite(old(store.Rows()), r, v, id)
           == (store.Rows(), Finished(if removed then Done else Rejected(ItemNotFound)))
    {
      var items := ItemsOf(store.Rows(), v);
      var k := IndexOf(items, id);
      if FindVisit(store.Rows(), r, v) == None || k == |items| {
        return false;
      }
      store.items := store.items[v := items[..k] + items[k + 1..]];
      return true;
    }
  }
}
