/** From the first day of a deployment on: every state any run reaches. */
module Deployment {
  import opened Domain
  import opened Protocol
  import opened RowHistory
  import opened Identity
  import opened Completeness
  import opened AuditLog
  import opened Exclusivity
  import opened TableCounts
  import opened AllergyGate
  import Answers

  /** Restaurants, menus and free tables; no visit yet and no request in flight. */
  predicate Opening(s: System) {
    && s.tasks == map[]
    && s.db.visits == map[] && s.db.items == map[] && s.db.acks == map[] && s.db.events == []
    && (forall t :: t in s.db.tables ==> s.db.tables[t].status == Free)
  }

  lemma OpeningIsSound(s: System)
    requires Opening(s)
    ensures Bound(s) && Complete(s) && Audited(s.db) && EnoughHeld(s.db)
    ensures Exclusive(s.db) && SnapshotsFresh(s) && GateHolds(s) && AllExpire(s.db)
  {
    forall r ensures |BookedVisits(s.db, r)| <= |HeldTables(s.db, r)| {
      assert BookedVisits(s.db, r) == {};
    }
  }

  /** What the services alone guarantee, whatever the intake conversations do: bookings are
      complete, the audit trail tells their status, each belongs to one customer, and no
      restaurant has more of them than held tables. Every visit keeps an expiry. */
  lemma EveryReachableState(s: System, acts: seq<Action>)
    requires Opening(s)
    ensures
      var end := Run(s, acts);
      Complete(end) && Audited(end.db) && Bound(end) && EnoughHeld(end.db) && AllExpire(end.db)
  {
    OpeningIsSound(s);
    BookedVisitsAreComplete(s, acts);
    StatusIsTheReplay(s, acts);
    RunKeepsBound(s, acts);
    HeldTablesNeverFewer(s, acts);
    ExpiryIsNeverCleared(s, acts);
  }

  /** With conversations that leave tables and flags alone once a booking depends on
      them: every booked visit has a held table to itself, every held table a booked
      visit, and no flagged order has gone out unacknowledged. */
  lemma EveryQuietlyReachableState(s: System, acts: seq<Action>, v: Id)
    requires Opening(s) && ProposalsStandBackAlong(s, acts) && FlagsStandStillAlong(s, acts)
    requires v in Run(s, acts).db.visits && Run(s, acts).db.visits[v].status in {Confirmed, KitchenStarted, FoodOut}
    ensures
      var db := Run(s, acts).db;
      var row, log := db.visits[v], LogOf(db.events, v);
      && CompleteRow(row) && IsHeld(db, row.table.value)
      && db.tables[row.table.value].restaurant == row.restaurant
      && (forall w :: SitsAt(db, w, row.table.value) <==> w == v)
      && InOrder(log) && |log| > 0 && row.status == log[|log| - 1].status
      && row.customer == Some(log[0].actor)
      && (row.status == FoodOut ==> v in db.acks || Answers.NoFlags(db, v))
  {
    OpeningIsSound(s);
    EveryReachableState(s, acts);
    TablesAreExclusive(s, acts);
    FoodOutIsCleared(s, acts);
    var db := Run(s, acts).db;
    Answers.ClearedIff(db, v);
    assert RowComplete(db, v) && VisitAudited(db, v);
    assert SitsAt(db, v, db.visits[v].table.value);
  }
}
