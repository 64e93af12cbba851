/** The rows of one RAISE deployment, as the API sees them through Prisma.

    Identifiers are uuids in the source; all that is used of them is equality.
    An `Instant` is a number of milliseconds since the epoch (`Date.getTime()`).
    Rows that hang off a visit (its items, its acknowledgment) are grouped by
    visit id, which is how every query in the modelled code reaches them. */
module Domain {

  type Id = int
  type Instant = int

  /** A single-use ticket for the realtime socket. */
  type Ticket = string

  /** The close code of the gateway that the dashboard must not answer by retrying. */
  const CLOSE_ORIGIN_NOT_ALLOWED := 4403

  datatype Option<+T> = None | Some(value: T)

  datatype VisitStatus =
    | Draft | Confirmed | KitchenStarted | TableSet | GuestArrived
    | FoodOut | Completed | Cancelled | NoShow

  datatype TableStatus = Free | Held | Seated

  datatype Visit = Visit(
    restaurant: Id,
    status: VisitStatus,
    customer: Option<Id>,
    partySize: Option<int>,
    arrivalEta: Option<Instant>,
    arrivalConfirmedAt: Option<Instant>,
    table: Option<Id>,
    tableAssignedAt: Option<Instant>,
    kitchenStartTarget: Option<Instant>,
    foodOutTarget: Option<Instant>,
    draftExpiresAt: Option<Instant>,
    updatedAt: Instant)

  datatype Table = Table(restaurant: Id, name: string, status: TableStatus)

  datatype MenuItem = MenuItem(restaurant: Id, name: string, prepTimeMinutes: int, available: bool)

  datatype Item = Item(id: Id, menuItem: Id, quantity: int, modifications: seq<string>, allergyFlags: seq<string>)

  /** One row of the append-only acknowledgment table, unique per visit. */
  datatype Acknowledgment = Acknowledgment(staff: Id, at: Instant)

  /** One row of the append-only audit trail. */
  datatype StatusEvent = StatusEvent(restaurant: Id, visit: Id, status: VisitStatus, actor: Id)

  /** The two timing keys of `Restaurant.settings`; `None` where the stored JSON
      holds no finite number under that key. */
  datatype Settings = Settings(avgPrepBufferMinutes: Option<real>, expoBufferMinutes: Option<real>)

  datatype Db = Db(
    visits: map<Id, Visit>,
    tables: map<Id, Table>,
    items: map<Id, seq<Item>>,
    menu: map<Id, MenuItem>,
    acks: map<Id, Acknowledgment>,
    events: seq<StatusEvent>,
    restaurants: map<Id, Settings>)

  /** The statuses "Tonight - Inbound" lists: a table is taken in each of them. */
  predicate Booked(status: VisitStatus) {
    status in {Confirmed, KitchenStarted, TableSet, GuestArrived, FoodOut}
  }

  /** The statuses in which a visit can still be moved to another table. */
  predicate Active(status: VisitStatus) {
    status in {Confirmed, KitchenStarted, TableSet, GuestArrived}
  }

  // ---- Tenant-scoped lookups: what `where: { id, restaurantId }` can see ----

  function FindVisit(db: Db, r: Id, v: Id): Option<Visit> {
    if v in db.visits && db.visits[v].restaurant == r then Some(db.visits[v]) else None
  }

  predicate TableIs(db: Db, r: Id, t: Id, status: TableStatus) {
    t in db.tables && db.tables[t].restaurant == r && db.tables[t].status == status
  }

  function FindMenuItem(db: Db, r: Id, m: Id): Option<MenuItem> {
    if m in db.menu && db.menu[m].restaurant == r then Some(db.menu[m]) else None
  }

  function ItemsOf(db: Db, v: Id): seq<Item> {
    if v in db.items then db.items[v] else []
  }

  function SettingsOf(db: Db, r: Id): Settings {
    if r in db.restaurants then db.restaurants[r] else Settings(None, None)
  }

  predicate HasFlags(items: seq<Item>) {
    exists i :: 0 <= i < |items| && |items[i].allergyFlags| > 0
  }

  /** No flag on the order, or somebody has acknowledged the flags. */
  predicate Cleared(db: Db, v: Id) {
    v in db.acks || !HasFlags(ItemsOf(db, v))
  }

  function PutVisit(db: Db, v: Id, row: Visit): Db {
    db.(visits := db.visits[v := row])
  }

  function PutTable(db: Db, t: Id, status: TableStatus): Db
    requires t in db.tables
  {
    db.(tables := db.tables[t := db.tables[t].(status := status)])
  }
}
