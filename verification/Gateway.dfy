/** VisitsGateway: who is in which restaurant's room, how they got in, and who hears an
    event. The room index and its inverse are two maps updated by hand. */
module Gateway {
  import opened Domain
  import opened Tickets

  type Socket = nat

  const MAX_CONNECTIONS_PER_RESTAURANT := 50
  const CLOSE_MISSING_OR_INVALID_TICKET := 4401
  const CLOSE_TOO_MANY_CONNECTIONS := 4429

  /** `connectionsByRestaurant` and `restaurantBySocket`. */
  datatype Rooms = Rooms(sockets: map<Id, set<Socket>>, restaurantOf: map<Socket, Id>)

  function RoomOf(rooms: Rooms, r: Id): set<Socket> {
    if r in rooms.sockets then rooms.sockets[r] else {}
  }

  function Joined(rooms: Rooms, client: Socket, r: Id): Rooms {
    Rooms(rooms.sockets[r := RoomOf(rooms, r) + {client}], rooms.restaurantOf[client := r])
  }

  function Left(rooms: Rooms, client: Socket): Rooms {
    if client !in rooms.restaurantOf then rooms
    else
      var r := rooms.restaurantOf[client];
      Rooms(if r in rooms.sockets then rooms.sockets[r := rooms.sockets[r] - {client}] else rooms.sockets,
            rooms.restaurantOf - {client})
  }

  /** The close code a connection gets, if it is refused. */
  function Verdict(rooms: Rooms, store: Store, originAllowed: bool, ticket: Option<Ticket>, now: Instant): Option<int> {
    if !originAllowed then Some(CLOSE_ORIGIN_NOT_ALLOWED)
    else if ticket == None || Answer(store, ticket.value, now) == None then Some(CLOSE_MISSING_OR_INVALID_TICKET)
    else if |RoomOf(rooms, Answer(store, ticket.value, now).value.restaurant)| >= MAX_CONNECTIONS_PER_RESTAURANT
    then Some(CLOSE_TOO_MANY_CONNECTIONS)
    else None
  }

  predicate Crowded(rooms: Rooms, r: Id) {
    r in rooms.sockets && |rooms.sockets[r]| >= 50
  }

  /** The ticket is in the store, up to and including its expiry instant. */
  predicate Honoured(store: Store, ticket: Option<Ticket>, now: Instant) {
    ticket.Some? && ticket.value in store && now <= store[ticket.value].expiresAt
  }

  /** Who gets in, and who is told what: each close code has its own cause, and there is no
      other way to be refused. */
  lemma VerdictIff(rooms: Rooms, store: Store, originAllowed: bool, ticket: Option<Ticket>, now: Instant)
    ensures
      var code := Verdict(rooms, store, originAllowed, ticket, now);
      var honoured := originAllowed && Honoured(store, ticket, now);
      && (code == Some(4403) <==> !originAllowed)
      && (code == Some(4401) <==> originAllowed && !Honoured(store, ticket, now))
      && (code == Some(4429) <==> honoured && Crowded(rooms, store[ticket.value].claim.restaurant))
      && (code == None <==> honoured && !Crowded(rooms, store[ticket.value].claim.restaurant))
  {
  }

  /** Joining puts the socket in that room and changes nobody else's place. */
  lemma JoinSeats(rooms: Rooms, client: Socket, r: Id)
    ensures
      var after := Joined(rooms, client, r);
      && client in after.restaurantOf && after.restaurantOf[client] == r && client in RoomOf(after, r)
      && forall c, q :: c != client || q != r ==> (c in RoomOf(after, q) <==> c in RoomOf(rooms, q))
  {
  }

  /** Leaving empties the socket's place and no other. */
  lemma LeaveVacates(rooms: Rooms, client: Socket)
    requires Inverse(rooms)
    ensures
      var after := Left(rooms, client);
      && client !in after.restaurantOf && (forall q :: client !in RoomOf(after, q))
      && forall c, q :: c != client ==> (c in RoomOf(after, q) <==> c in RoomOf(rooms, q))
  {
  }

  class VisitsGateway {
    var connectionsByRestaurant: map<Id, set<Socket>>
    var restaurantBySocket: map<Socket, Id>
    const tickets: RealtimeTicketService

    constructor (tickets: RealtimeTicketService)
      ensures this.tickets == tickets && State() == Rooms(map[], map[])
    {
      this.tickets := tickets;
      connectionsByRestaurant, restaurantBySocket := map[], map[];
    }

    function State(): Rooms
      reads this
    {
      Rooms(connectionsByRestaurant, restaurantBySocket)
    }

    method HandleConnection(client: Socket, originAllowed: bool, ticket: Option<Ticket>, now: Instant)
        returns (close: Option<int>)
      modifies this, tickets
      ensures close == Verdict(old(State()), old(tickets.tickets), originAllowed, ticket, now)
      ensures close == None <==>
                && originAllowed && ticket.Some? && ticket.value in old(tickets.tickets)
                && now <= old(tickets.tickets)[ticket.value].expiresAt
                && (old(tickets.tickets)[ticket.value].claim.restaurant in old(connectionsByRestaurant) ==>
                      |old(connectionsByRestaurant)[old(tickets.tickets)[ticket.value].claim.restaurant]| < 50)
      ensures tickets.tickets ==
                if originAllowed && ticket.Some? then Without(old(tickets.tickets), ticket.value)
                else old(tickets.tickets)
      ensures State() == if close == None
                         then Joined(old(State()), client,
                                     Answer(old(tickets.tickets), ticket.value, now).value.restaurant)
                         else old(State())
    {
      if !originAllowed {
        return Some(CLOSE_ORIGIN_NOT_ALLOWED);
      }
      var claim := None;
      if ticket.Some? {
        claim := tickets.Consume(ticket.value, now);
      }
      if claim == None {
        return Some(CLOSE_MISSING_OR_INVALID_TICKET);
      }
      var r := claim.value.restaurant;
      var existing := if r in connectionsByRestaurant then connectionsByRestaurant[r] else {};
      if |existing| >= MAX_CONNECTIONS_PER_RESTAURANT {
        return Some(CLOSE_TOO_MANY_CONNECTIONS);
      }
      existing := existing + {client};
      connectionsByRestaurant := connectionsByRestaurant[r := existing];
      restaurantBySocket := restaurantBySocket[client := r];
      return None;
    }

    method HandleDisconnect(client: Socket)
      modifies this
      ensures State() == Left(old(State()), client)
    {
      if client !in restaurantBySocket {
        return;
      }
      var r := restaurantBySocket[client];
      restaurantBySocket := restaurantBySocket - {client};
      if r in connectionsByRestaurant {
        connectionsByRestaurant := connectionsByRestaurant[r := connectionsByRestaurant[r] - {client}];
      }
    }

    /** `open` are the sockets whose readyState is OPEN; `sent` is the order of the sends. */
    method EmitToRestaurant(r: Id, open: set<Socket>) returns (sent: seq<Socket>)
      ensures forall c :: c in sent <==> c in RoomOf(State(), r) && c in open
      ensures forall i, j :: 0 <= i < j < |sent| ==> sent[i] != sent[j]
    {
      sent := [];
      if r !in connectionsByRestaurant {
        return;
      }
      var todo := connectionsByRestaurant[r];
      while todo != {}
        invariant todo <= connectionsByRestaurant[r]
        invariant forall c :: c in sent <==> c in connectionsByRestaurant[r] && c !in todo && c in open
        invariant forall i, j :: 0 <= i < j < |sent| ==> sent[i] != sent[j]
        decreases |todo|
      {
        var c :| c in todo;
        if c in open {
          sent := sent + [c];
        }
        todo := todo - {c};
      }
    }
  }

  // ---- Whole runs of the realtime surface ----

  datatype Event =
    | Minting(ticket: Ticket, claim: Claim)
    | Connecting(client: Socket, originAllowed: bool, presented: Option<Ticket>)
    | Disconnecting(client: Socket)

  datatype Moment = Moment(event: Event, now: Instant)

  /** The service's map, the gateway's rooms, and what is remembered only to state the
      claims: the full ticket history and the ticket each socket came in with. */
  datatype Realtime = Realtime(store: Store, rooms: Rooms, history: History, admittedWith: map<Socket, Ticket>)

  const EMPTY := Realtime(map[], Rooms(map[], map[]), History(map[], {}), map[])

  function Next(s: Realtime, x: Moment): Realtime {
    match x.event
    case Minting(t, claim) =>
      s.(store := Minted(s.store, t, claim, x.now),
         history := HistoryStep(s.history, Tickets.Timed(Mint(t, claim), x.now)).0)
    case Disconnecting(client) => s.(rooms := Left(s.rooms, client))
    case Connecting(client, allowed, presented) =>
      if !allowed || presented == None then s
      else
        var t := presented.value;
        var consumed := s.(store := Without(s.store, t), history := s.history.(presented := s.history.presented + {t}));
        if Verdict(s.rooms, s.store, allowed, presented, x.now) != None then consumed
        else
          consumed.(rooms := Joined(s.rooms, client, s.store[t].claim.restaurant),
                    admittedWith := s.admittedWith[client := t])
  }

  /** The runs are runs of the service: on the store and the rooms, `Next` does what Mint,
      HandleConnection and HandleDisconnect promise. */
  lemma NextIsTheService(s: Realtime, x: Moment)
    ensures
      var after := Next(s, x);
      match x.event
      case Minting(t, claim) => after.store == Minted(s.store, t, claim, x.now) && after.rooms == s.rooms
      case Disconnecting(client) => after.store == s.store && after.rooms == Left(s.rooms, client)
      case Connecting(client, allowed, presented) =>
        && after.store == (if allowed && presented.Some? then Without(s.store, presented.value) else s.store)
        && after.rooms == (if Verdict(s.rooms, s.store, allowed, presented, x.now) == None
                           then Joined(s.rooms, client, Answer(s.store, presented.value, x.now).value.restaurant)
                           else s.rooms)
  {
  }

  /** The clock does not go back, minted values are new, a socket connects once. */
  predicate Plausible(s: Realtime, xs: seq<Moment>, since: Instant, seen: set<Socket>)
    decreases |xs|
  {
    xs == [] ||
    (var x := xs[0];
     && since <= x.now
     && (x.event.Minting? ==> x.event.ticket !in s.history.minted && x.event.ticket !in s.history.presented)
     && (x.event.Connecting? ==> x.event.client !in seen)
     && Plausible(Next(s, x), xs[1..], x.now, if x.event.Connecting? then seen + {x.event.client} else seen))
  }

  function RunAll(s: Realtime, xs: seq<Moment>): Realtime
    decreases |xs|
  {
    if xs == [] then s else RunAll(Next(s, xs[0]), xs[1..])
  }

  /** The two maps are exact inverses. */
  predicate Inverse(rooms: Rooms) {
    && (forall c :: c in rooms.restaurantOf ==> c in RoomOf(rooms, rooms.restaurantOf[c]))
    && (forall r :: r in rooms.sockets ==> forall c :: c in rooms.sockets[r] ==>
            c in rooms.restaurantOf && rooms.restaurantOf[c] == r)
  }

  predicate Capped(rooms: Rooms) {
    forall r :: r in rooms.sockets ==> |rooms.sockets[r]| <= MAX_CONNECTIONS_PER_RESTAURANT
  }

  /** Every live socket came in with a ticket of its own, minted for its restaurant. */
  predicate Ticketed(s: Realtime) {
    && (forall c :: c in s.rooms.restaurantOf ==>
          && c in s.admittedWith
          && s.admittedWith[c] in s.history.minted
          && s.admittedWith[c] in s.history.presented
          && s.history.minted[s.admittedWith[c]].claim.restaurant == s.rooms.restaurantOf[c])
    && (forall c, d :: c in s.admittedWith && d in s.admittedWith && s.admittedWith[c] == s.admittedWith[d] ==> c == d)
    && (forall c :: c in s.admittedWith ==> s.admittedWith[c] in s.history.presented)
  }

  predicate Sound(s: Realtime, since: Instant, seen: set<Socket>) {
    && Inverse(s.rooms) && Capped(s.rooms) && Ticketed(s)
    && StandsFor(s.store, s.history, since)
    && s.rooms.restaurantOf.Keys <= seen && s.admittedWith.Keys <= seen
  }

  lemma JoinKeepsRooms(rooms: Rooms, client: Socket, r: Id)
    requires Inverse(rooms) && Capped(rooms) && client !in rooms.restaurantOf
    requires |RoomOf(rooms, r)| < MAX_CONNECTIONS_PER_RESTAURANT
    ensures Inverse(Joined(rooms, client, r)) && Capped(Joined(rooms, client, r))
  {
    assert client !in RoomOf(rooms, r);
  }

  lemma LeaveKeepsRooms(rooms: Rooms, client: Socket)
    requires Inverse(rooms) && Capped(rooms)
    ensures Inverse(Left(rooms, client)) && Capped(Left(rooms, client))
  {
    if client in rooms.restaurantOf {
      var after, r := Left(rooms, client), rooms.restaurantOf[client];
      forall q | q in after.sockets ensures |after.sockets[q]| <= MAX_CONNECTIONS_PER_RESTAURANT {
        if q == r {
          assert after.sockets[q] == rooms.sockets[q] - {client};
        }
      }
    }
  }

  lemma NextKeepsSound(s: Realtime, x: Moment, since: Instant, seen: set<Socket>)
    requires Sound(s, since, seen) && Plausible(s, [x], since, seen)
    ensures Sound(Next(s, x), x.now, if x.event.Connecting? then seen + {x.event.client} else seen)
  {
    match x.event
    case Minting(t, claim) =>
      StepStandsFor(s.store, s.history, Tickets.Timed(Mint(t, claim), x.now), since);
    case Disconnecting(client) => LeaveKeepsRooms(s.rooms, client);
    case Connecting(_, _, _) => ConnectKeepsSound(s, x, since, seen);
  }

  lemma ConnectKeepsSound(s: Realtime, x: Moment, since: Instant, seen: set<Socket>)
    requires Sound(s, since, seen) && since <= x.now && x.event.Connecting? && x.event.client !in seen
    ensures Sound(Next(s, x), x.now, seen + {x.event.client})
  {
    var Connecting(client, allowed, presented) := x.event;
    if allowed && presented.Some? {
      var t := presented.value;
      StepStandsFor(s.store, s.history, Tickets.Timed(Consume(t), x.now), since);
      if Verdict(s.rooms, s.store, allowed, presented, x.now) == None {
        JoinKeepsRooms(s.rooms, client, s.store[t].claim.restaurant);
      }
    }
  }

  lemma {:induction false} RunKeepsSound(s: Realtime, xs: seq<Moment>, since: Instant,
                                         seen: set<Socket>) returns (until: Instant, met: set<Socket>)
    requires Sound(s, since, seen) && Plausible(s, xs, since, seen)
    ensures Sound(RunAll(s, xs), until, met)
    decreases |xs|
  {
    if xs == [] {
      until, met := since, seen;
    } else {
      var x := xs[0];
      assert Plausible(Next(s, x), [], x.now, if x.event.Connecting? then seen + {x.event.client} else seen);
      assert [x][1..] == [];
      NextKeepsSound(s, x, since, seen);
      until, met := RunKeepsSound(Next(s, x), xs[1..], x.now,
                                  if x.event.Connecting? then seen + {x.event.client} else seen);
    }
  }

  /** Main result: in every run the two maps are exact inverses, no room holds more than
      fifty sockets, and the live sockets map one to one to presented tickets whose mint
      named the very restaurant whose room they are in. */
  lemma RoomsAreSound(xs: seq<Moment>, since: Instant)
    requires Plausible(EMPTY, xs, since, {})
    ensures
      var s := RunAll(EMPTY, xs);
      Inverse(s.rooms) && Capped(s.rooms) && Ticketed(s)
  {
    var until, met := RunKeepsSound(EMPTY, xs, since, {});
  }

  /** An event for r is delivered to nobody who came in with another restaurant's ticket. */
  lemma EmitStaysInTheRestaurant(xs: seq<Moment>, since: Instant, r: Id, c: Socket)
    requires Plausible(EMPTY, xs, since, {})
    requires c in RoomOf(RunAll(EMPTY, xs).rooms, r)
    ensures
      var s := RunAll(EMPTY, xs);
      c in s.admittedWith && s.admittedWith[c] in s.history.minted
          && s.history.minted[s.admittedWith[c]].claim.restaurant == r
  {
    RoomsAreSound(xs, since);
  }

  // ---- Who is in, read off the events ----

  lemma {:induction false} RunAllConcat(s: Realtime, a: seq<Moment>, b: seq<Moment>)
    ensures RunAll(s, a + b) == RunAll(RunAll(s, a), b)
    decreases |a|
  {
    if a == [] {
      assert a + b == b;
    } else {
      assert (a + b)[1..] == a[1..] + b;
      RunAllConcat(Next(s, a[0]), a[1..], b);
    }
  }

  lemma RunAllBack(s: Realtime, xs: seq<Moment>)
    requires xs != []
    ensures RunAll(s, xs) == Next(RunAll(s, xs[..|xs| - 1]), xs[|xs| - 1])
  {
    var last := xs[|xs| - 1];
    assert xs == xs[..|xs| - 1] + [last] && [last][1..] == [];
    RunAllConcat(s, xs[..|xs| - 1], [last]);
  }

  /** At point `k` socket `c` presents an honoured ticket from an allowed origin, and the
      room of that ticket has a place left. */
  predicate AdmittedAt(xs: seq<Moment>, k: int, c: Socket) {
    && 0 <= k < |xs| && xs[k].event.Connecting? && xs[k].event.client == c && xs[k].event.originAllowed
    && var s := RunAll(EMPTY, xs[..k]);
       && Honoured(s.store, xs[k].event.presented, xs[k].now)
       && !Crowded(s.rooms, s.store[xs[k].event.presented.value].claim.restaurant)
  }

  predicate GoneAfter(xs: seq<Moment>, k: int, c: Socket) {
    exists m :: k < m < |xs| && 0 <= m && xs[m].event == Disconnecting(c)
  }

  predicate StillIn(xs: seq<Moment>, k: int, c: Socket) {
    AdmittedAt(xs, k, c) && !GoneAfter(xs, k, c)
  }

  /** Main result: a socket is live if and only if it was admitted at some point and has not
      disconnected since. */
  lemma {:induction false} LiveIff(xs: seq<Moment>, c: Socket)
    ensures c in RunAll(EMPTY, xs).rooms.restaurantOf <==> exists k :: StillIn(xs, k, c)
    decreases |xs|
  {
    if xs != [] {
      var n := |xs| - 1;
      RunAllBack(EMPTY, xs);
      LiveIff(xs[..n], c);
      StillInGrows(xs, c);
      var before, x := RunAll(EMPTY, xs[..n]), xs[n];
      if x.event.Connecting? {
        VerdictIff(before.rooms, before.store, x.event.originAllowed, x.event.presented, x.now);
      }
    }
  }

  lemma StillInGrows(xs: seq<Moment>, c: Socket)
    requires xs != []
    ensures
      var n := |xs| - 1;
      (exists k :: StillIn(xs, k, c)) <==>
        AdmittedAt(xs, n, c) || (xs[n].event != Disconnecting(c) && exists k :: StillIn(xs[..n], k, c))
  {
    var n := |xs| - 1;
    forall k | 0 <= k < n ensures AdmittedAt(xs, k, c) <==> AdmittedAt(xs[..n], k, c) {
      assert xs[..n][..k] == xs[..k];
    }
    if k :| StillIn(xs, k, c) {
      if k < n {
        forall m | k < m < n ensures xs[..n][m].event != Disconnecting(c) {}
        assert StillIn(xs[..n], k, c);
      }
    }
    if AdmittedAt(xs, n, c) {
      assert StillIn(xs, n, c);
    }
    if k :| xs[n].event != Disconnecting(c) && StillIn(xs[..n], k, c) {
      forall m | k < m < |xs| ensures xs[m].event != Disconnecting(c) {
        assert m < n ==> xs[..n][m] == xs[m];
      }
      assert StillIn(xs, k, c);
    }
  }

  predicate LeavesTicketAlone(x: Moment, t: Ticket) {
    match x.event
    case Minting(u, _) => u != t
    case Connecting(_, allowed, presented) => !allowed || presented != Some(t)
    case Disconnecting(_) => true
  }

  lemma {:induction false} TicketIsKept(s: Realtime, xs: seq<Moment>, t: Ticket)
    requires t in s.store
    requires forall i :: 0 <= i < |xs| ==> xs[i].now <= s.store[t].expiresAt && LeavesTicketAlone(xs[i], t)
    ensures t in RunAll(s, xs).store && RunAll(s, xs).store[t] == s.store[t]
    decreases |xs|
  {
    if xs != [] {
      TicketIsKept(Next(s, xs[0]), xs[1..], t);
    }
  }

  /** Over runs: a ticket minted at most twenty seconds ago and not presented since, for a
      room below fifty, puts its socket in that room. */
  lemma FreshTicketGetsIn(s: Realtime, t: Ticket, claim: Claim, mintedAt: Instant, between: seq<Moment>,
                          client: Socket, now: Instant)
    requires forall i :: 0 <= i < |between| ==> between[i].now <= now && LeavesTicketAlone(between[i], t)
    requires now <= mintedAt + 20000
    requires !Crowded(RunAll(Next(s, Moment(Minting(t, claim), mintedAt)), between).rooms, claim.restaurant)
    ensures
      var at := RunAll(Next(s, Moment(Minting(t, claim), mintedAt)), between);
      var after := Next(at, Moment(Connecting(client, true, Some(t)), now));
      && client in after.rooms.restaurantOf && after.rooms.restaurantOf[client] == claim.restaurant
      && client in RoomOf(after.rooms, claim.restaurant)
  {
    var minted := Next(s, Moment(Minting(t, claim), mintedAt));
    TicketIsKept(minted, between, t);
    var at := RunAll(minted, between);
    VerdictIff(at.rooms, at.store, true, Some(t), now);
    JoinSeats(at.rooms, client, claim.restaurant);
  }
}
