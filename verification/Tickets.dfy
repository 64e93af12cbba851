/** RealtimeTicketService: single-use tickets in one in-memory map, and the history
    that map stands for. */
module Tickets {
  import opened Domain

  const TICKET_TTL_MS := 20000

  datatype Claim = Claim(staff: Id, restaurant: Id)

  datatype StoredClaim = StoredClaim(claim: Claim, expiresAt: Instant)

  type Store = map<Ticket, StoredClaim>

  // ---- What the three operations do to the map ----

  function Swept(store: Store, now: Instant): (after: Store)
    ensures after.Keys <= store.Keys
  {
    map t | t in store && !(store[t].expiresAt < now) :: store[t]
  }

  function Minted(store: Store, ticket: Ticket, claim: Claim, now: Instant): Store {
    Swept(store, now)[ticket := StoredClaim(claim, now + TICKET_TTL_MS)]
  }

  function Without(store: Store, ticket: Ticket): Store {
    map t | t in store && t != ticket :: store[t]
  }

  function Answer(store: Store, ticket: Ticket, now: Instant): Option<Claim> {
    if ticket !in store || store[ticket].expiresAt < now then None else Some(store[ticket].claim)
  }

  class RealtimeTicketService {
    var tickets: Store

    constructor ()
      ensures tickets == map[]
    {
      tickets := map[];
    }

    /** `ticket` is the random value the source draws. */
    method Mint(staff: Id, restaurant: Id, ticket: Ticket, now: Instant) returns (expiresInMs: int)
      modifies this
      ensures tickets == Minted(old(tickets), ticket, Claim(staff, restaurant), now)
      ensures expiresInMs == TICKET_TTL_MS
    {
      SweepExpired(now);
      tickets := tickets[ticket := StoredClaim(Claim(staff, restaurant), now + TICKET_TTL_MS)];
      expiresInMs := TICKET_TTL_MS;
    }

    method Consume(ticket: Ticket, now: Instant) returns (claim: Option<Claim>)
      modifies this
      ensures claim == Answer(old(tickets), ticket, now)
      ensures tickets == Without(old(tickets), ticket)
    {
      var found := if ticket in tickets then Some(tickets[ticket]) else None;
      tickets := tickets - {ticket};
      if found == None || found.value.expiresAt < now {
        claim := None;
      } else {
        claim := Some(found.value.claim);
      }
    }

    /** The loop over the map's entries, in any order. */
    method SweepExpired(now: Instant)
      modifies this
      ensures tickets == Swept(old(tickets), now)
    {
      var todo := tickets.Keys;
      while todo != {}
        invariant todo <= old(tickets).Keys
        invariant tickets == map t | t in old(tickets)
            && (t in todo || !(old(tickets)[t].expiresAt < now)) :: old(tickets)[t]
        decreases |todo|
      {
        var t :| t in todo;
        if tickets[t].expiresAt < now {
          tickets := tickets - {t};
        }
        todo := todo - {t};
      }
    }
  }

  // ---- The history the map stands for ----

  datatype Op =
    | Mint(ticket: Ticket, claim: Claim)
    | Consume(ticket: Ticket)

  datatype Timed = Timed(op: Op, now: Instant)

  /** Nothing is ever swept: all tickets ever minted, and those ever presented. */
  datatype History = History(minted: Store, presented: set<Ticket>)

  function Present(h: History, t: Ticket, now: Instant): Option<Claim> {
    if t in h.presented then None else Answer(h.minted, t, now)
  }

  function StoreStep(store: Store, x: Timed): (Store, Option<Claim>) {
    match x.op
    case Mint(t, claim) => (Minted(store, t, claim, x.now), None)
    case Consume(t) => (Without(store, t), Answer(store, t, x.now))
  }

  function HistoryStep(h: History, x: Timed): (History, Option<Claim>) {
    match x.op
    case Mint(t, claim) => (h.(minted := h.minted[t := StoredClaim(claim, x.now + TICKET_TTL_MS)]), None)
    case Consume(t) => (h.(presented := h.presented + {t}), Present(h, t, x.now))
  }

  function StoreAnswers(store: Store, ops: seq<Timed>): seq<Option<Claim>>
    decreases |ops|
  {
    if ops == [] then [] else [StoreStep(store, ops[0]).1] + StoreAnswers(StoreStep(store, ops[0]).0, ops[1..])
  }

  function HistoryAnswers(h: History, ops: seq<Timed>): seq<Option<Claim>>
    decreases |ops|
  {
    if ops == [] then [] else [HistoryStep(h, ops[0]).1] + HistoryAnswers(HistoryStep(h, ops[0]).0, ops[1..])
  }

  /** The clock does not go back, and a minted value is new: never minted or presented before. */
  predicate Plausible(h: History, ops: seq<Timed>, since: Instant)
    decreases |ops|
  {
    ops == [] ||
    (var x := ops[0];
     && since <= x.now
     && (x.op.Mint? ==> x.op.ticket !in h.minted && x.op.ticket !in h.presented)
     && Plausible(HistoryStep(h, x).0, ops[1..], x.now))
  }

  /** The map holds unpresented tickets only, and lacks only tickets that have expired. */
  predicate StandsFor(store: Store, h: History, now: Instant) {
    && (forall t :: t in store ==> t in h.minted && t !in h.presented && store[t] == h.minted[t])
    && (forall t :: t in h.minted && t !in h.presented && t !in store ==> h.minted[t].expiresAt < now)
  }

  lemma StepStandsFor(store: Store, h: History, x: Timed, since: Instant)
    requires StandsFor(store, h, since) && since <= x.now
    requires x.op.Mint? ==> x.op.ticket !in h.minted && x.op.ticket !in h.presented
    ensures StandsFor(StoreStep(store, x).0, HistoryStep(h, x).0, x.now)
    ensures StoreStep(store, x).1 == HistoryStep(h, x).1
  {
  }

  /** Main result: sweeping is invisible. Every sequence of operations gets the same
      answers from the swept map as from the history that forgets nothing. */
  lemma {:induction false} SweepingIsInvisible(store: Store, h: History, ops: seq<Timed>, since: Instant)
    requires StandsFor(store, h, since) && Plausible(h, ops, since)
    ensures StoreAnswers(store, ops) == HistoryAnswers(h, ops)
    decreases |ops|
  {
    if ops != [] {
      StepStandsFor(store, h, ops[0], since);
      SweepingIsInvisible(StoreStep(store, ops[0]).0, HistoryStep(h, ops[0]).0, ops[1..], ops[0].now);
    }
  }

  /** On a clock that may go back, one sweep is invisible to a ticket exactly when it
      left the ticket in place or the ticket is expired by the time it is presented. */
  lemma SweepInvisibleIff(store: Store, t: Ticket, sweptAt: Instant, presentedAt: Instant)
    ensures Answer(Swept(store, sweptAt), t, presentedAt) == Answer(store, t, presentedAt)
       <==> t !in store || sweptAt <= store[t].expiresAt || store[t].expiresAt < presentedAt
  {
  }

  // ---- Single use ----

  lemma {:induction false} PresentedTicketsFail(h: History, ops: seq<Timed>, since: Instant, t: Ticket, k: nat)
    requires Plausible(h, ops, since) && t in h.presented && k < |ops| && ops[k].op == Op.Consume(t)
    ensures |HistoryAnswers(h, ops)| == |ops| && HistoryAnswers(h, ops)[k] == None
    decreases |ops|
  {
    AnswersLength(h, ops);
    if k > 0 {
      PresentedTicketsFail(HistoryStep(h, ops[0]).0, ops[1..], ops[0].now, t, k - 1);
    }
  }

  lemma {:induction false} AnswersLength(h: History, ops: seq<Timed>)
    ensures |HistoryAnswers(h, ops)| == |ops|
    decreases |ops|
  {
    if ops != [] {
      AnswersLength(HistoryStep(h, ops[0]).0, ops[1..]);
    }
  }

  /** A ticket opens at most one door: of two presentations the later one gets nothing. */
  lemma {:induction false} TicketSucceedsAtMostOnce(store: Store, h: History, ops: seq<Timed>, since: Instant,
                                                    t: Ticket, j: nat, k: nat)
    requires StandsFor(store, h, since) && Plausible(h, ops, since)
    requires j < k < |ops| && ops[j].op == Op.Consume(t) && ops[k].op == Op.Consume(t)
    ensures |StoreAnswers(store, ops)| == |ops| && StoreAnswers(store, ops)[k] == None
    decreases |ops|
  {
    SweepingIsInvisible(store, h, ops, since);
    AnswersLength(h, ops);
    var h', rest := HistoryStep(h, ops[0]).0, ops[1..];
    if j == 0 {
      PresentedTicketsFail(h', rest, ops[0].now, t, k - 1);
    } else {
      StepStandsFor(store, h, ops[0], since);
      TicketSucceedsAtMostOnce(StoreStep(store, ops[0]).0, h', rest, ops[0].now, t, j - 1, k - 1);
    }
  }

  lemma {:induction false} TicketWaits(store: Store, between: seq<Timed>, t: Ticket)
    requires t in store
    requires forall i :: 0 <= i < |between| ==> between[i].now <= store[t].expiresAt && between[i].op.ticket != t
    ensures var after := StoreAfter(store, between); t in after && after[t] == store[t]
    decreases |between|
  {
    if between != [] {
      TicketWaits(StoreStep(store, between[0]).0, between[1..], t);
    }
  }

  function StoreAfter(store: Store, ops: seq<Timed>): Store
    decreases |ops|
  {
    if ops == [] then store else StoreAfter(StoreStep(store, ops[0]).0, ops[1..])
  }

  /** The first presentation succeeds up to and including the expiry instant, whatever
      other tickets are minted, swept and presented in between. */
  lemma FreshTicketIsHonoured(store: Store, t: Ticket, claim: Claim, mintedAt: Instant, between: seq<Timed>,
                              now: Instant)
    requires forall i :: 0 <= i < |between| ==> between[i].now <= now && between[i].op.ticket != t
    requires now <= mintedAt + TICKET_TTL_MS
    ensures Answer(StoreAfter(Minted(store, t, claim, mintedAt), between), t, now) == Some(claim)
  {
    TicketWaits(Minted(store, t, claim, mintedAt), between, t);
  }

  // ---- Which presentations succeed, read off the operations alone ----

  predicate PresentedBefore(ops: seq<Timed>, k: int, t: Ticket) {
    exists i :: 0 <= i < k <= |ops| && ops[i].op == Op.Consume(t)
  }

  /** Before `k` the ticket was minted for this claim, at most twenty seconds earlier. */
  predicate MintedBefore(ops: seq<Timed>, k: int, t: Ticket, claim: Claim) {
    exists j :: 0 <= j < k < |ops| && ops[j].op == Op.Mint(t, claim) && ops[k].now <= ops[j].now + 20000
  }

  lemma BeforeShifts(ops: seq<Timed>, k: int, t: Ticket, claim: Claim)
    requires 0 < k < |ops|
    ensures PresentedBefore(ops, k, t) <==> ops[0].op == Op.Consume(t) || PresentedBefore(ops[1..], k - 1, t)
    ensures MintedBefore(ops, k, t, claim) <==>
              (ops[0].op == Op.Mint(t, claim) && ops[k].now <= ops[0].now + 20000)
                  || MintedBefore(ops[1..], k - 1, t, claim)
  {
    if i :| 0 <= i < k && ops[i].op == Op.Consume(t) {
      if i > 0 { assert ops[1..][i - 1] == ops[i]; }
    }
    if i :| 0 <= i < k - 1 && ops[1..][i].op == Op.Consume(t) {
      assert ops[i + 1] == ops[1..][i];
    }
    if j :| 0 <= j < k && ops[j].op == Op.Mint(t, claim) && ops[k].now <= ops[j].now + 20000 {
      if j > 0 { assert ops[1..][j - 1] == ops[j]; }
    }
    if j :| 0 <= j < k - 1 && ops[1..][j].op == Op.Mint(t, claim) && ops[1..][k - 1].now <= ops[1..][j].now + 20000 {
      assert ops[j + 1] == ops[1..][j];
    }
  }

  lemma {:induction false} HistoryHonoursIff(h: History, ops: seq<Timed>, since: Instant, k: nat, t: Ticket,
                                             claim: Claim)
    requires Plausible(h, ops, since) && k < |ops| && ops[k].op == Op.Consume(t)
    ensures |HistoryAnswers(h, ops)| == |ops|
    ensures HistoryAnswers(h, ops)[k] == Some(claim) <==>
              && t !in h.presented && !PresentedBefore(ops, k, t)
              && ((t in h.minted && h.minted[t].claim == claim && ops[k].now <= h.minted[t].expiresAt)
                  || MintedBefore(ops, k, t, claim))
    decreases k
  {
    AnswersLength(h, ops);
    if k > 0 {
      HistoryHonoursIff(HistoryStep(h, ops[0]).0, ops[1..], ops[0].now, k - 1, t, claim);
      BeforeShifts(ops, k, t, claim);
      if t in h.minted { NeverMintedAgain(h, ops, since, k, t, claim); }
    }
  }

  /** A ticket that has been minted is not minted again. */
  lemma {:induction false} NeverMintedAgain(h: History, ops: seq<Timed>, since: Instant, k: nat, t: Ticket,
                                            claim: Claim)
    requires Plausible(h, ops, since) && k < |ops| && t in h.minted
    ensures !MintedBefore(ops, k, t, claim)
    decreases k
  {
    if k > 0 {
      NeverMintedAgain(HistoryStep(h, ops[0]).0, ops[1..], ops[0].now, k - 1, t, claim);
      BeforeShifts(ops, k, t, claim);
    }
  }

  /** Main result: of the service started empty, a presentation succeeds if and only if the
      ticket was minted for that very claim at most twenty seconds before, and nobody has
      presented it yet. */
  lemma PresentationSucceedsIff(ops: seq<Timed>, since: Instant, k: nat, t: Ticket, claim: Claim)
    requires Plausible(History(map[], {}), ops, since) && k < |ops| && ops[k].op == Op.Consume(t)
    ensures |StoreAnswers(map[], ops)| == |ops|
    ensures StoreAnswers(map[], ops)[k] == Some(claim) <==>
        MintedBefore(ops, k, t, claim) && !PresentedBefore(ops, k, t)
  {
    SweepingIsInvisible(map[], History(map[], {}), ops, since);
    HistoryHonoursIff(History(map[], {}), ops, since, k, t, claim);
  }
}
