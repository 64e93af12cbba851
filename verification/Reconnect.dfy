/** The dashboard's connection machine (use-dashboard-socket.ts): one effect whose
    callbacks share four locals. The browser's side - pending timers, the ticket
    request, sockets that have not closed yet - is part of the state, so that "one
    live continuation" is a statement and not a choice of representation. */
module Reconnect {
  import opened Domain
  import opened Ordering

  const BASE_RETRY_MS := 1000
  const MAX_RETRY_MS := 30000

  datatype SocketPhase = Opening | Open | Closing

  datatype Status = Connecting | Live | Reconnecting | Stopped

  /** What the ticket endpoint gave to one request, and the socket opened with it, if any. */
  datatype Grant = Grant(request: nat, ticket: Ticket, socket: Option<nat>)

  datatype Machine = Machine(
    disposed: bool,
    socket: Option<nat>,
    timer: Option<nat>,
    attempt: nat,
    status: Status,
    // the browser
    timers: set<nat>,
    requests: set<nat>,
    sockets: map<nat, SocketPhase>,
    lastHandle: nat,
    // what happened so far; `heard` is what reached the dashboard's message handler
    answers: seq<Grant>,
    bases: seq<int>,
    delays: seq<real>,
    heard: seq<string>,
    resyncs: nat)

  /** A callback the browser may run. `jitter` is the `Math.random()` it would draw. */
  datatype Event =
    | TimerFires(timer: nat)
    | TicketArrives(request: nat, ticket: Ticket)
    | TicketFails(request: nat, jitter: real)
    | SocketOpens(id: nat)
    | MessageArrives(id: nat, text: Option<string>)
    | SocketFails(id: nat)
    | SocketCloses(id: nat, code: int, jitter: real)
    | Unmount

  function Pow2(n: nat): (p: nat)
    ensures p >= 1
  {
    if n == 0 then 1 else 2 * Pow2(n - 1)
  }

  function Base(attempt: nat): int {
    var backoff := BASE_RETRY_MS * Pow2(attempt);
    if backoff < MAX_RETRY_MS then backoff else MAX_RETRY_MS
  }

  function Delay(attempt: nat, jitter: real): real {
    Base(attempt) as real * (0.5 + jitter * 0.5)
  }

  function ScheduleRetry(m: Machine, jitter: real): Machine {
    if m.disposed then m
    else
      var handle := m.lastHandle + 1;
      m.(attempt := m.attempt + 1, status := Reconnecting, timer := Some(handle), timers := m.timers + {handle},
         lastHandle := handle, bases := m.bases + [Base(m.attempt)], delays := m.delays + [Delay(m.attempt, jitter)])
  }

  /** `configured`: NEXT_PUBLIC_API_WS_URL is set. */
  function Connect(m: Machine, configured: bool): Machine {
    if m.disposed then m
    else if !configured then m.(status := Stopped)
    else m.(requests := m.requests + {m.lastHandle + 1}, lastHandle := m.lastHandle + 1)
  }

  function Mounted(configured: bool): Machine {
    Connect(Machine(false, None, None, 0, Connecting, {}, {}, map[], 0, [], [], [], [], 0), configured)
  }

  /** The browser may run this callback now. It hands on messages of open sockets only. */
  predicate CanRun(m: Machine, e: Event) {
    match e
    case TimerFires(t) => t in m.timers
    case TicketArrives(request, _) => request in m.requests
    case TicketFails(request, jitter) => request in m.requests && 0.0 <= jitter < 1.0
    case SocketOpens(id) => id in m.sockets && m.sockets[id] == Opening
    case MessageArrives(id, _) => id in m.sockets && m.sockets[id] == Open
    case SocketFails(id) => id in m.sockets
    case SocketCloses(id, _, jitter) => id in m.sockets && 0.0 <= jitter < 1.0
    case Unmount => !m.disposed
  }

  function Next(m: Machine, e: Event, configured: bool): Machine
    requires CanRun(m, e)
  {
    match e
    case TimerFires(t) => Connect(m.(timers := m.timers - {t}), configured)
    case TicketFails(request, jitter) => ScheduleRetry(m.(requests := m.requests - {request}), jitter)
    case TicketArrives(request, ticket) =>
      if m.disposed then m.(requests := m.requests - {request}, answers := m.answers + [Grant(request, ticket, None)])
      else
        var id := m.lastHandle + 1;
        m.(requests := m.requests - {request}, answers := m.answers + [Grant(request, ticket, Some(id))],
           sockets := m.sockets[id := Opening], socket := Some(id), lastHandle := id)
    case SocketOpens(id) =>
      var live := m.(sockets := m.sockets[id := Open]);
      if m.disposed then live else live.(attempt := 0, status := Live, bases := [], resyncs := m.resyncs + 1)
    case MessageArrives(_, text) => if text.Some? then m.(heard := m.heard + [text.value]) else m
    case SocketFails(id) => m.(sockets := m.sockets[id := Closing])
    case SocketCloses(id, code, jitter) =>
      var closed := m.(sockets := m.sockets - {id}, socket := if m.socket == Some(id) then None else m.socket);
      if m.disposed then closed
      else if code == CLOSE_ORIGIN_NOT_ALLOWED then closed.(status := Stopped)
      else ScheduleRetry(closed, jitter)
    case Unmount =>
      m.(disposed := true,
         timers := if m.timer.Some? then m.timers - {m.timer.value} else m.timers,
         sockets := if m.socket.Some? && m.socket.value in m.sockets then m.sockets[m.socket.value := Closing]
             else m.sockets,
         socket := None)
  }

  /** The effect itself: its locals, and the callbacks that share them. */
  class DashboardSocket {
    var disposed: bool
    var socket: Option<nat>
    var timer: Option<nat>
    var attempt: nat
    var status: Status
    var timers: set<nat>
    var requests: set<nat>
    var sockets: map<nat, SocketPhase>
    var lastHandle: nat
    ghost var answers: seq<Grant>
    ghost var bases: seq<int>
    var delays: seq<real>
    var heard: seq<string>
    var resyncs: nat
    const configured: bool

    constructor (configured: bool)
      ensures this.configured == configured && State() == Mounted(configured)
    {
      this.configured := configured;
      disposed, socket, timer, attempt := false, None, None, 0;
      status := if configured then Connecting else Stopped;
      timers, requests, sockets, lastHandle := {}, if configured then {1} else {}, map[], if configured then 1 else 0;
      answers, bases, delays, heard, resyncs := [], [], [], [], 0;
    }

    ghost function State(): Machine
      reads this
    {
      Machine(disposed, socket, timer, attempt, status, timers, requests, sockets, lastHandle, answers, bases, delays,
              heard, resyncs)
    }

    /** The delay of the next retry: the capped exponential base, with jitter. */
    method NoteDelay(jitter: real)
      modifies this`bases, this`delays
      ensures bases == old(bases) + [Base(attempt)]
      ensures delays == old(delays) + [Delay(attempt, jitter)]
    {
      bases, delays := bases + [Base(attempt)], delays + [Delay(attempt, jitter)];
    }

    method Retry(jitter: real)
      modifies this
      ensures State() == ScheduleRetry(old(State()), jitter)
    {
      if disposed {
        return;
      }
      NoteDelay(jitter);
      attempt, status := attempt + 1, Reconnecting;
      lastHandle := lastHandle + 1;
      timer, timers := Some(lastHandle), timers + {lastHandle};
    }

    method Attempt()
      modifies this
      ensures State() == Connect(old(State()), configured)
    {
      if disposed {
        return;
      }
      if !configured {
        status := Stopped;
        return;
      }
      lastHandle := lastHandle + 1;
      requests := requests + {lastHandle};
    }

    method OnTimer(t: nat)
      requires CanRun(State(), TimerFires(t))
      modifies this
      ensures State() == Next(old(State()), TimerFires(t), configured)
    {
      timers := timers - {t};
      Attempt();
    }

    method OnTicket(request: nat, ticket: Ticket)
      requires CanRun(State(), TicketArrives(request, ticket))
      modifies this
      ensures State() == Next(old(State()), TicketArrives(request, ticket), configured)
    {
      requests := requests - {request};
      if disposed {
        answers := answers + [Grant(request, ticket, None)];
        return;
      }
      lastHandle := lastHandle + 1;
      sockets := sockets[lastHandle := Opening];
      socket := Some(lastHandle);
      answers := answers + [Grant(request, ticket, Some(lastHandle))];
    }

    method OnTicketFailure(request: nat, jitter: real)
      requires CanRun(State(), TicketFails(request, jitter))
      modifies this
      ensures State() == Next(old(State()), TicketFails(request, jitter), configured)
    {
      requests := requests - {request};
      Retry(jitter);
    }

    method OnOpen(id: nat)
      requires CanRun(State(), SocketOpens(id))
      modifies this
      ensures State() == Next(old(State()), SocketOpens(id), configured)
    {
      sockets := sockets[id := Open];
      if disposed {
        return;
      }
      attempt, bases := 0, [];
      status := Live;
      resyncs := resyncs + 1;
    }

    /** The one callback that does not look at `disposed`. */
    method OnMessage(id: nat, text: Option<string>)
      requires CanRun(State(), MessageArrives(id, text))
      modifies this
      ensures State() == Next(old(State()), MessageArrives(id, text), configured)
    {
      if text.Some? {
        heard := heard + [text.value];
      }
    }

    method OnClose(id: nat, code: int, jitter: real)
      requires CanRun(State(), SocketCloses(id, code, jitter))
      modifies this
      ensures State() == Next(old(State()), SocketCloses(id, code, jitter), configured)
    {
      sockets := sockets - {id};
      if socket == Some(id) {
        socket := None;
      }
      if disposed {
        return;
      }
      if code == CLOSE_ORIGIN_NOT_ALLOWED {
        status := Stopped;
        return;
      }
      Retry(jitter);
    }

    method Cleanup()
      requires CanRun(State(), Unmount)
      modifies this
      ensures State() == Next(old(State()), Unmount, configured)
    {
      disposed := true;
      if timer.Some? {
        timers := timers - {timer.value};
      }
      if socket.Some? && socket.value in sockets {
        sockets := sockets[socket.value := Closing];
      }
      socket := None;
    }
  }

  // ---- The invariant ----

  /** Everything that could still run a callback leading somewhere. */
  function Continuations(m: Machine): nat {
    |m.timers| + |m.requests| + |m.sockets|
  }

  predicate OneContinuation(m: Machine) {
    && (!m.disposed ==> Continuations(m) == if m.status == Stopped then 0 else 1)
    && (m.disposed ==> m.timers == {} && forall id :: id in m.sockets ==> m.sockets[id] == Closing)
  }

  /** The locals see every handle the cleanup has to tear down. */
  predicate HandlesKnown(m: Machine) {
    && (forall t :: t in m.timers ==> m.timer == Some(t) && t <= m.lastHandle)
    && (!m.disposed ==> forall id :: id in m.sockets ==> m.socket == Some(id))
    && (forall id :: id in m.sockets ==> id <= m.lastHandle)
  }

  /** Every socket goes back to the answer of its own request: requests are answered once,
      answers open at most one socket each, and no socket comes from anywhere else. */
  ghost predicate Recorded(m: Machine) {
    && (forall q :: q in m.requests ==> q <= m.lastHandle)
    && (forall i :: 0 <= i < |m.answers| ==>
            m.answers[i].request <= m.lastHandle && m.answers[i].request !in m.requests)
    && (forall i :: 0 <= i < |m.answers| && m.answers[i].socket.Some? ==> m.answers[i].socket.value <= m.lastHandle)
    && (forall i, j :: 0 <= i < j < |m.answers| ==> m.answers[i].request != m.answers[j].request)
    && (forall i, j :: 0 <= i < j < |m.answers| && m.answers[i].socket.Some? ==>
            m.answers[i].socket != m.answers[j].socket)
    && (forall id :: id in m.sockets ==> Opened(m, id))
  }

  predicate Opened(m: Machine, id: nat) {
    exists i :: 0 <= i < |m.answers| && m.answers[i].socket == Some(id)
  }

  /** The bases since the last open are Base(0), Base(1), ...; every delay is in bounds. */
  predicate BackedOff(m: Machine) {
    && |m.bases| == m.attempt
    && (forall i :: 0 <= i < |m.bases| ==> m.bases[i] == Base(i))
    && (forall i :: 0 <= i < |m.delays| ==> 500.0 <= m.delays[i] <= 30000.0)
  }

  predicate Inv(m: Machine) {
    OneContinuation(m) && HandlesKnown(m) && BackedOff(m)
  }

  lemma BaseGrows(n: nat)
    ensures BASE_RETRY_MS <= Base(n) <= Base(n + 1) <= MAX_RETRY_MS
  {
  }

  lemma DelayInBounds(n: nat, jitter: real)
    requires 0.0 <= jitter < 1.0
    ensures 500.0 <= Delay(n, jitter) <= 30000.0
  {
    BaseGrows(n);
    var b, f := Base(n) as real, 0.5 + jitter * 0.5;
    assert 1000.0 <= b <= 30000.0 && 0.5 <= f <= 1.0;
    ProductInBounds(b, f);
  }

  lemma ProductInBounds(b: real, f: real)
    requires 1000.0 <= b <= 30000.0 && 0.5 <= f <= 1.0
    ensures 500.0 <= b * f <= 30000.0
  {
    assert b * f >= 1000.0 * f;
    assert b * f <= b * 1.0;
  }

  lemma RetryKeepsInv(m: Machine, jitter: real)
    requires HandlesKnown(m) && BackedOff(m) && 0.0 <= jitter < 1.0
    requires m.disposed ==> OneContinuation(m)
    requires !m.disposed ==> Continuations(m) == 0
    ensures Inv(ScheduleRetry(m, jitter))
  {
    DelayInBounds(m.attempt, jitter);
    if !m.disposed {
      assert m.timers == {} && m.sockets.Keys == {};
    }
  }

  lemma SocketGone(m: Machine, id: nat)
    requires id in m.sockets
    ensures |m.sockets - {id}| == |m.sockets| - 1
  {
    assert (m.sockets - {id}).Keys == m.sockets.Keys - {id};
  }

  lemma CloseKeepsInv(m: Machine, id: nat, code: int, jitter: real, configured: bool)
    requires Inv(m) && CanRun(m, SocketCloses(id, code, jitter))
    ensures Inv(Next(m, SocketCloses(id, code, jitter), configured))
  {
    SocketGone(m, id);
    var closed := m.(sockets := m.sockets - {id}, socket := if m.socket == Some(id) then None else m.socket);
    if !m.disposed {
      assert closed.sockets.Keys == {};
    }
    if code != CLOSE_ORIGIN_NOT_ALLOWED {
      RetryKeepsInv(closed, jitter);
    }
  }

  lemma NextKeepsInv(m: Machine, e: Event, configured: bool)
    requires Inv(m) && CanRun(m, e)
    ensures Inv(Next(m, e, configured))
  {
    match e
    case TimerFires(t) => TimerKeepsInv(m, t, configured);
    case TicketFails(request, jitter) => TicketFailureKeepsInv(m, request, jitter, configured);
    case TicketArrives(request, ticket) => ArrivalKeepsInv(m, request, ticket, configured);
    case SocketOpens(id) => SameSockets(m.sockets, id, Open);
    case SocketFails(id) => SameSockets(m.sockets, id, Closing);
    case SocketCloses(id, code, jitter) => CloseKeepsInv(m, id, code, jitter, configured);
    case MessageArrives(_, _) =>
    case Unmount => UnmountKeepsInv(m, configured);
  }

  lemma SameSockets(sockets: map<nat, SocketPhase>, id: nat, phase: SocketPhase)
    requires id in sockets
    ensures sockets[id := phase].Keys == sockets.Keys && |sockets[id := phase]| == |sockets|
  {
    assert sockets[id := phase].Keys == sockets.Keys;
  }

  lemma TimerKeepsInv(m: Machine, t: nat, configured: bool)
    requires Inv(m) && CanRun(m, TimerFires(t))
    ensures Inv(Next(m, TimerFires(t), configured))
  {
    assert !m.disposed;
    assert |m.timers - {t}| == |m.timers| - 1;
    assert |m.requests| == 0 && |m.sockets| == 0;
    assert m.requests == {} && m.requests + {m.lastHandle + 1} == {m.lastHandle + 1};
  }

  lemma TicketFailureKeepsInv(m: Machine, request: nat, jitter: real, configured: bool)
    requires Inv(m) && CanRun(m, TicketFails(request, jitter))
    ensures Inv(Next(m, TicketFails(request, jitter), configured))
  {
    RetryKeepsInv(m.(requests := m.requests - {request}), jitter);
  }

  lemma ArrivalKeepsInv(m: Machine, request: nat, ticket: Ticket, configured: bool)
    requires Inv(m) && CanRun(m, TicketArrives(request, ticket))
    ensures Inv(Next(m, TicketArrives(request, ticket), configured))
  {
    if !m.disposed {
      assert |m.requests - {request}| == |m.requests| - 1;
      assert m.timers == {} && m.sockets.Keys == {} && m.requests - {request} == {};
      assert m.sockets == map[];
    }
  }

  lemma UnmountKeepsInv(m: Machine, configured: bool)
    requires Inv(m) && CanRun(m, Unmount)
    ensures Inv(Next(m, Unmount, configured))
  {
    assert forall t :: t in m.timers ==> m.timer == Some(t);
  }

  /** Old answers stay, so old sockets stay opened. */
  lemma StillOpened(m: Machine, next: Machine, id: nat)
    requires Opened(m, id) && m.answers <= next.answers
    ensures Opened(next, id)
  {
    var i :| 0 <= i < |m.answers| && m.answers[i].socket == Some(id);
    assert next.answers[i].socket == Some(id);
  }

  lemma ArrivalKeepsRecorded(m: Machine, request: nat, ticket: Ticket, configured: bool)
    requires Recorded(m) && CanRun(m, TicketArrives(request, ticket))
    ensures Recorded(Next(m, TicketArrives(request, ticket), configured))
  {
    var next := Next(m, TicketArrives(request, ticket), configured);
    forall id | id in next.sockets ensures Opened(next, id) {
      if id in m.sockets {
        StillOpened(m, next, id);
      } else {
        assert next.answers[|m.answers|].socket == Some(id);
      }
    }
  }

  lemma NextKeepsRecorded(m: Machine, e: Event, configured: bool)
    requires Recorded(m) && CanRun(m, e)
    ensures Recorded(Next(m, e, configured))
  {
    if e.TicketArrives? {
      ArrivalKeepsRecorded(m, e.request, e.ticket, configured);
    } else {
      var next := Next(m, e, configured);
      assert next.answers == m.answers && next.sockets.Keys <= m.sockets.Keys;
      forall id | id in next.sockets ensures Opened(next, id) {
        StillOpened(m, next, id);
      }
    }
  }

  // ---- Runs ----

  predicate CanRunAll(m: Machine, es: seq<Event>, configured: bool)
    decreases |es|
  {
    es == [] || (CanRun(m, es[0]) && CanRunAll(Next(m, es[0], configured), es[1..], configured))
  }

  function RunAll(m: Machine, es: seq<Event>, configured: bool): Machine
    requires CanRunAll(m, es, configured)
    decreases |es|
  {
    if es == [] then m else RunAll(Next(m, es[0], configured), es[1..], configured)
  }

  lemma {:induction false} RunKeepsInv(m: Machine, es: seq<Event>, configured: bool)
    requires Inv(m) && Recorded(m) && CanRunAll(m, es, configured)
    ensures Inv(RunAll(m, es, configured)) && Recorded(RunAll(m, es, configured))
    decreases |es|
  {
    if es != [] {
      NextKeepsInv(m, es[0], configured);
      NextKeepsRecorded(m, es[0], configured);
      RunKeepsInv(Next(m, es[0], configured), es[1..], configured);
    }
  }

  /** Main result: whatever callbacks the browser runs after the mount, there is exactly
      one pending timer, ticket request or unclosed socket until the machine stops or is
      torn down, and every delay lies between half a second and thirty. */
  lemma ExactlyOneContinuation(es: seq<Event>, configured: bool)
    requires CanRunAll(Mounted(configured), es, configured)
    ensures
      var m := RunAll(Mounted(configured), es, configured);
      && Inv(m) && Recorded(m)
      && (!m.disposed && m.status != Stopped ==> |m.timers| + |m.requests| + |m.sockets| == 1)
      && (forall i :: 0 <= i < |m.delays| ==> 500.0 <= m.delays[i] <= 30000.0)
  {
    RunKeepsInv(Mounted(configured), es, configured);
  }

  // ---- Tickets ----

  /** Everything the ticket endpoint handed out, in order. */
  function Minted(es: seq<Event>): seq<Ticket> {
    if es == [] then [] else (if es[0].TicketArrives? then [es[0].ticket] else []) + Minted(es[1..])
  }

  function TicketsOf(answers: seq<Grant>): (tickets: seq<Ticket>)
    ensures |tickets| == |answers|
  {
    seq(|answers|, i requires 0 <= i < |answers| => answers[i].ticket)
  }

  lemma {:induction false} AnswersAreTheMinted(m: Machine, es: seq<Event>, configured: bool)
    requires CanRunAll(m, es, configured)
    ensures TicketsOf(RunAll(m, es, configured).answers) == TicketsOf(m.answers) + Minted(es)
    decreases |es|
  {
    if es != [] {
      var next := Next(m, es[0], configured);
      AnswersAreTheMinted(next, es[1..], configured);
      assert TicketsOf(next.answers) == TicketsOf(m.answers) + if es[0].TicketArrives? then [es[0].ticket] else [];
    }
  }

  lemma DistinctAnswers(answers: seq<Grant>, i: nat, j: nat)
    requires Distinct(TicketsOf(answers)) && i < j < |answers|
    ensures answers[i].ticket != answers[j].ticket
  {
    assert TicketsOf(answers)[i] == answers[i].ticket && TicketsOf(answers)[j] == answers[j].ticket;
  }

  /** If the endpoint never repeats itself, no two connections ever use one ticket: the
      answers are the minted tickets in order, each socket was opened by one of them, and
      different answers go to different requests, carry different tickets and open
      different sockets. */
  lemma EverySocketHasItsOwnTicket(es: seq<Event>, configured: bool, i: nat, j: nat)
    requires CanRunAll(Mounted(configured), es, configured) && Distinct(Minted(es))
    requires i < j < |RunAll(Mounted(configured), es, configured).answers|
    ensures
      var m := RunAll(Mounted(configured), es, configured);
      && TicketsOf(m.answers) == Minted(es)
      && (forall id :: id in m.sockets ==> Opened(m, id))
      && m.answers[i].request != m.answers[j].request
      && m.answers[i].ticket != m.answers[j].ticket
      && (m.answers[i].socket.Some? ==> m.answers[i].socket != m.answers[j].socket)
  {
    RunKeepsInv(Mounted(configured), es, configured);
    AnswersAreTheMinted(Mounted(configured), es, configured);
    assert TicketsOf([]) + Minted(es) == Minted(es);
    DistinctAnswers(RunAll(Mounted(configured), es, configured).answers, i, j);
  }

  /** Between two successful opens the base of the delay never goes down. */
  lemma BasesNeverDecrease(es: seq<Event>, configured: bool, i: nat, j: nat)
    requires CanRunAll(Mounted(configured), es, configured)
    requires i <= j < |RunAll(Mounted(configured), es, configured).bases|
    ensures
      var bases := RunAll(Mounted(configured), es, configured).bases;
      BASE_RETRY_MS <= bases[i] <= bases[j] <= MAX_RETRY_MS
  {
    ExactlyOneContinuation(es, configured);
    BaseMonotone(i, j);
  }

  lemma {:induction false} BaseMonotone(i: nat, j: nat)
    requires i <= j
    ensures BASE_RETRY_MS <= Base(i) <= Base(j) <= MAX_RETRY_MS
    decreases j - i
  {
    BaseGrows(i);
    if i < j {
      BaseMonotone(i + 1, j);
    }
  }

  /** Stopped is final: nothing is pending, so no callback but the unmount can run. */
  lemma StoppedIsFinal(m: Machine, e: Event)
    requires Inv(m) && !m.disposed && m.status == Stopped && CanRun(m, e)
    ensures e == Unmount
  {
    assert |m.timers| == 0 && |m.sockets| == 0;
    assert m.timers == {} && m.sockets.Keys == {};
  }

  /** Disposal is final: no later callback sets a timer, asks for a ticket, opens a socket
      or touches what is shown. The message handler does not look at `disposed`, but the
      cleanup has closed the only socket it could hear. */
  lemma {:induction false} DisposedIsFinal(m: Machine, es: seq<Event>, configured: bool)
    requires Inv(m) && m.disposed && CanRunAll(m, es, configured)
    ensures
      var end := RunAll(m, es, configured);
      && end.disposed && end.timers == {} && end.requests <= m.requests && end.sockets.Keys <= m.sockets.Keys
      && end.status == m.status && end.delays == m.delays && end.heard == m.heard && end.resyncs == m.resyncs
      && m.answers <= end.answers
      && (forall i :: |m.answers| <= i < |end.answers| ==> end.answers[i].socket == None)
    decreases |es|
  {
    if es != [] {
      NextKeepsInv(m, es[0], configured);
      DisposedIsFinal(Next(m, es[0], configured), es[1..], configured);
    }
  }

  // ---- What each callback leaves behind ----

  /** One second, doubled at each attempt, and thirty from the sixth on. */
  function WaitMs(attempt: nat): int {
    if attempt < 5 then [1000, 2000, 4000, 8000, 16000][attempt] else 30000
  }

  lemma {:induction false} Pow2AtLeast(n: nat)
    requires n >= 5
    ensures Pow2(n) >= 32
    decreases n
  {
    if n == 5 {
      assert Pow2(5) == 2 * Pow2(4) == 4 * Pow2(3) == 8 * Pow2(2);
    } else {
      Pow2AtLeast(n - 1);
    }
  }

  lemma BaseIs(n: nat)
    ensures Base(n) == WaitMs(n)
  {
    if n < 5 {
      assert Pow2(0) == 1 && Pow2(1) == 2 && Pow2(2) == 4 && Pow2(3) == 8 && Pow2(4) == 16;
    } else {
      Pow2AtLeast(n);
    }
  }

  /** At least half the base, and less than the whole. */
  lemma DelayIs(n: nat, jitter: real)
    requires 0.0 <= jitter < 1.0
    ensures WaitMs(n) as real / 2.0 <= Delay(n, jitter) < WaitMs(n) as real
  {
    BaseIs(n);
    FractionOf(WaitMs(n) as real, 0.5 + jitter * 0.5);
  }

  lemma FractionOf(b: real, f: real)
    requires b > 0.0 && 0.5 <= f < 1.0
    ensures b / 2.0 <= b * f < b
  {
    assert b * (f - 0.5) >= 0.0 && b * (1.0 - f) > 0.0;
  }

  /** A retry is set: one timer, one more attempt, and its delay. */
  predicate RetrySet(m: Machine, next: Machine) {
    && next.timer.Some? && next.timers == {next.timer.value} && next.requests == {} && next.sockets == map[]
    && next.status == Reconnecting && next.attempt == m.attempt + 1
    && |next.delays| == |m.delays| + 1 && next.delays[..|m.delays|] == m.delays
    && WaitMs(m.attempt) as real / 2.0 <= next.delays[|m.delays|] < WaitMs(m.attempt) as real
  }

  lemma RetrySets(m: Machine, jitter: real)
    requires !m.disposed && Continuations(m) == 0 && 0.0 <= jitter < 1.0
    ensures RetrySet(m, ScheduleRetry(m, jitter))
  {
    DelayIs(m.attempt, jitter);
    assert m.timers == {} && m.requests == {} && m.sockets.Keys == {};
  }

  /** While mounted: a close sets a retry, whatever its code, unless the code is 4403; that
      one stops the machine and leaves nothing pending. */
  lemma CloseLeaves(m: Machine, id: nat, code: int, jitter: real, configured: bool)
    requires Inv(m) && !m.disposed && CanRun(m, SocketCloses(id, code, jitter))
    ensures
      var next := Next(m, SocketCloses(id, code, jitter), configured);
      && (code != 4403 ==> RetrySet(m, next))
      && (code == 4403 ==> next.status == Stopped && next.timers == {} && next.requests == {} && next.sockets == map[])
  {
    SocketGone(m, id);
    var closed := m.(sockets := m.sockets - {id}, socket := if m.socket == Some(id) then None else m.socket);
    assert |m.timers| == 0 && |m.requests| == 0 && |closed.sockets| == 0;
    assert closed.sockets.Keys == {};
    if code != 4403 {
      RetrySets(closed, jitter);
    }
  }

  lemma TicketFailureLeaves(m: Machine, request: nat, jitter: real, configured: bool)
    requires Inv(m) && !m.disposed && CanRun(m, TicketFails(request, jitter))
    ensures RetrySet(m, Next(m, TicketFails(request, jitter), configured))
  {
    assert |m.requests - {request}| == |m.requests| - 1;
    RetrySets(m.(requests := m.requests - {request}), jitter);
  }

  /** A timer asks for one ticket and leaves nothing else pending. */
  lemma TimerLeaves(m: Machine, t: nat, configured: bool)
    requires Inv(m) && !m.disposed && CanRun(m, TimerFires(t))
    ensures
      var next := Next(m, TimerFires(t), configured);
      && next.timers == {} && next.sockets == map[]
      && (configured ==> |next.requests| == 1 && next.status == m.status)
      && (!configured ==> next.requests == {} && next.status == Stopped)
  {
    assert |m.timers - {t}| == |m.timers| - 1;
    assert m.requests == {} && m.sockets.Keys == {};
  }

  /** A ticket opens one socket and leaves nothing else pending. */
  lemma TicketLeaves(m: Machine, request: nat, ticket: Ticket, configured: bool)
    requires Inv(m) && !m.disposed && CanRun(m, TicketArrives(request, ticket))
    ensures
      var next := Next(m, TicketArrives(request, ticket), configured);
      && next.timers == {} && next.requests == {} && next.socket.Some?
      && next.sockets == map[next.socket.value := Opening]
      && |next.answers| == |m.answers| + 1
      && next.answers[|m.answers|].ticket == ticket && next.answers[|m.answers|].socket == next.socket
  {
    assert |m.requests - {request}| == |m.requests| - 1;
    assert m.timers == {} && m.sockets.Keys == {};
  }

  /** A socket that opens is live and has the list fetched again; one that fails is closed. */
  lemma SocketCallbacksLeave(m: Machine, id: nat, configured: bool)
    requires Inv(m) && !m.disposed
    ensures CanRun(m, SocketOpens(id)) ==>
              var next := Next(m, SocketOpens(id), configured);
              && next.sockets == map[id := Open] && next.timers == {} && next.requests == {}
              && next.status == Live && next.attempt == 0 && next.resyncs == m.resyncs + 1
    ensures CanRun(m, SocketFails(id)) ==>
              Next(m, SocketFails(id), configured) == m.(sockets := map[id := Closing])
  {
    if id in m.sockets {
      OnlySocket(m, id);
    }
  }

  /** The unmount leaves no timer, and every socket there was on its way to be closed. */
  lemma UnmountLeaves(m: Machine, configured: bool)
    requires Inv(m) && CanRun(m, Unmount)
    ensures
      var next := Next(m, Unmount, configured);
      && next.disposed && next.timers == {} && next.requests == m.requests && next.sockets.Keys == m.sockets.Keys
      && forall id :: id in next.sockets ==> next.sockets[id] == Closing
  {
    UnmountKeepsInv(m, configured);
  }

  lemma OnlySocket(m: Machine, id: nat)
    requires Inv(m) && !m.disposed && id in m.sockets
    ensures m.sockets == map[id := m.sockets[id]] && m.timers == {} && m.requests == {}
  {
    SocketGone(m, id);
    assert |m.sockets - {id}| == 0 && |m.timers| == 0 && |m.requests| == 0;
    assert (m.sockets - {id}).Keys == {};
  }

  // ---- What stops the machine ----

  /** A socket closes with 4403 before the machine is torn down. */
  predicate OriginRefused(es: seq<Event>, k: int) {
    0 <= k < |es| && es[k].SocketCloses? && es[k].code == 4403 && forall j :: 0 <= j < k ==> !es[j].Unmount?
  }

  lemma RefusedLater(es: seq<Event>)
    requires es != []
    ensures (exists k :: OriginRefused(es, k)) <==>
              OriginRefused(es, 0) || (!es[0].Unmount? && exists k :: OriginRefused(es[1..], k))
  {
    if k :| OriginRefused(es, k) {
      if k > 0 {
        assert forall j :: 0 <= j < k - 1 ==> es[1..][j] == es[j + 1];
        assert OriginRefused(es[1..], k - 1);
      }
    }
    if k :| !es[0].Unmount? && OriginRefused(es[1..], k) {
      assert forall j :: 0 < j < k + 1 ==> es[j] == es[1..][j - 1];
      assert OriginRefused(es, k + 1);
    }
  }

  lemma {:induction false} DisposedStatusStays(m: Machine, es: seq<Event>, configured: bool)
    requires m.disposed && CanRunAll(m, es, configured)
    ensures RunAll(m, es, configured).status == m.status
    decreases |es|
  {
    if es != [] {
      DisposedStatusStays(Next(m, es[0], configured), es[1..], configured);
    }
  }

  lemma {:induction false} StopsIff(m: Machine, es: seq<Event>, configured: bool)
    requires Inv(m) && !m.disposed && CanRunAll(m, es, configured) && (configured || m.status == Stopped)
    ensures RunAll(m, es, configured).status == Stopped <==> m.status == Stopped || exists k :: OriginRefused(es, k)
    decreases |es|
  {
    if es != [] {
      var e := es[0];
      var next := Next(m, e, configured);
      NextKeepsInv(m, e, configured);
      RefusedLater(es);
      if m.status == Stopped { StoppedIsFinal(m, e); }
      if next.disposed {
        DisposedStatusStays(next, es[1..], configured);
      } else {
        StopsIff(next, es[1..], configured);
      }
    }
  }

  /** Main result: the dashboard stops if and only if live updates are not configured, or
      some close while it was mounted carried 4403. Any other loss is retried. */
  lemma StoppedIff(es: seq<Event>, configured: bool)
    requires CanRunAll(Mounted(configured), es, configured)
    ensures RunAll(Mounted(configured), es, configured).status == Stopped <==>
              !configured || exists k :: OriginRefused(es, k)
  {
    StopsIff(Mounted(configured), es, configured);
  }
}
