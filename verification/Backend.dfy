/** The deployment the services write to: the committed tables, updated in place, and
    the other requests in flight. */
module Backend {
  import opened Domain
  import opened Protocol

  /** Actions of other requests: none of them starts, advances or drops `me`. */
  predicate Foreign(acts: seq<Action>, me: Id) {
    forall i :: 0 <= i < |acts| ==>
      match acts[i]
      case Arrive(id, _, _) => id != me
      case Advance(id, _) => id != me
      case Crash(id) => id != me
      case _ => true
  }

  lemma {:induction false} ForeignKeepsTask(s: System, acts: seq<Action>, me: Id)
    requires Foreign(acts, me) && me in s.tasks
    ensures me in Run(s, acts).tasks && Run(s, acts).tasks[me] == s.tasks[me]
    decreases |acts|
  {
    if acts != [] {
      assert me in Step(s, acts[0]).tasks && Step(s, acts[0]).tasks[me] == s.tasks[me];
      ForeignKeepsTask(Step(s, acts[0]), acts[1..], me);
    }
  }

  lemma RunOneMore(s: System, acts: seq<Action>, a: Action)
    ensures Run(s, acts + [a]) == Step(Run(s, acts), a)
  {
    RunConcat(s, acts, [a]);
    assert [a][1..] == [];
  }

  class Store {
    var visits: map<Id, Visit>
    var tables: map<Id, Table>
    var items: map<Id, seq<Item>>
    var menu: map<Id, MenuItem>
    var acks: map<Id, Acknowledgment>
    var events: seq<StatusEvent>
    var restaurants: map<Id, Settings>
    var tasks: map<Id, Task>

    function Rows(): Db
      reads this
    {
      Db(visits, tables, items, menu, acks, events, restaurants)
    }

    function State(): System
      reads this
    {
      System(Rows(), tasks)
    }

    constructor (s: System)
      ensures State() == s
    {
      var Db(v, t, i, m, a, e, r) := s.db;
      visits, tables, items, menu, acks, events, restaurants := v, t, i, m, a, e, r;
      tasks := s.tasks;
    }

    /** A new request is on its way; its first step is next in the run. */
    method Begin(me: Id, r: Id, request: Request, now: Instant) returns (ghost trace: seq<Action>)
      requires me !in tasks
      modifies this
      ensures Rows() == old(Rows()) && me in tasks && tasks[me] == Task(r, request, Ready)
      ensures trace == [Arrive(me, r, request), Advance(me, now)]
      ensures Run(old(State()), trace) == Step(State(), Advance(me, now))
      ensures State() == Step(old(State()), Arrive(me, r, request))
    {
      tasks := tasks[me := Task(r, request, Ready)];
      RunOneMore(old(State()), [], Arrive(me, r, request));
      RunOneMore(old(State()), [Arrive(me, r, request)], Advance(me, now));
      trace := [Arrive(me, r, request), Advance(me, now)];
    }

    /** Others run; then this request's step is next in the run. */
    method Interleave(me: Id, others: seq<Action>, now: Instant, ghost start: System, ghost trace: seq<Action>)
      returns (ghost longer: seq<Action>)
      requires me in tasks && Foreign(others, me) && State() == Run(start, trace)
      modifies this
      ensures me in tasks && tasks[me] == old(tasks)[me]
      ensures State() == Run(old(State()), others)
      ensures longer == trace + others + [Advance(me, now)]
      ensures Run(start, longer) == Step(State(), Advance(me, now))
    {
      ForeignKeepsTask(State(), others, me);
      RunConcat(start, trace, others);
      RunOthers(others);
      RunOneMore(start, trace + others, Advance(me, now));
      longer := trace + others + [Advance(me, now)];
    }

    /** What the step has learnt, or answered: with the rows as its transaction left
        them, this is the protocol's step from `before`. */
    method Settle(me: Id, phase: Phase, now: Instant, ghost before: System)
      requires me in tasks && tasks == before.tasks
      requires TaskStep(before.db, before.tasks[me], now) == (Rows(), phase)
      modifies this`tasks
      ensures State() == Step(before, Advance(me, now))
      ensures me in tasks && tasks[me] == old(tasks)[me].(phase := phase)
    {
      tasks := tasks[me := tasks[me].(phase := phase)];
    }

    /** Whatever other requests do while this one waits. */
    method RunOthers(acts: seq<Action>)
      modifies this
      ensures State() == Run(old(State()), acts)
    {
      assert acts[..0] == [];
      for k := 0 to |acts|
        invariant State() == Run(old(State()), acts[..k])
      {
        var next := Step(State(), acts[k]);
        RunOneMore(old(State()), acts[..k], acts[k]);
        assert acts[..k + 1] == acts[..k] + [acts[k]];
        var Db(v, t, i, m, a, e, r) := next.db;
        visits, tables, items, menu, acks, events, restaurants := v, t, i, m, a, e, r;
        tasks := next.tasks;
      }
      assert acts[..|acts|] == acts;
    }
  }
}
