/** What each connection does in a run of the whole server of network/src/TcpServer.cc: the steps that are its own
    make up a run of its own machine, so the stream properties hold of every connection of a server; and each part of
    the server changes on the thread that owns it, as the calls of `assertInLoopThread` demand. */
module ServerStream {
  import opened Common
  import P = PollerModel
  import opened ConnectionModel
  import L = Lifecycle
  import S = ServerModel

  // ---------------------------------------------------------------- a step of a connection is an event

  /** The user's calls among the functors. */
  function Calls(queue: seq<L.Job>): seq<Task> {
    if queue == [] then [] else CallOf(queue[0]) + Calls(queue[1..])
  }

  function CallOf(job: L.Job): seq<Task> { if job.Call? then [job.task] else [] }

  lemma {:induction false} CallsJoin(a: seq<L.Job>, b: seq<L.Job>)
    ensures Calls(a + b) == Calls(a) + Calls(b)
    decreases |a|
  {
    if a == [] {
      assert a + b == b;
    } else {
      assert (a + b)[1..] == a[1..] + b && (a + b)[0] == a[0];
      CallsJoin(a[1..], b);
      assert CallOf(a[0]) + (Calls(a[1..]) + Calls(b)) == (CallOf(a[0]) + Calls(a[1..])) + Calls(b);
    }
  }

  function EventOf(cb: P.Callback, r: ReadResult, w: WriteResult): seq<Event> {
    match cb
    case CloseCallback => [HangUp]
    case ReadCallback => [Readable(r)]
    case WriteCallback => [CanWrite(w)]
    case ErrorCallback => []
  }

  /** The event of the connection's machine that a step is, if it is one. Before the connection is established
      nothing is. */
  function EventsOf(x: L.Cell, step: L.Step): seq<Event>
    requires L.CanStep(x, step)
  {
    if x.conn.state == Connecting then []
    else match step
      case User(call) => [call]
      case RunCallback(r, w) => EventOf(x.callbacks[0], r, w)
      case RunJob(w) => if x.queue[0].Call? then [RunTask(w)] else []
      case _ => []
  }

  /** The connection is at state `s` of its machine; only `connectDestroyed` does more, to its channel. */
  ghost predicate At(x: L.Cell, s: System) {
    && s.queue == Calls(x.queue)
    && if x.conn.state == Connecting then s == ESTABLISHED
       else if x.gone > 0 then s.conn == x.conn.(channel := s.conn.channel)
       else s.conn == x.conn
  }

  ghost predicate Moves(s: System, es: seq<Event>, y: L.Cell) {
    if es == [] then At(y, s) else |es| == 1 && Enabled(s, es[0]) && At(y, Next(s, es[0]))
  }

  lemma {:induction false} StepMoves(x: L.Cell, s: System, step: L.Step)
    requires L.Inv(x) && L.CanStep(x, step) && At(x, s)
    ensures L.StepCell(x, step).Some? && Moves(s, EventsOf(x, step), L.StepCell(x, step).value)
  {
    match step
    case User(call) => UserMoves(x, s, call);
    case Polled(revents) => assert L.StepCell(x, step) == Some(x.(callbacks := P.Dispatch(revents)));
    case RunCallback(r, w) => CallbackMoves(x, s, r, w);
    case RunJob(w) => JobMoves(x, s, w);
    case RunRemoval => RemovalMoves(x, s);
  }

  lemma {:induction false} RemovalMoves(x: L.Cell, s: System)
    requires L.Inv(x) && x.removals > 0 && At(x, s)
    ensures L.Done(x.(removals := x.removals - 1), L.Erase(x.conn, x.held)).Some?
    ensures At(L.Done(x.(removals := x.removals - 1), L.Erase(x.conn, x.held)).value, s)
  {
    L.RemovalIsHeld(x);
    Absorbed(x.(removals := x.removals - 1), L.Effect(x.conn, true, Some(L.Destroy), false));
  }

  /** What code leaves in the queue of calls. */
  lemma {:induction false} Absorbed(x: L.Cell, e: L.Effect)
    ensures Calls(L.Absorb(x, e).queue) == Calls(x.queue) + if e.later.Some? && e.later.value.Call? then [e.later.value.task] else []
  {
    if e.later.Some? {
      CallsJoin(x.queue, [e.later.value]);
    }
  }

  /** Code that makes the connection `c`. */
  lemma {:induction false} CodeLeaves(x: L.Cell, c: Conn, y: L.Cell, s: System)
    requires L.Done(x, L.AfterCode(x.conn, c, x.onBase, x.held)) == Some(y)
    requires x.gone == 0 && c.state != Connecting && s == System(c, Calls(x.queue))
    ensures At(y, s)
  {
    Absorbed(x, L.AfterCode(x.conn, c, x.onBase, x.held).value);
  }

  lemma {:induction false} UserMoves(x: L.Cell, s: System, call: Event)
    requires L.Inv(x) && L.CanStep(x, L.User(call)) && At(x, s)
    ensures L.StepCell(x, L.User(call)).Some? && Moves(s, EventsOf(x, L.User(call)), L.StepCell(x, L.User(call)).value)
  {
    var t := Next(System(x.conn, []), call);
    var e := L.Effect(t.conn, false, if t.queue == [] then None else Some(L.Call(t.queue[0])), false);
    assert L.StepCell(x, L.User(call)) == Some(L.Absorb(x, e));
    CallSplits(x.conn, s.queue, call);
    CallMoves(x, s, call, t, e, L.Absorb(x, e));
  }

  lemma {:induction false} CallMoves(x: L.Cell, s: System, call: Event, t: System, e: L.Effect, y: L.Cell)
    requires At(x, s) && L.UserCall(call) && Enabled(System(s.conn, []), call) && y == L.Absorb(x, e)
    requires |t.queue| <= 1 && e == L.Effect(t.conn, false, if t.queue == [] then None else Some(L.Call(t.queue[0])), false)
    requires t.conn.state == Connecting <==> x.conn.state == Connecting
    requires !Live(x.conn) ==> t == System(x.conn, [])
    requires x.gone > 0 ==> x.conn.state == Disconnected
    requires x.conn.state != Connecting && x.gone == 0 ==> Enabled(s, call) && Next(s, call) == System(t.conn, s.queue + t.queue)
    ensures Moves(s, if x.conn.state == Connecting then [] else [call], y)
  {
    Absorbed(x, e);
    if x.gone > 0 {
      DownRefuses(s, call);
    }
  }

  lemma {:induction false} CallSplits(c: Conn, queue: seq<Task>, call: Event)
    requires L.UserCall(call) && Enabled(System(c, []), call)
    ensures var t := Next(System(c, []), call);
            |t.queue| <= 1 && Enabled(System(c, queue), call) && Next(System(c, queue), call) == System(t.conn, queue + t.queue)
            && (t.conn.state == Connecting <==> c.state == Connecting)
            && (!Live(c) ==> t == System(c, []))
  {
  }

  lemma {:induction false} DownRefuses(s: System, call: Event)
    requires L.UserCall(call) && Enabled(System(s.conn, []), call) && !Live(s.conn)
    ensures Enabled(s, call) && Next(s, call) == s
  {
  }

  lemma {:induction false} CallbackMoves(x: L.Cell, s: System, r: ReadResult, w: WriteResult)
    requires L.Inv(x) && L.CanStep(x, L.RunCallback(r, w)) && At(x, s)
    ensures L.StepCell(x, L.RunCallback(r, w)).Some?
    ensures Moves(s, EventsOf(x, L.RunCallback(r, w)), L.StepCell(x, L.RunCallback(r, w)).value)
  {
    L.HeadCallbackSafe(x, r, w);
    var cb := x.callbacks[0];
    CallbackCode(x, s, cb, r, w, x.(callbacks := x.callbacks[1..]), L.StepCell(x, L.RunCallback(r, w)).value);
  }

  lemma {:induction false} CallbackCode(x: L.Cell, s: System, cb: P.Callback, r: ReadResult, w: WriteResult, now: L.Cell, y: L.Cell)
    requires s == System(x.conn, Calls(x.queue)) && x.gone == 0 && x.conn.state != Connecting
    requires now.conn == x.conn && now.queue == x.queue && now.gone == 0
    requires L.Feasible(x.conn, L.ByCallback(cb, r, w))
    requires L.Done(now, L.Perform(now.conn, now.onBase, now.held, L.ByCallback(cb, r, w))) == Some(y)
    ensures Moves(s, EventOf(cb, r, w), y)
  {
    match cb
    case CloseCallback => CodeLeaves(now, HandleClose(x.conn), y, Next(s, HangUp));
    case ReadCallback => CodeLeaves(now, HandleRead(x.conn, r), y, Next(s, Readable(r)));
    case WriteCallback => WriteKeepsState(x.conn, w); CodeLeaves(now, HandleWrite(x.conn, w), y, Next(s, CanWrite(w)));
    case ErrorCallback => CodeLeaves(now, x.conn, y, s);
  }

  lemma {:induction false} WriteKeepsState(c: Conn, w: WriteResult)
    requires Possible(w, |c.output|)
    ensures HandleWrite(c, w).state == c.state
  {
  }

  lemma {:induction false} JobMoves(x: L.Cell, s: System, w: WriteResult)
    requires L.Inv(x) && L.CanStep(x, L.RunJob(w)) && At(x, s)
    ensures L.StepCell(x, L.RunJob(w)).Some? && Moves(s, EventsOf(x, L.RunJob(w)), L.StepCell(x, L.RunJob(w)).value)
  {
    L.JobSafe(x, w);
    JobCode(x, s, x.queue[0], x.queue[1..], w, L.StepCell(x, L.RunJob(w)).value);
  }

  lemma {:induction false} JobCode(x: L.Cell, s: System, job: L.Job, rest: seq<L.Job>, w: WriteResult, y: L.Cell)
    requires L.Inv(x) && At(x, s) && x.queue == [job] + rest && job != L.Remove && L.Feasible(x.conn, L.ByJob(job, w))
    requires L.Done(x.(queue := rest), L.Perform(x.conn, x.onBase, x.held, L.ByJob(job, w))) == Some(y)
    ensures job.Call? && x.conn.state != Connecting ==> Moves(s, [RunTask(w)], y)
    ensures !job.Call? || x.conn.state == Connecting ==> Moves(s, [], y)
  {
    assert Calls(x.queue) == Calls([job]) + Calls(rest) by { CallsJoin([job], rest); }
    match job
    case Establish => Establishes(x, rest, y);
    case Remove =>
    case Destroy => L.DestroyIsLast(x); Destroys(x, rest, y);
    case Call(task) =>
      assert x.conn.state != Connecting && x.gone == 0;
      TaskCode(x, s, task, rest, w, y);
  }

  lemma {:induction false} Establishes(x: L.Cell, rest: seq<L.Job>, y: L.Cell)
    requires x.conn == FRESH && rest == []
    requires L.Done(x.(queue := rest), L.Perform(x.conn, x.onBase, x.held, L.ByJob(L.Establish, Wrote(0)))) == Some(y)
    ensures At(y, ESTABLISHED)
  {
  }

  lemma {:induction false} Destroys(x: L.Cell, rest: seq<L.Job>, y: L.Cell)
    requires x.conn.state == Disconnected && rest == []
    requires L.Done(x.(queue := rest), L.Perform(x.conn, x.onBase, x.held, L.ByJob(L.Destroy, Wrote(0)))) == Some(y)
    ensures At(y, System(x.conn, []))
  {
  }

  lemma {:induction false} TaskCode(x: L.Cell, s: System, task: Task, rest: seq<L.Job>, w: WriteResult, y: L.Cell)
    requires s == System(x.conn, [task] + Calls(rest)) && x.gone == 0 && x.conn.state != Connecting
    requires L.Feasible(x.conn, L.ByJob(L.Call(task), w))
    requires L.Done(x.(queue := rest), L.Perform(x.conn, x.onBase, x.held, L.ByJob(L.Call(task), w))) == Some(y)
    ensures Moves(s, [RunTask(w)], y)
  {
    TaskSplits(x.conn, task, Calls(rest), w);
    var c := Next(System(x.conn, [task]), RunTask(w)).conn;
    CodeLeaves(x.(queue := rest), c, y, System(c, Calls(rest)));
  }

  lemma {:induction false} TaskSplits(c: Conn, task: Task, later: seq<Task>, w: WriteResult)
    requires Enabled(System(c, [task]), RunTask(w))
    ensures Enabled(System(c, [task] + later), RunTask(w))
    ensures Next(System(c, [task] + later), RunTask(w)) == System(Next(System(c, [task]), RunTask(w)).conn, later)
    ensures c.state != Connecting ==> Next(System(c, [task]), RunTask(w)).conn.state != Connecting
  {
  }

  // ---------------------------------------------------------------- runs of a connection

  ghost function EventsAlong(x: L.Cell, steps: seq<L.Step>): seq<Event>
    requires L.RunCell(x, steps).Some?
    decreases |steps|
  {
    if steps == [] then [] else EventsOf(x, steps[0]) + EventsAlong(L.StepCell(x, steps[0]).value, steps[1..])
  }

  lemma {:induction false} RunMoves(x: L.Cell, s: System, steps: seq<L.Step>)
    requires L.Inv(x) && At(x, s) && L.RunCell(x, steps).Some?
    ensures Runnable(s, EventsAlong(x, steps)) && At(L.RunCell(x, steps).value, Run(s, EventsAlong(x, steps)))
    decreases |steps|
  {
    if steps != [] {
      var y, es := L.StepCell(x, steps[0]).value, EventsOf(x, steps[0]);
      L.StepKeepsInv(x, steps[0]);
      StepMoves(x, s, steps[0]);
      RunMoves(y, if es == [] then s else Next(s, es[0]), steps[1..]);
      if es == [] {
        assert es + EventsAlong(y, steps[1..]) == EventsAlong(y, steps[1..]);
      } else {
        assert (es + EventsAlong(y, steps[1..]))[1..] == EventsAlong(y, steps[1..]);
      }
    }
  }

  // ---------------------------------------------------------------- a connection in the server

  function Among(ready: seq<(S.Id, P.Revents)>, id: S.Id): seq<L.Step> {
    if ready == [] then [] else if ready[0].0 == id then [L.Polled(ready[0].1)] else Among(ready[1..], id)
  }

  /** The step of connection `id` that an action of the server is, if it is one. */
  ghost function StepsOf(s: S.Server, a: S.Action, id: S.Id): seq<L.Step>
    requires S.Enabled(s, a)
  {
    match a
    case Accept(loop) => []
    case User(i, call) => if i == id then [L.User(call)] else []
    case Poll(loop, ready) => Among(ready, id)
    case RunCallback(k, r, w) => if s.active[k].id == id then [L.RunCallback(r, w)] else []
    case RunJob(k, w) => if s.jobs[k].id != id then [] else if s.jobs[k].job == L.Remove then [L.RunRemoval] else [L.RunJob(w)]
  }

  ghost predicate Steps(x: L.Cell, steps: seq<L.Step>, y: L.Cell) {
    if steps == [] then y == x else |steps| == 1 && L.CanStep(x, steps[0]) && L.StepCell(x, steps[0]) == Some(y)
  }

  lemma {:induction false} ActionSteps(s: S.Server, a: S.Action, id: S.Id)
    requires S.Inv(s) && S.Enabled(s, a) && id in s.conns
    ensures S.Next(s, a).Some? && S.Inv(S.Next(s, a).value) && id in S.Next(s, a).value.conns
    ensures Steps(S.Project(s, id), StepsOf(s, a, id), S.Project(S.Next(s, a).value, id))
  {
    S.StepKeepsInv(s, a);
    match a
    case Accept(loop) => S.AcceptElsewhere(s, loop, id);
    case User(i, call) => UserSteps(s, i, call, id);
    case Poll(loop, ready) => PollSteps(s, loop, ready, id);
    case RunCallback(k, r, w) => CallbackSteps(s, k, r, w, id);
    case RunJob(k, w) => JobSteps(s, k, w, id);
  }

  /** Code run for connection `i`, as connection `id` sees it. */
  lemma {:induction false} WorkSteps(s: S.Server, i: S.Id, work: L.Work, id: S.Id)
    requires S.SameKeys(s) && i in s.conns && id in s.conns && L.Feasible(s.conns[i], work) && S.Work(s, i, work).Some?
    ensures var t, x := S.Work(s, i, work).value, S.Project(s, id);
            && S.SameKeys(t) && id in t.conns
            && (i == id ==> L.Done(x, L.Perform(x.conn, x.onBase, x.held, work)) == Some(S.Project(t, id)))
            && (i != id ==> S.Project(t, id) == x)
  {
    var e := L.Perform(s.conns[i], s.home[i] == 0, S.ConnName(i) in s.connections, work).value;
    L.ErasedWasHeld(s.conns[i], s.home[i] == 0, S.ConnName(i) in s.connections, work);
    if i == id {
      S.ApplyHere(s, i, e);
    } else {
      S.ApplyElsewhere(s, i, e, id);
    }
  }

  lemma {:induction false} UserSteps(s: S.Server, i: S.Id, call: Event, id: S.Id)
    requires S.SameKeys(s) && S.Enabled(s, S.User(i, call)) && id in s.conns && S.Next(s, S.User(i, call)).Some?
    ensures var t := S.Next(s, S.User(i, call)).value;
            S.SameKeys(t) && id in t.conns && Steps(S.Project(s, id), StepsOf(s, S.User(i, call), id), S.Project(t, id))
  {
    WorkSteps(s, i, L.ByUser(call), id);
  }

  lemma {:induction false} CallbackSteps(s: S.Server, k: nat, r: ReadResult, w: WriteResult, id: S.Id)
    requires S.Inv(s) && S.Enabled(s, S.RunCallback(k, r, w)) && id in s.conns && S.Next(s, S.RunCallback(k, r, w)).Some?
    ensures var t := S.Next(s, S.RunCallback(k, r, w)).value;
            S.SameKeys(t) && id in t.conns && Steps(S.Project(s, id), StepsOf(s, S.RunCallback(k, r, w), id), S.Project(t, id))
  {
    var i := s.active[k].id;
    WorkSteps(S.Advanced(s, k), i, L.ByCallback(s.active[k].callbacks[0], r, w), id);
    if i == id {
      S.AdvancedHere(s, k);
      CallbackIsStep(S.Project(s, id), S.Project(S.Advanced(s, k), id), r, w);
    } else {
      S.AdvancedElsewhere(s, k, id);
    }
  }

  lemma {:induction false} CallbackIsStep(x: L.Cell, now: L.Cell, r: ReadResult, w: WriteResult)
    requires x.callbacks != [] && now == x.(callbacks := x.callbacks[1..]) && L.Feasible(x.conn, L.ByCallback(x.callbacks[0], r, w))
    ensures L.CanStep(x, L.RunCallback(r, w))
    ensures L.StepCell(x, L.RunCallback(r, w))
         == L.Done(now, L.Perform(now.conn, now.onBase, now.held, L.ByCallback(x.callbacks[0], r, w)))
  {
  }

  lemma {:induction false} JobSteps(s: S.Server, k: nat, w: WriteResult, id: S.Id)
    requires S.Inv(s) && S.Enabled(s, S.RunJob(k, w)) && id in s.conns && S.Next(s, S.RunJob(k, w)).Some?
    ensures var t := S.Next(s, S.RunJob(k, w)).value;
            S.SameKeys(t) && id in t.conns && Steps(S.Project(s, id), StepsOf(s, S.RunJob(k, w), id), S.Project(t, id))
  {
    WorkSteps(S.Without(s, k), s.jobs[k].id, L.ByJob(s.jobs[k].job, w), id);
    assert S.Next(s, S.RunJob(k, w)) == S.Ran(s, k, w);
    if s.jobs[k].id == id {
      OwnJob(s, k, w, id);
    } else {
      S.WithoutElsewhere(s, k, id);
    }
  }

  lemma {:induction false} OwnJob(s: S.Server, k: nat, w: WriteResult, id: S.Id)
    requires S.Placed(s) && S.Enabled(s, S.RunJob(k, w)) && id in s.conns && s.jobs[k].id == id
    ensures var step, now := if s.jobs[k].job == L.Remove then L.RunRemoval else L.RunJob(w), S.Project(S.Without(s, k), id);
            && L.CanStep(S.Project(s, id), step)
            && L.StepCell(S.Project(s, id), step) == L.Done(now, L.Perform(now.conn, now.onBase, now.held, L.ByJob(s.jobs[k].job, w)))
  {
    S.WithoutHere(s, k);
    assert S.JobPlaced(s, s.jobs[k]);
    JobIdle(s, k, id);
    JobIsStep(S.Project(s, id), s.jobs[k].job, S.Project(S.Without(s, k), id), w);
  }

  /** The loop of a functor has no event left to handle. */
  lemma {:induction false} JobIdle(s: S.Server, k: nat, id: S.Id)
    requires S.Placed(s) && k < |s.jobs| && s.jobs[k].id == id && id in s.conns && S.JobPlaced(s, s.jobs[k])
    requires forall i :: 0 <= i < |s.active| ==> s.active[i].loop != s.jobs[k].loop
    ensures s.jobs[k].job != L.Remove || s.home[id] == 0 ==> S.Project(s, id).callbacks == []
  {
    if s.jobs[k].job != L.Remove || s.home[id] == 0 {
      S.IdleLoop(s, s.jobs[k].loop, id);
    }
  }

  lemma {:induction false} JobIsStep(x: L.Cell, job: L.Job, now: L.Cell, w: WriteResult)
    requires L.Feasible(x.conn, L.ByJob(job, w))
    requires job == L.Remove ==> x.removals > 0 && now == x.(removals := x.removals - 1) && (x.onBase ==> x.callbacks == [])
    requires job != L.Remove ==> x.queue != [] && x.queue[0] == job && now == x.(queue := x.queue[1..]) && x.callbacks == []
    ensures var step := if job == L.Remove then L.RunRemoval else L.RunJob(w);
            L.CanStep(x, step) && L.StepCell(x, step) == L.Done(now, L.Perform(now.conn, now.onBase, now.held, L.ByJob(job, w)))
  {
  }

  lemma {:induction false} PollSteps(s: S.Server, loop: S.LoopId, ready: seq<(S.Id, P.Revents)>, id: S.Id)
    requires S.Placed(s) && S.Enabled(s, S.Poll(loop, ready)) && id in s.conns
    ensures var t := S.Next(s, S.Poll(loop, ready)).value;
            S.SameKeys(t) && id in t.conns && Steps(S.Project(s, id), Among(ready, id), S.Project(t, id))
  {
    var n := Place(ready, id);
    if n < |ready| {
      S.PollHere(s, loop, ready, n);
      PollIsStep(s, loop, ready[n], S.Project(s, id));
    } else {
      S.PollElsewhere(s, loop, ready, id);
    }
  }

  lemma {:induction false} PollIsStep(s: S.Server, loop: S.LoopId, e: (S.Id, P.Revents), x: L.Cell)
    requires S.SameKeys(s) && S.Pollable(s, loop, e) && x == S.Project(s, e.0) && x.callbacks == []
    ensures L.CanStep(x, L.Polled(e.1)) && L.StepCell(x, L.Polled(e.1)) == Some(x.(callbacks := P.Dispatch(e.1)))
  {
  }

  lemma {:induction false} Place(ready: seq<(S.Id, P.Revents)>, id: S.Id) returns (n: nat)
    ensures n <= |ready| && forall i :: 0 <= i < n ==> ready[i].0 != id
    ensures n < |ready| ==> ready[n].0 == id && Among(ready, id) == [L.Polled(ready[n].1)]
    ensures n == |ready| ==> Among(ready, id) == []
  {
    n := 0;
    if ready != [] && ready[0].0 != id {
      n := Place(ready[1..], id);
      n := n + 1;
    }
  }

  // ---------------------------------------------------------------- runs of the server

  /** The steps of a run that are connection `id`'s, from its acceptance on. */
  ghost function Trace(s: S.Server, acts: seq<S.Action>, id: S.Id): seq<L.Step>
    requires S.SameKeys(s) && S.Scheduled(s, acts)
    decreases |acts|
  {
    if acts == [] then []
    else
      var next := S.Next(s, acts[0]);
      (if id in s.conns then StepsOf(s, acts[0], id) else [])
      + if next.None? || !S.SameKeys(next.value) then [] else Trace(next.value, acts[1..], id)
  }

  /** Where connection `id` begins in a run that ends in `end`. */
  ghost function Begins(s: S.Server, end: S.Server, id: S.Id): L.Cell
    requires S.SameKeys(s) && S.SameKeys(end) && id in end.conns
  {
    if id in s.conns then S.Project(s, id) else L.NewCell(end.home[id] == 0)
  }

  /** It goes through exactly those steps. */
  lemma {:induction false} RunSteps(s: S.Server, acts: seq<S.Action>, id: S.Id)
    requires S.Inv(s) && S.Scheduled(s, acts) && S.Run(s, acts).Some? && id in S.Run(s, acts).value.conns
    ensures var end := S.Run(s, acts).value;
            S.SameKeys(end) && L.RunCell(Begins(s, end, id), Trace(s, acts, id)) == Some(S.Project(end, id))
    decreases |acts|
  {
    if acts != [] {
      var a := acts[0];
      S.StepKeepsInv(s, a);
      var t := S.Next(s, a).value;
      RunSteps(t, acts[1..], id);
      var later := Trace(t, acts[1..], id);
      if id in s.conns {
        ActionSteps(s, a, id);
        StepsThen(S.Project(s, id), StepsOf(s, a, id), S.Project(t, id), later);
      } else {
        assert [] + later == later;
        if id in t.conns {
          Arrives(s, a, id);
          BaseStays(S.Project(t, id), later);
        }
      }
    }
  }

  lemma {:induction false} StepsThen(x: L.Cell, now: seq<L.Step>, y: L.Cell, later: seq<L.Step>)
    requires Steps(x, now, y)
    ensures L.RunCell(x, now + later) == L.RunCell(y, later)
  {
    if now == [] {
      assert now + later == later;
    } else {
      assert (now + later)[1..] == later && (now + later)[0] == now[0];
    }
  }

  /** A connection that was not there has just been accepted. */
  lemma {:induction false} Arrives(s: S.Server, a: S.Action, id: S.Id)
    requires S.Inv(s) && S.Enabled(s, a) && id !in s.conns && S.Next(s, a).Some? && id in S.Next(s, a).value.conns
    ensures var t := S.Next(s, a).value; S.SameKeys(t) && S.Project(t, id) == L.NewCell(t.home[id] == 0)
  {
    if a.Accept? {
      S.AcceptHere(s, a.loop);
    } else {
      SameConns(s, a);
    }
  }

  lemma {:induction false} SameConns(s: S.Server, a: S.Action)
    requires S.Inv(s) && S.Enabled(s, a) && !a.Accept? && S.Next(s, a).Some?
    ensures S.Next(s, a).value.conns.Keys == s.conns.Keys
  {
    match a
    case User(i, call) => WorkConns(s, i, L.ByUser(call));
    case Poll(loop, ready) =>
    case RunCallback(k, r, w) => CallbackConns(s, k, r, w);
    case RunJob(k, w) => JobConns(s, k, w);
  }

  lemma {:induction false} WorkConns(s: S.Server, i: S.Id, work: L.Work)
    requires S.SameKeys(s) && i in s.conns && L.Feasible(s.conns[i], work) && S.Work(s, i, work).Some?
    ensures S.Work(s, i, work).value.conns.Keys == s.conns.Keys
  {
  }

  lemma {:induction false} CallbackConns(s: S.Server, k: nat, r: ReadResult, w: WriteResult)
    requires S.SameKeys(s) && S.Enabled(s, S.RunCallback(k, r, w)) && S.Next(s, S.RunCallback(k, r, w)).Some?
    ensures S.Next(s, S.RunCallback(k, r, w)).value.conns.Keys == s.conns.Keys
  {
    WorkConns(S.Advanced(s, k), s.active[k].id, L.ByCallback(s.active[k].callbacks[0], r, w));
  }

  lemma {:induction false} JobConns(s: S.Server, k: nat, w: WriteResult)
    requires S.SameKeys(s) && S.Enabled(s, S.RunJob(k, w)) && S.Next(s, S.RunJob(k, w)).Some?
    ensures S.Next(s, S.RunJob(k, w)).value.conns.Keys == s.conns.Keys
  {
    WorkConns(S.Without(s, k), s.jobs[k].id, L.ByJob(s.jobs[k].job, w));
  }

  lemma {:induction false} BaseStays(x: L.Cell, steps: seq<L.Step>)
    requires L.RunCell(x, steps).Some?
    ensures L.RunCell(x, steps).value.onBase == x.onBase
    decreases |steps|
  {
    if steps != [] {
      BaseStays(L.StepCell(x, steps[0]).value, steps[1..]);
    }
  }

  /** The events make up a run of a connection's machine that ends where the connection is. So what is on the wire
      and then what is still buffered are the messages taken, in order; the wire is what the calls of write took; and
      a SHUT_WR while the connection was up left nothing unsent. */
  ghost predicate Streamed(x: L.Cell, es: seq<Event>) {
    && Runnable(ESTABLISHED, es) && At(x, Run(ESTABLISHED, es))
    && x.conn.wire + x.conn.output == AllTaken(ESTABLISHED, es) && x.conn.wire == AllWritten(ESTABLISHED, es)
    && forall i :: 0 <= i < |x.conn.halfCloses| ==> x.conn.halfCloses[i].during == Disconnected || x.conn.halfCloses[i].unsent == []
  }

  /** So it is with every connection in every run of the server: the steps of the run that are its own take it from
      its acceptance to where it is, and their events make up its stream. */
  lemma {:induction false} EveryStream(acts: seq<S.Action>, id: S.Id)
    requires S.Scheduled(S.START, acts) && S.Run(S.START, acts).Some? && id in S.Run(S.START, acts).value.conns
    ensures var s := S.Run(S.START, acts).value;
            && S.SameKeys(s)
            && var x, steps := L.NewCell(s.home[id] == 0), Trace(S.START, acts, id);
               L.RunCell(x, steps) == Some(S.Project(s, id)) && Streamed(S.Project(s, id), EventsAlong(x, steps))
  {
    S.RunKeepsInv(S.START, acts);
    RunSteps(S.START, acts, id);
    CellStreams(S.Run(S.START, acts).value.home[id] == 0, Trace(S.START, acts, id), S.Project(S.Run(S.START, acts).value, id));
  }

  lemma {:induction false} CellStreams(onBase: bool, steps: seq<L.Step>, y: L.Cell)
    requires L.RunCell(L.NewCell(onBase), steps) == Some(y) && L.Inv(y)
    ensures Streamed(y, EventsAlong(L.NewCell(onBase), steps))
  {
    L.NewCellInv(onBase);
    NewAt(onBase);
    RunMoves(L.NewCell(onBase), ESTABLISHED, steps);
    RunStreams(y, EventsAlong(L.NewCell(onBase), steps));
  }

  lemma {:induction false} NewAt(onBase: bool)
    ensures At(L.NewCell(onBase), ESTABLISHED)
  {
  }

  lemma {:induction false} RunStreams(y: L.Cell, es: seq<Event>)
    requires L.Inv(y) && Runnable(ESTABLISHED, es) && At(y, Run(ESTABLISHED, es))
    ensures Streamed(y, es)
  {
    StreamConservation(ESTABLISHED, es);
    WireIsWritten(ESTABLISHED, es);
    StartsEmpty(AllTaken(ESTABLISHED, es));
    StartsEmpty(AllWritten(ESTABLISHED, es));
    SameStream(y, Run(ESTABLISHED, es));
  }

  lemma {:induction false} StartsEmpty(bytes: seq<Byte>)
    ensures ESTABLISHED.conn.wire + ESTABLISHED.conn.output + bytes == bytes && ESTABLISHED.conn.wire + bytes == bytes
  {
  }

  lemma {:induction false} SameStream(y: L.Cell, s: System)
    requires L.Inv(y) && At(y, s) && Inv(s.conn)
    ensures y.conn.wire == s.conn.wire && y.conn.output == s.conn.output
    ensures forall i :: 0 <= i < |y.conn.halfCloses| ==> y.conn.halfCloses[i].during == Disconnected || y.conn.halfCloses[i].unsent == []
  {
  }

  // ---------------------------------------------------------------- one thread for each part

  /** The loop on whose thread an action happens, where that is known: a user's call that says so, everything else. */
  ghost function ThreadOf(s: S.Server, a: S.Action): Option<S.LoopId>
    requires S.Enabled(s, a) && S.SameKeys(s)
  {
    match a
    case Accept(loop) => Some(0)
    case User(id, call) => if (call.Send? || call.Shutdown?) && call.inLoop then Some(s.home[id]) else None
    case Poll(loop, ready) => Some(loop)
    case RunCallback(k, r, w) => Some(s.active[k].loop)
    case RunJob(k, w) => Some(s.jobs[k].loop)
  }

  function Ups(s: S.Server, id: S.Id): nat { if id in s.conns then s.conns[id].ups else 0 }

  /** What a step that a thread takes may change. */
  ghost predicate Own(s: S.Server, t: S.Server, thread: Option<S.LoopId>, id: S.Id)
    requires S.SameKeys(s) && S.SameKeys(t)
  {
    && (t.connections != s.connections ==> thread == Some(0))
    && (id in t.conns && Ups(t, id) != Ups(s, id) ==> thread == Some(t.home[id]))
    && (id in s.conns ==>
          && id in t.conns && t.home[id] == s.home[id]
          && (t.conns[id].(state := s.conns[id].state) != s.conns[id] ==> thread == Some(s.home[id]))
          && (t.gone[id] != s.gone[id] ==> thread == Some(s.home[id])))
  }

  /** The server's map changes on the base loop's thread only. Of a connection a thread other than its own loop's
      changes at most the state: there it is established, read, written, half-closed, closed and destroyed. */
  lemma {:induction false} OwnThread(s: S.Server, a: S.Action, id: S.Id)
    requires S.Inv(s) && S.Enabled(s, a)
    ensures S.Next(s, a).Some? && S.SameKeys(S.Next(s, a).value) && Own(s, S.Next(s, a).value, ThreadOf(s, a), id)
  {
    S.StepKeepsInv(s, a);
    match a
    case Accept(loop) => OwnAccept(s, loop, id);
    case User(i, call) => OwnCall(s, i, call, id);
    case Poll(loop, ready) =>
    case RunCallback(k, r, w) => OwnCallback(s, k, r, w, id);
    case RunJob(k, w) => OwnJobThread(s, k, w, id);
  }

  lemma {:induction false} OwnCallback(s: S.Server, k: nat, r: ReadResult, w: WriteResult, id: S.Id)
    requires S.Placed(s) && S.Enabled(s, S.RunCallback(k, r, w)) && S.Next(s, S.RunCallback(k, r, w)).Some?
    ensures S.SameKeys(S.Next(s, S.RunCallback(k, r, w)).value)
    ensures Own(s, S.Next(s, S.RunCallback(k, r, w)).value, Some(s.active[k].loop), id)
  {
    assert S.ReadyPlaced(s, s.active[k]);
    OwnWork(S.Advanced(s, k), s.active[k].id, L.ByCallback(s.active[k].callbacks[0], r, w), id);
  }

  lemma {:induction false} OwnJobThread(s: S.Server, k: nat, w: WriteResult, id: S.Id)
    requires S.Placed(s) && S.Enabled(s, S.RunJob(k, w)) && S.Next(s, S.RunJob(k, w)).Some?
    ensures S.SameKeys(S.Next(s, S.RunJob(k, w)).value)
    ensures Own(s, S.Next(s, S.RunJob(k, w)).value, Some(s.jobs[k].loop), id)
  {
    assert S.JobPlaced(s, s.jobs[k]);
    OwnWork(S.Without(s, k), s.jobs[k].id, L.ByJob(s.jobs[k].job, w), id);
  }

  /** A new connection is established by the acceptance exactly when its loop is the base loop. */
  lemma {:induction false} OwnAccept(s: S.Server, loop: S.LoopId, id: S.Id)
    requires S.Placed(s)
    ensures S.Next(s, S.Accept(loop)).Some? && S.SameKeys(S.Next(s, S.Accept(loop)).value)
    ensures Own(s, S.Next(s, S.Accept(loop)).value, Some(0), id)
    ensures Ups(S.Next(s, S.Accept(loop)).value, s.nextConnId) == if loop == 0 then 1 else 0
  {
    S.AcceptHere(s, loop);
  }

  lemma {:induction false} OwnCall(s: S.Server, i: S.Id, call: Event, id: S.Id)
    requires S.SameKeys(s) && S.Enabled(s, S.User(i, call)) && S.Next(s, S.User(i, call)).Some?
    requires S.SameKeys(S.Next(s, S.User(i, call)).value)
    ensures Own(s, S.Next(s, S.User(i, call)).value, ThreadOf(s, S.User(i, call)), id)
  {
  }

  lemma {:induction false} OwnWork(s: S.Server, i: S.Id, work: L.Work, id: S.Id)
    requires S.SameKeys(s) && i in s.conns && L.Feasible(s.conns[i], work) && S.Work(s, i, work).Some? && !work.ByUser?
    ensures S.SameKeys(S.Work(s, i, work).value)
    ensures Own(s, S.Work(s, i, work).value, Some(if work.ByJob? && work.job == L.Remove then 0 else s.home[i]), id)
  {
  }
}
