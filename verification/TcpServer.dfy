/** One accepted connection in the life of a multi-loop server: network/src/TcpConnection.cc with
    the parts of TcpServer.cc, Channel.cc and EventLoop.cc that concern it. */
module Lifecycle {
  import opened Common
  import opened PollerModel
  import opened ConnectionModel

  /** The functors queued for a connection. `Remove` runs on the base loop, the others on the
      connection's own loop. */
  datatype Job =
    | Establish             // TcpConnection::connectEstablished
    | Remove                // TcpServer::removeConnectionInLoop
    | Destroy               // TcpConnection::connectDestroyed
    | Call(task: Task)      // sendInLoop, shutdownInLoop, forceCloseInLoop

  /** One piece of code run for the connection. */
  datatype Work =
    | ByUser(call: Event)
    | ByCallback(cb: Callback, r: ReadResult, w: WriteResult)
    | ByJob(job: Job, w: WriteResult)

  /** What a piece of code leaves behind: the connection, whether the server dropped it from its map,
      the functor queued if any, and whether `connectDestroyed` ran. */
  datatype Effect = Effect(conn: Conn, erased: bool, later: Option<Job>, destroyed: bool)

  predicate UserCall(e: Event) {
    e.Send? || e.Shutdown? || e.ForceClose? || e.ForceCloseWithDelay?
  }

  predicate Feasible(c: Conn, work: Work) {
    match work
    case ByUser(call) => UserCall(call) && Enabled(System(c, []), call)
    case ByCallback(_, _, w) => Possible(w, |c.output|)
    case ByJob(job, w) => job.Call? ==> Enabled(System(c, [job.task]), RunTask(w))
  }

  /** `removeConnectionInLoop`: `None` when `connections_.erase` does not remove one entry. */
  function Erase(c: Conn, held: bool): Option<Effect> {
    if held then Some(Effect(c, true, Some(Destroy), false)) else None
  }

  /** The connection before and after some code, which ran `closeCallback_` or not. The callback is
      `removeConnection`: it erases at once on the base loop and queues to it from any other. */
  function AfterCode(c: Conn, c': Conn, onBase: bool, held: bool): Option<Effect> {
    if c'.closes == c.closes then Some(Effect(c', false, None, false))
    else if onBase then Erase(c', held)
    else Some(Effect(c', false, Some(Remove), false))
  }

  /** Runs the code; `None` when one of its assertions fails. */
  function Perform(c: Conn, onBase: bool, held: bool, work: Work): Option<Effect>
    requires Feasible(c, work)
  {
    match work
    case ByUser(call) =>
      var t := Next(System(c, []), call);
      Some(Effect(t.conn, false, if t.queue == [] then None else Some(Call(t.queue[0])), false))
    case ByCallback(cb, r, w) => (
      match cb
      case CloseCallback => if Live(c) then AfterCode(c, HandleClose(c), onBase, held) else None
      case ReadCallback => if Live(c) then AfterCode(c, HandleRead(c, r), onBase, held) else None
      case WriteCallback => AfterCode(c, HandleWrite(c, w), onBase, held)
      case ErrorCallback => AfterCode(c, c, onBase, held))
    case ByJob(job, w) =>
      match job
      case Establish => if c.state == Connecting then AfterCode(c, ConnectEstablished(c), onBase, held) else None
      case Remove => Erase(c, held)
      case Destroy => if Destroyable(c) then Some(Effect(ConnectDestroyed(c), false, None, true)) else None
      case Call(task) => AfterCode(c, Next(System(c, [task]), RunTask(w)).conn, onBase, held)
  }

  lemma ErasedWasHeld(c: Conn, onBase: bool, held: bool, work: Work)
    requires Feasible(c, work)
    ensures var e := Perform(c, onBase, held, work);
            e.Some? && e.value.erased ==> held
  {
  }

  // ---------------------------------------------------------------- the connection's own machine

  /** Everything about one connection: whether its loop is the base loop, whether the server's map
      holds it, its functors queued on its own loop (in order) and on the base loop, the callbacks of
      the last poll still to run, and how often `connectDestroyed` ran. */
  datatype Cell = Cell(conn: Conn, onBase: bool, held: bool, queue: seq<Job>, removals: nat, callbacks: seq<Callback>, gone: nat)

  datatype Step =
    | User(call: Event)
    | Polled(revents: Revents)
    | RunCallback(r: ReadResult, w: WriteResult)
    | RunJob(w: WriteResult)
    | RunRemoval

  predicate CanStep(x: Cell, step: Step) {
    match step
    case User(call) => Feasible(x.conn, ByUser(call))
    case Polled(revents) =>
      x.callbacks == [] && x.conn.channel.index == Added && Reportable(revents, x.conn.channel.events)
    case RunCallback(r, w) => x.callbacks != [] && Feasible(x.conn, ByCallback(x.callbacks[0], r, w))
    case RunJob(w) => x.callbacks == [] && x.queue != [] && x.queue[0] != Remove && Feasible(x.conn, ByJob(x.queue[0], w))
    case RunRemoval => x.removals > 0 && (x.onBase ==> x.callbacks == [])
  }

  function Absorb(x: Cell, e: Effect): Cell {
    x.(conn := e.conn, held := x.held && !e.erased,
       queue := if e.later.Some? && e.later.value != Remove then x.queue + [e.later.value] else x.queue,
       removals := if e.later == Some(Remove) then x.removals + 1 else x.removals,
       gone := if e.destroyed then x.gone + 1 else x.gone)
  }

  /** One step; `None` when an assertion of the code fails. */
  function StepCell(x: Cell, step: Step): Option<Cell>
    requires CanStep(x, step)
  {
    match step
    case User(call) => Done(x, Perform(x.conn, x.onBase, x.held, ByUser(call)))
    case Polled(revents) => Some(x.(callbacks := Dispatch(revents)))
    case RunCallback(r, w) =>
      Done(x.(callbacks := x.callbacks[1..]), Perform(x.conn, x.onBase, x.held, ByCallback(x.callbacks[0], r, w)))
    case RunJob(w) =>
      Done(x.(queue := x.queue[1..]), Perform(x.conn, x.onBase, x.held, ByJob(x.queue[0], w)))
    case RunRemoval =>
      Done(x.(removals := x.removals - 1), Perform(x.conn, x.onBase, x.held, ByJob(Remove, Wrote(0))))
  }

  function Done(x: Cell, e: Option<Effect>): Option<Cell> {
    if e.None? then None else Some(Absorb(x, e.value))
  }

  /** `newConnection` on the base loop: established at once when the connection stays there, else
      through its own loop's queue. */
  function NewCell(onBase: bool): Cell {
    if onBase then Cell(ConnectEstablished(FRESH), true, true, [], 0, [], 0)
    else Cell(FRESH, false, true, [Establish], 0, [], 0)
  }

  // ---------------------------------------------------------------- invariant

  datatype Stage = Accepted | Up | Down | Erased | Finished

  function StageOf(x: Cell): Stage {
    if x.conn.state == Connecting then Accepted
    else if Live(x.conn) then Up
    else if x.held then Down
    else if x.gone == 0 then Erased
    else Finished
  }

  /** What the connection must look like at a stage of its life. */
  ghost predicate Fitting(c: Conn, stage: Stage) {
    && c.ups == (if stage == Accepted then 0 else 1)
    && c.downs == c.closes == (if stage == Accepted || stage == Up then 0 else 1)
    && match stage
       case Accepted => c == FRESH
       case Up => Live(c) && c.channel.index == Added && c.channel.events.read
       case Finished => c.state == Disconnected && c.channel == Entry(NONE_EVENT, New)
       case _ => c.state == Disconnected && c.channel == Entry(NONE_EVENT, Deleted)
  }

  predicate Ending(cb: Callback) { cb == CloseCallback || cb == ReadCallback }

  ghost predicate Inv(x: Cell) {
    var stage := StageOf(x);
    && Fitting(x.conn, stage)
    && (stage == Accepted ==> x.queue == [Establish] && x.callbacks == [])
    && (stage != Accepted ==> Establish !in x.queue)
    && Remove !in x.queue
    && multiset(x.queue)[Destroy] == (if stage == Erased then 1 else 0)
    && (stage == Erased ==> x.queue != [] && x.queue[|x.queue| - 1] == Destroy)
    && (stage == Finished ==> x.queue == [] && x.callbacks == [])
    && x.removals == (if stage == Down then 1 else 0)
    && x.gone == (if stage == Finished then 1 else 0)
    && (x.held <==> stage == Accepted || stage == Up || stage == Down)
    && (x.callbacks != [] && Ending(x.callbacks[0]) ==> Live(x.conn))
    && (forall i :: 1 <= i < |x.callbacks| ==> !Ending(x.callbacks[i]))
  }

  /** What a connection's life looks like from outside, at any moment of it. */
  ghost predicate Proper(x: Cell) {
    var c := x.conn;
    && c.downs == c.closes <= c.ups <= 1
    && x.gone <= c.downs
    && (c.ups == 0 ==> c.state == Connecting)
    && (c.downs == 1 ==> c.state == Disconnected && c.channel.events == NONE_EVENT)
    && (c.ups == 1 ==> (x.gone == 1 <==> c.channel.index == New))
    && (c.downs == 0 ==> x.held)
    && (x.gone == 1 ==> !x.held)
    && (c.downs == 1 && x.gone == 0 ==> x.removals + multiset(x.queue)[Destroy] == 1)
    && (x.gone == 1 ==> x.queue == [] && x.callbacks == [])
  }

  lemma InvIsProper(x: Cell)
    requires Inv(x)
    ensures Proper(x)
  {
  }

  /** Code that neither establishes, closes nor destroys leaves the connection at its stage. */
  ghost predicate SameStanding(c: Conn, c': Conn) {
    && c'.ups == c.ups && c'.downs == c.downs && c'.closes == c.closes
    && (Live(c) ==> Live(c') && c'.channel.index == Added && c'.channel.events.read)
    && (c.state == Disconnected ==> c'.state == Disconnected && c'.channel == c.channel)
  }

  lemma CodeKeepsStanding(c: Conn, data: seq<Byte>, w: WriteResult)
    requires Live(c) ==> c.channel.index == Added && c.channel.events.read
    requires c.state == Disconnected ==> c.channel.events == NONE_EVENT
    requires c.state != Connecting
    ensures Possible(w, |data|) ==> SameStanding(c, SendInLoop(c, data, w))
    ensures Possible(w, |c.output|) ==> SameStanding(c, HandleWrite(c, w))
    ensures SameStanding(c, ShutdownInLoop(c))
    ensures Live(c) ==> SameStanding(c, BeginDisconnect(c)) && SameStanding(c, ShutdownInLoop(BeginDisconnect(c)))
  {
  }

  /** What running a piece of code from state `x` must guarantee. */
  ghost predicate Safe(x: Cell, e: Option<Effect>) {
    e.Some? && Inv(Absorb(x, e.value))
  }

  /** Absorbing the effect of such code, when it queues nothing. */
  lemma Quiet(x: Cell, c: Conn)
    requires Inv(x) && x.conn.state != Connecting && SameStanding(x.conn, c)
    ensures Safe(x, AfterCode(x.conn, c, x.onBase, x.held))
  {
  }

  /** Going down: the server still holds the connection, and exactly one of the two remaining steps of
      the teardown gets queued. */
  lemma Closing(x: Cell)
    requires Inv(x) && Live(x.conn)
    requires x.callbacks != [] ==> !Ending(x.callbacks[0])
    ensures Safe(x, AfterCode(x.conn, HandleClose(x.conn), x.onBase, x.held))
  {
  }

  /** Code that queues one more functor for a connection that is up. */
  lemma Queueing(x: Cell, c: Conn, task: Task)
    requires Inv(x) && Live(x.conn) && SameStanding(x.conn, c)
    ensures Safe(x, Some(Effect(c, false, Some(Call(task)), false)))
  {
  }

  lemma UserSafe(x: Cell, call: Event)
    requires Inv(x) && Feasible(x.conn, ByUser(call))
    ensures Safe(x, Perform(x.conn, x.onBase, x.held, ByUser(call)))
  {
    var t := Next(System(x.conn, []), call);
    if Live(x.conn) {
      CodeKeepsStanding(x.conn, if call.Send? then call.data else [], if call.Send? then call.w else Wrote(0));
      if t.queue == [] {
        Quiet(x, t.conn);
      } else {
        Queueing(x, t.conn, t.queue[0]);
      }
    }
  }

  lemma CallbackSafe(x: Cell, cb: Callback, r: ReadResult, w: WriteResult)
    requires Inv(x) && x.conn.state != Connecting && Feasible(x.conn, ByCallback(cb, r, w))
    requires Ending(cb) ==> Live(x.conn)
    requires x.callbacks != [] ==> !Ending(x.callbacks[0])
    ensures Safe(x, Perform(x.conn, x.onBase, x.held, ByCallback(cb, r, w)))
  {
    match cb
    case CloseCallback => Closing(x);
    case ReadCallback => if r == EndOfFile { Closing(x); } else { Quiet(x, x.conn); }
    case WriteCallback => CodeKeepsStanding(x.conn, [], w); Quiet(x, HandleWrite(x.conn, w));
    case ErrorCallback => Quiet(x, x.conn);
  }

  lemma {:induction false} CallSafe(x: Cell, task: Task, w: WriteResult)
    requires Inv(x) && x.conn.state != Connecting && x.callbacks == [] && Feasible(x.conn, ByJob(Call(task), w))
    ensures Safe(x, Perform(x.conn, x.onBase, x.held, ByJob(Call(task), w)))
  {
    match task
    case TaskSend(data) => CodeKeepsStanding(x.conn, data, w); QuietCall(x, task, w);
    case TaskShutdown => CodeKeepsStanding(x.conn, [], Wrote(0)); QuietCall(x, task, w);
    case TaskForceClose => if Live(x.conn) { Closing(x); } else { QuietCall(x, task, w); }
  }

  lemma {:induction false} QuietCall(x: Cell, task: Task, w: WriteResult)
    requires Inv(x) && x.conn.state != Connecting && Feasible(x.conn, ByJob(Call(task), w))
    requires SameStanding(x.conn, Next(System(x.conn, [task]), RunTask(w)).conn)
    ensures Safe(x, Perform(x.conn, x.onBase, x.held, ByJob(Call(task), w)))
  {
    Quiet(x, Next(System(x.conn, [task]), RunTask(w)).conn);
  }

  lemma HeadCallbackSafe(x: Cell, r: ReadResult, w: WriteResult)
    requires Inv(x) && CanStep(x, RunCallback(r, w))
    ensures Safe(x.(callbacks := x.callbacks[1..]), Perform(x.conn, x.onBase, x.held, ByCallback(x.callbacks[0], r, w)))
  {
    CallbackSafe(x.(callbacks := x.callbacks[1..]), x.callbacks[0], r, w);
  }

  /** No functor of the connection's is left behind `connectDestroyed`. */
  lemma DestroyIsLast(x: Cell)
    requires Inv(x) && x.queue != [] && x.queue[0] == Destroy
    ensures StageOf(x) == Erased && x.queue == [Destroy]
  {
    assert multiset(x.queue)[Destroy] > 0;
    if |x.queue| > 1 {
      BothEnds(x.queue);
    }
  }

  lemma BothEnds(queue: seq<Job>)
    requires |queue| > 1 && queue[0] == Destroy && queue[|queue| - 1] == Destroy
    ensures multiset(queue)[Destroy] >= 2
  {
    var rest := queue[1..];
    assert queue == [Destroy] + rest && rest[|rest| - 1] == Destroy;
  }

  lemma DestroySafe(x: Cell, w: WriteResult)
    requires Inv(x) && x.callbacks == [] && x.queue != [] && x.queue[0] == Destroy
    ensures Safe(x.(queue := x.queue[1..]), Perform(x.conn, x.onBase, x.held, ByJob(Destroy, w)))
  {
    DestroyIsLast(x);
  }

  lemma {:induction false} JobSafe(x: Cell, w: WriteResult)
    requires Inv(x) && CanStep(x, RunJob(w))
    ensures Safe(x.(queue := x.queue[1..]), Perform(x.conn, x.onBase, x.held, ByJob(x.queue[0], w)))
  {
    var job, rest := x.queue[0], x.queue[1..];
    assert x.queue == [job] + rest;
    match job
    case Establish => assert rest == [];
    case Destroy => DestroySafe(x, w);
    case Call(task) => CallSafe(x.(queue := rest), task, w);
  }

  /** A removal is only ever queued for a connection the server still holds. */
  lemma RemovalIsHeld(x: Cell)
    requires Inv(x) && x.removals > 0
    ensures x.held
  {
  }

  lemma RemovalSafe(x: Cell, w: WriteResult)
    requires Inv(x) && x.removals > 0
    ensures Safe(x.(removals := x.removals - 1), Perform(x.conn, x.onBase, x.held, ByJob(Remove, w)))
  {
  }

  lemma NewCellInv(onBase: bool)
    ensures Inv(NewCell(onBase))
  {
    if !onBase {
      assert multiset([Establish])[Destroy] == 0;
    }
  }

  lemma PolledKeepsInv(x: Cell, revents: Revents)
    requires Inv(x) && CanStep(x, Polled(revents))
    ensures Inv(StepCell(x, Polled(revents)).value)
  {
    CloseOrReadOnce(revents, x.conn.channel.events);
  }

  /** No assertion fails and the invariant is kept, whatever happens next. */
  lemma {:induction false} StepKeepsInv(x: Cell, step: Step)
    requires Inv(x) && CanStep(x, step)
    ensures StepCell(x, step).Some? && Inv(StepCell(x, step).value)
  {
    match step
    case User(call) => UserSafe(x, call);
    case Polled(revents) => PolledKeepsInv(x, revents);
    case RunCallback(r, w) => HeadCallbackSafe(x, r, w);
    case RunJob(w) => JobSafe(x, w);
    case RunRemoval => RemovalSafe(x, Wrote(0));
  }

  // ---------------------------------------------------------------- lifetime

  /** What keeps the object alive inside the server: its map, and the functors that hold a shared pointer. */
  predicate Owned(x: Cell) { x.held || x.removals > 0 || Establish in x.queue || Destroy in x.queue }

  /** When the last of them is gone, the destructors of the connection and of its channel find what they
      assert: disconnected, disabled, removed from the loop. */
  lemma LastOwner(x: Cell)
    requires Inv(x) && !Owned(x)
    ensures x.gone == 1 && x.conn.state == Disconnected && x.conn.channel == Entry(NONE_EVENT, New)
    ensures x.queue == [] && x.callbacks == []
  {
  }

  ghost function RunCell(x: Cell, steps: seq<Step>): Option<Cell>
    decreases |steps|
  {
    if steps == [] then Some(x)
    else if CanStep(x, steps[0]) && StepCell(x, steps[0]).Some? then RunCell(StepCell(x, steps[0]).value, steps[1..])
    else None
  }

  function JobsRun(steps: seq<Step>): nat {
    if steps == [] then 0 else (if steps[0].RunJob? then 1 else 0) + JobsRun(steps[1..])
  }

  /** `connectDestroyed` has run, or will before the functor at place `n`. */
  predicate DestroyedBefore(x: Cell, n: nat)
    requires n <= |x.queue|
  {
    x.gone > 0 || Destroy in x.queue[..n]
  }

  lemma PlaceMoves(x: Cell, step: Step, n: nat)
    requires n < |x.queue| && CanStep(x, step) && StepCell(x, step).Some? && (step.RunJob? ==> n > 0)
    ensures var y, m := StepCell(x, step).value, if step.RunJob? then n - 1 else n;
            m < |y.queue| && y.queue[m] == x.queue[n] && (DestroyedBefore(y, m) <==> DestroyedBefore(x, n))
  {
    var y, before := StepCell(x, step).value, x.queue[..n];
    if step.RunJob? {
      assert before == [x.queue[0]] + before[1..];
      assert y.queue[..n - 1] == before[1..];
    } else {
      assert y.queue[..n] == before;
    }
  }

  lemma {:induction false} PlaceReached(x: Cell, steps: seq<Step>, n: nat)
    requires n < |x.queue| && RunCell(x, steps).Some? && JobsRun(steps) == n
    ensures var y := RunCell(x, steps).value;
            y.queue != [] && y.queue[0] == x.queue[n] && (y.gone > 0 <==> DestroyedBefore(x, n))
    decreases |steps|
  {
    if steps != [] {
      PlaceMoves(x, steps[0], n);
      PlaceReached(StepCell(x, steps[0]).value, steps[1..], if steps[0].RunJob? then n - 1 else n);
    }
  }

  /** A caller on another thread reads the state before it queues its functor. If the connection moves on in
      between, the functor, which holds a bare pointer, comes to run after `connectDestroyed` exactly when the
      server no longer held the connection at the push; otherwise it runs before. */
  lemma LateCall(x: Cell, task: Task, steps: seq<Step>)
    requires Inv(x) && RunCell(x.(queue := x.queue + [Call(task)]), steps).Some? && JobsRun(steps) == |x.queue|
    ensures var y := RunCell(x.(queue := x.queue + [Call(task)]), steps).value;
            y.queue != [] && y.queue[0] == Call(task) && (y.gone > 0 <==> !x.held)
  {
    var late := x.(queue := x.queue + [Call(task)]);
    assert late.queue[..|x.queue|] == x.queue;
    PlaceReached(late, steps, |x.queue|);
    assert multiset(x.queue)[Destroy] > 0 <==> Destroy in x.queue;
  }
}

/** The whole server: any number of connections on any number of loops, with one functor queue and one
    list of polled events per loop. Loop 0 is the base loop. */
module ServerModel {
  import opened Common
  import opened Text
  import opened PollerModel
  import opened ConnectionModel
  import L = Lifecycle

  type Id = nat
  type LoopId = nat

  /** A functor in a loop's queue. */
  datatype Queued = Queued(loop: LoopId, id: Id, job: L.Job)

  /** A connection some loop's poll reported, with the callbacks still to run for it. */
  datatype Ready = Ready(loop: LoopId, id: Id, callbacks: seq<Callback>)

  datatype Server = Server(
    nextConnId: nat,
    conns: map<Id, Conn>,               // every connection ever accepted
    home: map<Id, LoopId>,              // its io loop
    gone: map<Id, nat>,                 // connectDestroyed calls made for it
    connections: map<string, Id>,       // connections_
    jobs: seq<Queued>,                  // all loops' queues in one; each loop takes its own in order
    active: seq<Ready>)                 // events polled and not handled yet, likewise

  const START := Server(1, map[], map[], map[], map[], [], [])

  /** The name `newConnection` prints (the part that varies). */
  function ConnName(id: Id): string { "#" + ToString(id) }

  lemma NamesDiffer(a: Id, b: Id)
    requires ConnName(a) == ConnName(b)
    ensures a == b
  {
    assert ConnName(a)[1..] == ToString(a) && ConnName(b)[1..] == ToString(b);
    ToStringInjective(a, b);
  }

  // ---------------------------------------------------------------- steps

  datatype Action =
    | Accept(loop: LoopId)                                  // newConnection, handed to this io loop
    | User(id: Id, call: Event)                             // send, shutdown, forceClose from any thread
    | Poll(loop: LoopId, ready: seq<(Id, Revents)>)
    | RunCallback(k: nat, r: ReadResult, w: WriteResult)    // the next callback of active[k]
    | RunJob(k: nat, w: WriteResult)                        // functor jobs[k]

  ghost predicate Enabled(s: Server, a: Action) {
    match a
    case Accept(loop) => true
    case User(id, call) => id in s.conns && L.Feasible(s.conns[id], L.ByUser(call))
    case Poll(loop, ready) =>
      && (forall i :: 0 <= i < |s.active| ==> s.active[i].loop != loop)
      && (forall i :: 0 <= i < |ready| ==> Pollable(s, loop, ready[i]))
      && (forall i, j :: 0 <= i < j < |ready| ==> ready[i].0 != ready[j].0)
    case RunCallback(k, r, w) =>
      && k < |s.active| && (forall i :: 0 <= i < k ==> s.active[i].loop != s.active[k].loop)
      && s.active[k].callbacks != [] && s.active[k].id in s.conns
      && L.Feasible(s.conns[s.active[k].id], L.ByCallback(s.active[k].callbacks[0], r, w))
    case RunJob(k, w) =>
      && k < |s.jobs| && (forall i :: 0 <= i < k ==> s.jobs[i].loop != s.jobs[k].loop)
      && (forall i :: 0 <= i < |s.active| ==> s.active[i].loop != s.jobs[k].loop)
      && s.jobs[k].id in s.conns && L.Feasible(s.conns[s.jobs[k].id], L.ByJob(s.jobs[k].job, w))
  }

  /** What the kernel may report to a loop: a descriptor in its table, and an event its mask allows. */
  ghost predicate Pollable(s: Server, loop: LoopId, e: (Id, Revents)) {
    && e.0 in s.conns && e.0 in s.home && s.home[e.0] == loop
    && s.conns[e.0].channel.index == Added
    && Reportable(e.1, s.conns[e.0].channel.events) && Dispatch(e.1) != []
  }

  function LoopOf(s: Server, id: Id, job: L.Job): LoopId
    requires id in s.home
  {
    if job == L.Remove then 0 else s.home[id]
  }

  function Apply(s: Server, id: Id, e: L.Effect): Server
    requires id in s.home && id in s.gone
  {
    s.(conns := s.conns[id := e.conn],
       connections := if e.erased then s.connections - {ConnName(id)} else s.connections,
       jobs := if e.later.Some? then s.jobs + [Queued(LoopOf(s, id, e.later.value), id, e.later.value)] else s.jobs,
       gone := s.gone[id := s.gone[id] + if e.destroyed then 1 else 0])
  }

  function Work(s: Server, id: Id, work: L.Work): Option<Server>
    requires id in s.conns && id in s.home && id in s.gone && L.Feasible(s.conns[id], work)
  {
    var e := L.Perform(s.conns[id], s.home[id] == 0, ConnName(id) in s.connections, work);
    if e.None? then None else Some(Apply(s, id, e.value))
  }

  function ReadyList(loop: LoopId, ready: seq<(Id, Revents)>): seq<Ready> {
    if ready == [] then [] else [Ready(loop, ready[0].0, Dispatch(ready[0].1))] + ReadyList(loop, ready[1..])
  }

  /** `active` when entry `k`'s first callback has been taken. */
  function Advance(active: seq<Ready>, k: nat): seq<Ready>
    requires k < |active| && active[k].callbacks != []
  {
    var e := active[k];
    active[..k] + (if |e.callbacks| == 1 then [] else [e.(callbacks := e.callbacks[1..])]) + active[k + 1..]
  }

  ghost predicate SameKeys(s: Server) {
    s.conns.Keys == s.home.Keys == s.gone.Keys
  }

  /** The functor runs in the server without it. */
  ghost function Ran(s: Server, k: nat, w: WriteResult): Option<Server>
    requires SameKeys(s) && Enabled(s, RunJob(k, w))
  {
    Work(s.(jobs := s.jobs[..k] + s.jobs[k + 1..]), s.jobs[k].id, L.ByJob(s.jobs[k].job, w))
  }

  /** One step; `None` when an assertion of the code fails. */
  ghost function Next(s: Server, a: Action): Option<Server>
    requires SameKeys(s) && Enabled(s, a)
  {
    match a
    case Accept(loop) =>
      var id := s.nextConnId;
      var x := L.NewCell(loop == 0);
      Some(s.(nextConnId := id + 1, conns := s.conns[id := x.conn], home := s.home[id := loop], gone := s.gone[id := 0],
              connections := s.connections[ConnName(id) := id],
              jobs := if loop == 0 then s.jobs else s.jobs + [Queued(loop, id, L.Establish)]))
    case User(id, call) => Work(s, id, L.ByUser(call))
    case Poll(loop, ready) => Some(s.(active := s.active + ReadyList(loop, ready)))
    case RunCallback(k, r, w) =>
      Work(s.(active := Advance(s.active, k)), s.active[k].id, L.ByCallback(s.active[k].callbacks[0], r, w))
    case RunJob(k, w) => Ran(s, k, w)
  }

  // ---------------------------------------------------------------- one connection's view

  function HomeQueue(jobs: seq<Queued>, id: Id): seq<L.Job> {
    if jobs == [] then []
    else (if jobs[0].id == id && jobs[0].job != L.Remove then [jobs[0].job] else []) + HomeQueue(jobs[1..], id)
  }

  function Removals(jobs: seq<Queued>, id: Id): nat {
    if jobs == [] then 0
    else (if jobs[0].id == id && jobs[0].job == L.Remove then 1 else 0) + Removals(jobs[1..], id)
  }

  function CallbacksOf(active: seq<Ready>, id: Id): seq<Callback> {
    if active == [] then []
    else (if active[0].id == id then active[0].callbacks else []) + CallbacksOf(active[1..], id)
  }

  /** What a connection sees of the server. */
  ghost function Project(s: Server, id: Id): L.Cell
    requires SameKeys(s) && id in s.conns
  {
    L.Cell(s.conns[id], s.home[id] == 0, ConnName(id) in s.connections, HomeQueue(s.jobs, id), Removals(s.jobs, id),
           CallbacksOf(s.active, id), s.gone[id])
  }

  lemma {:induction false} JobsSplit(a: seq<Queued>, b: seq<Queued>, id: Id)
    ensures HomeQueue(a + b, id) == HomeQueue(a, id) + HomeQueue(b, id)
    ensures Removals(a + b, id) == Removals(a, id) + Removals(b, id)
  {
    if a == [] {
      assert a + b == b;
    } else {
      assert (a + b)[1..] == a[1..] + b;
      JobsSplit(a[1..], b, id);
    }
  }

  lemma {:induction false} CallbacksSplit(a: seq<Ready>, b: seq<Ready>, id: Id)
    ensures CallbacksOf(a + b, id) == CallbacksOf(a, id) + CallbacksOf(b, id)
  {
    if a == [] {
      assert a + b == b;
    } else {
      assert (a + b)[1..] == a[1..] + b;
      CallbacksSplit(a[1..], b, id);
    }
  }

  /** Functors and events sit with the loops that must run them. */
  ghost predicate Placed(s: Server) {
    && SameKeys(s)
    && (forall id :: id in s.conns ==> id < s.nextConnId)
    && (forall i :: 0 <= i < |s.jobs| ==> JobPlaced(s, s.jobs[i]))
    && (forall i :: 0 <= i < |s.active| ==> ReadyPlaced(s, s.active[i]))
  }

  ghost predicate JobPlaced(s: Server, q: Queued) {
    q.id in s.conns && q.id in s.home && q.loop == LoopOf(s, q.id, q.job)
  }

  ghost predicate ReadyPlaced(s: Server, e: Ready) {
    e.id in s.conns && e.id in s.home && e.loop == s.home[e.id] && e.callbacks != []
  }

  lemma {:induction false} NoJobsElsewhere(s: Server, jobs: seq<Queued>, loop: LoopId, id: Id)
    requires id in s.home
    requires forall i :: 0 <= i < |jobs| ==> JobPlaced(s, jobs[i]) && jobs[i].loop != loop
    ensures s.home[id] == loop ==> HomeQueue(jobs, id) == []
  {
    if jobs != [] {
      NoJobsElsewhere(s, jobs[1..], loop, id);
    }
  }

  lemma {:induction false} NoEventsElsewhere(s: Server, active: seq<Ready>, loop: LoopId, id: Id)
    requires id in s.home && s.home[id] == loop
    requires forall i :: 0 <= i < |active| ==> ReadyPlaced(s, active[i]) && active[i].loop != loop
    ensures CallbacksOf(active, id) == []
  {
    if active != [] {
      NoEventsElsewhere(s, active[1..], loop, id);
    }
  }

  // ---------------------------------------------------------------- every step is one connection's step

  ghost predicate Inv(s: Server) {
    Placed(s) && forall id :: id in s.conns ==> L.Inv(Project(s, id))
  }

  /** Everything another connection sees is as before. */
  lemma {:induction false} ApplyElsewhere(s: Server, id: Id, e: L.Effect, o: Id)
    requires SameKeys(s) && id in s.conns && o in s.conns && o != id
    ensures SameKeys(Apply(s, id, e)) && Project(Apply(s, id, e), o) == Project(s, o)
  {
    if ConnName(o) == ConnName(id) {
      NamesDiffer(o, id);
    }
    if e.later.Some? {
      JobsSplit(s.jobs, [Queued(LoopOf(s, id, e.later.value), id, e.later.value)], o);
    }
  }

  lemma {:induction false} ApplyHere(s: Server, id: Id, e: L.Effect)
    requires SameKeys(s) && id in s.conns
    requires e.erased ==> ConnName(id) in s.connections
    ensures SameKeys(Apply(s, id, e)) && Project(Apply(s, id, e), id) == L.Absorb(Project(s, id), e)
  {
    if e.later.Some? {
      JobsSplit(s.jobs, [Queued(LoopOf(s, id, e.later.value), id, e.later.value)], id);
    }
  }

  /** All connections but one satisfy their invariant. */
  ghost predicate OthersInv(s: Server, id: Id)
    requires SameKeys(s)
  {
    forall o :: o in s.conns && o != id ==> L.Inv(Project(s, o))
  }

  lemma {:induction false} ApplyKeepsOthers(s: Server, id: Id, e: L.Effect)
    requires SameKeys(s) && id in s.conns && OthersInv(s, id)
    ensures SameKeys(Apply(s, id, e)) && OthersInv(Apply(s, id, e), id)
  {
    forall o | o in s.conns && o != id ensures Project(Apply(s, id, e), o) == Project(s, o) {
      ApplyElsewhere(s, id, e, o);
    }
  }

  /** Code run for connection `id` in a well-placed server, if it is safe for the connection. */
  lemma WorkKeepsInv(s: Server, id: Id, work: L.Work)
    requires Placed(s) && id in s.conns && L.Feasible(s.conns[id], work) && OthersInv(s, id)
    requires L.Safe(Project(s, id), L.Perform(s.conns[id], s.home[id] == 0, ConnName(id) in s.connections, work))
    ensures Work(s, id, work).Some? && Inv(Work(s, id, work).value)
  {
    var held := ConnName(id) in s.connections;
    var e := L.Perform(s.conns[id], s.home[id] == 0, held, work).value;
    L.ErasedWasHeld(s.conns[id], s.home[id] == 0, held, work);
    EffectKeepsInv(s, id, e);
  }

  lemma EffectKeepsInv(s: Server, id: Id, e: L.Effect)
    requires Placed(s) && id in s.conns && OthersInv(s, id)
    requires e.erased ==> ConnName(id) in s.connections
    requires L.Inv(L.Absorb(Project(s, id), e))
    ensures Inv(Apply(s, id, e))
  {
    ApplyHere(s, id, e);
    ApplyKeepsOthers(s, id, e);
    ApplyPlaced(s, id, e);
  }

  lemma ApplyPlaced(s: Server, id: Id, e: L.Effect)
    requires Placed(s) && id in s.conns
    ensures Placed(Apply(s, id, e))
  {
    var s' := Apply(s, id, e);
    forall i | 0 <= i < |s'.jobs| ensures JobPlaced(s', s'.jobs[i]) {
      assert i < |s.jobs| ==> JobPlaced(s, s.jobs[i]);
    }
    forall i | 0 <= i < |s'.active| ensures ReadyPlaced(s', s'.active[i]) {
      assert ReadyPlaced(s, s.active[i]);
    }
  }

  lemma UserStep(s: Server, id: Id, call: Event)
    requires Inv(s) && Enabled(s, User(id, call))
    ensures Next(s, User(id, call)).Some? && Inv(Next(s, User(id, call)).value)
  {
    assert L.Inv(Project(s, id));
    L.UserSafe(Project(s, id), call);
    WorkKeepsInv(s, id, L.ByUser(call));
  }

  // ---------------------------------------------------------------- taking a functor from a queue

  ghost function Without(s: Server, k: nat): Server
    requires k < |s.jobs|
  {
    s.(jobs := s.jobs[..k] + s.jobs[k + 1..])
  }

  lemma JobsAround(jobs: seq<Queued>, k: nat, id: Id)
    requires k < |jobs|
    ensures HomeQueue(jobs, id) == HomeQueue(jobs[..k], id) + HomeQueue([jobs[k]], id) + HomeQueue(jobs[k + 1..], id)
    ensures Removals(jobs, id) == Removals(jobs[..k], id) + Removals([jobs[k]], id) + Removals(jobs[k + 1..], id)
    ensures HomeQueue(jobs[..k] + jobs[k + 1..], id) == HomeQueue(jobs[..k], id) + HomeQueue(jobs[k + 1..], id)
    ensures Removals(jobs[..k] + jobs[k + 1..], id) == Removals(jobs[..k], id) + Removals(jobs[k + 1..], id)
  {
    assert jobs == jobs[..k] + ([jobs[k]] + jobs[k + 1..]);
    JobsSplit(jobs[..k], [jobs[k]] + jobs[k + 1..], id);
    JobsSplit([jobs[k]], jobs[k + 1..], id);
    JobsSplit(jobs[..k], jobs[k + 1..], id);
  }

  lemma WithoutElsewhere(s: Server, k: nat, o: Id)
    requires SameKeys(s) && k < |s.jobs| && o in s.conns && o != s.jobs[k].id
    ensures Project(Without(s, k), o) == Project(s, o)
  {
    JobsAround(s.jobs, k, o);
  }

  /** A loop's next functor is the next of its connection: the head of its own queue, or a removal. */
  lemma {:induction false} WithoutHere(s: Server, k: nat)
    requires Placed(s) && k < |s.jobs| && s.jobs[k].id in s.conns
    requires forall i :: 0 <= i < k ==> s.jobs[i].loop != s.jobs[k].loop
    ensures var x, job := Project(s, s.jobs[k].id), s.jobs[k].job;
            if job == L.Remove then
              x.removals > 0 && Project(Without(s, k), s.jobs[k].id) == x.(removals := x.removals - 1)
            else
              x.queue != [] && x.queue[0] == job && Project(Without(s, k), s.jobs[k].id) == x.(queue := x.queue[1..])
  {
    if s.jobs[k].job == L.Remove {
      JobsAround(s.jobs, k, s.jobs[k].id);
    } else {
      WithoutOwnJob(s, k);
    }
  }

  lemma WithoutOwnJob(s: Server, k: nat)
    requires Placed(s) && k < |s.jobs| && s.jobs[k].id in s.conns && s.jobs[k].job != L.Remove
    requires forall i :: 0 <= i < k ==> s.jobs[i].loop != s.jobs[k].loop
    ensures var x := Project(s, s.jobs[k].id);
            x.queue != [] && x.queue[0] == s.jobs[k].job && Project(Without(s, k), s.jobs[k].id) == x.(queue := x.queue[1..])
  {
    var id := s.jobs[k].id;
    JobsAround(s.jobs, k, id);
    assert JobPlaced(s, s.jobs[k]);
    NoJobsElsewhere(s, s.jobs[..k], s.jobs[k].loop, id);
    assert HomeQueue([s.jobs[k]], id) == [s.jobs[k].job];
  }

  lemma WithoutPlaced(s: Server, k: nat)
    requires Placed(s) && k < |s.jobs|
    ensures Placed(Without(s, k))
  {
    var s' := Without(s, k);
    forall i | 0 <= i < |s'.jobs| ensures JobPlaced(s', s'.jobs[i]) {
      assert s'.jobs[i] == s.jobs[if i < k then i else i + 1];
      assert JobPlaced(s, s.jobs[if i < k then i else i + 1]);
    }
    forall i | 0 <= i < |s'.active| ensures ReadyPlaced(s', s'.active[i]) {
      assert ReadyPlaced(s, s.active[i]);
    }
  }

  lemma IdleLoop(s: Server, loop: LoopId, id: Id)
    requires Placed(s) && id in s.conns && s.home[id] == loop
    requires forall i :: 0 <= i < |s.active| ==> s.active[i].loop != loop
    ensures Project(s, id).callbacks == []
  {
    NoEventsElsewhere(s, s.active, loop, id);
  }

  lemma WithoutOthers(s: Server, k: nat)
    requires SameKeys(s) && k < |s.jobs| && OthersInv(s, s.jobs[k].id)
    ensures OthersInv(Without(s, k), s.jobs[k].id)
  {
    var id := s.jobs[k].id;
    forall o | o in s.conns && o != id ensures L.Inv(Project(Without(s, k), o)) {
      WithoutElsewhere(s, k, o);
    }
  }

  /** The connection's own invariant makes its next functor safe to run. */
  lemma NextJobSafe(s: Server, k: nat, w: WriteResult)
    requires Placed(s) && Enabled(s, RunJob(k, w)) && L.Inv(Project(s, s.jobs[k].id))
    ensures var id := s.jobs[k].id;
            L.Safe(Project(Without(s, k), id),
                   L.Perform(s.conns[id], s.home[id] == 0, ConnName(id) in s.connections, L.ByJob(s.jobs[k].job, w)))
  {
    WithoutHere(s, k);
    assert JobPlaced(s, s.jobs[k]);
    var x := Project(s, s.jobs[k].id);
    if s.jobs[k].job == L.Remove {
      L.RemovalSafe(x, w);
    } else {
      IdleLoop(s, s.jobs[k].loop, s.jobs[k].id);
      L.JobSafe(x, w);
    }
  }

  lemma RanKeepsInv(s: Server, k: nat, w: WriteResult)
    requires Inv(s) && Enabled(s, RunJob(k, w))
    ensures Ran(s, k, w).Some? && Inv(Ran(s, k, w).value)
  {
    NextJobSafe(s, k, w);
    WithoutPlaced(s, k);
    WithoutOthers(s, k);
    WorkKeepsInv(Without(s, k), s.jobs[k].id, L.ByJob(s.jobs[k].job, w));
  }

  lemma JobStep(s: Server, k: nat, w: WriteResult)
    requires Inv(s) && Enabled(s, RunJob(k, w))
    ensures Next(s, RunJob(k, w)) == Ran(s, k, w) && Ran(s, k, w).Some? && Inv(Ran(s, k, w).value)
  {
    RanKeepsInv(s, k, w);
  }

  /** The server when the base loop's functor `k`, a removal, has run. */
  ghost function AfterRemoval(s: Server, k: nat): Server
    requires k < |s.jobs| && s.jobs[k].id in s.conns && s.jobs[k].id in s.home && s.jobs[k].id in s.gone
  {
    Apply(Without(s, k), s.jobs[k].id, L.Effect(s.conns[s.jobs[k].id], true, Some(L.Destroy), false))
  }

  /** The server holds a connection whose removal is about to run, and drops it. */
  lemma RemovalHolds(s: Server, k: nat)
    requires Inv(s) && Enabled(s, RunJob(k, Wrote(0))) && s.jobs[k].job == L.Remove
    ensures ConnName(s.jobs[k].id) in s.connections
    ensures Next(s, RunJob(k, Wrote(0))) == Some(AfterRemoval(s, k)) && Inv(AfterRemoval(s, k))
  {
    RemovalIs(s, k);
    RanKeepsInv(s, k, Wrote(0));
  }

  lemma RemovalIs(s: Server, k: nat)
    requires Inv(s) && Enabled(s, RunJob(k, Wrote(0))) && s.jobs[k].job == L.Remove
    ensures ConnName(s.jobs[k].id) in s.connections && Ran(s, k, Wrote(0)) == Some(AfterRemoval(s, k))
  {
    WithoutHere(s, k);
    L.RemovalIsHeld(Project(s, s.jobs[k].id));
    HeldIsErased(s, k);
  }

  lemma HeldIsErased(s: Server, k: nat)
    requires SameKeys(s) && Enabled(s, RunJob(k, Wrote(0))) && s.jobs[k].job == L.Remove
    requires ConnName(s.jobs[k].id) in s.connections
    ensures Ran(s, k, Wrote(0)) == Some(AfterRemoval(s, k))
  {
  }

  // ---------------------------------------------------------------- taking a callback

  ghost function Advanced(s: Server, k: nat): Server
    requires k < |s.active| && s.active[k].callbacks != []
  {
    s.(active := Advance(s.active, k))
  }

  lemma EventsAround(active: seq<Ready>, k: nat, id: Id)
    requires k < |active| && active[k].callbacks != []
    ensures CallbacksOf(active, id)
         == CallbacksOf(active[..k], id) + (if active[k].id == id then active[k].callbacks else []) + CallbacksOf(active[k + 1..], id)
    ensures CallbacksOf(Advance(active, k), id)
         == CallbacksOf(active[..k], id) + (if active[k].id == id then active[k].callbacks[1..] else []) + CallbacksOf(active[k + 1..], id)
  {
    EventsNow(active, k, id);
    EventsLater(active, k, id);
  }

  lemma EventsNow(active: seq<Ready>, k: nat, id: Id)
    requires k < |active|
    ensures CallbacksOf(active, id)
         == CallbacksOf(active[..k], id) + (if active[k].id == id then active[k].callbacks else []) + CallbacksOf(active[k + 1..], id)
  {
    var e, b := active[k], active[k + 1..];
    assert active == active[..k] + ([e] + b);
    CallbacksSplit(active[..k], [e] + b, id);
    CallbacksSplit([e], b, id);
  }

  lemma EventsLater(active: seq<Ready>, k: nat, id: Id)
    requires k < |active| && active[k].callbacks != []
    ensures CallbacksOf(Advance(active, k), id)
         == CallbacksOf(active[..k], id) + (if active[k].id == id then active[k].callbacks[1..] else []) + CallbacksOf(active[k + 1..], id)
  {
    var e, b := active[k], active[k + 1..];
    var left := if |e.callbacks| == 1 then [] else [e.(callbacks := e.callbacks[1..])];
    assert Advance(active, k) == active[..k] + (left + b);
    CallbacksSplit(active[..k], left + b, id);
    CallbacksSplit(left, b, id);
  }

  lemma AdvancedHere(s: Server, k: nat)
    requires Placed(s) && k < |s.active| && s.active[k].id in s.conns && s.active[k].callbacks != []
    requires forall i :: 0 <= i < k ==> s.active[i].loop != s.active[k].loop
    ensures var x := Project(s, s.active[k].id);
            x.callbacks != [] && x.callbacks[0] == s.active[k].callbacks[0]
            && Project(Advanced(s, k), s.active[k].id) == x.(callbacks := x.callbacks[1..])
  {
    var id := s.active[k].id;
    EventsAround(s.active, k, id);
    assert ReadyPlaced(s, s.active[k]);
    NoEventsElsewhere(s, s.active[..k], s.active[k].loop, id);
  }

  lemma AdvancedElsewhere(s: Server, k: nat, o: Id)
    requires SameKeys(s) && k < |s.active| && s.active[k].callbacks != [] && o in s.conns && o != s.active[k].id
    ensures Project(Advanced(s, k), o) == Project(s, o)
  {
    EventsAround(s.active, k, o);
  }

  lemma AdvancedPlaced(s: Server, k: nat)
    requires Placed(s) && k < |s.active| && s.active[k].callbacks != []
    ensures Placed(Advanced(s, k))
  {
    var s' := Advanced(s, k);
    forall i | 0 <= i < |s'.active| ensures ReadyPlaced(s', s'.active[i]) {
      var j := if |s.active[k].callbacks| > 1 || i < k then i else i + 1;
      assert ReadyPlaced(s, s.active[j]) && s'.active[i].id == s.active[j].id && s'.active[i].loop == s.active[j].loop;
    }
    forall i | 0 <= i < |s'.jobs| ensures JobPlaced(s', s'.jobs[i]) {
      assert JobPlaced(s, s.jobs[i]);
    }
  }

  lemma {:induction false} CallbackStep(s: Server, k: nat, r: ReadResult, w: WriteResult)
    requires Inv(s) && Enabled(s, RunCallback(k, r, w))
    ensures Next(s, RunCallback(k, r, w)).Some? && Inv(Next(s, RunCallback(k, r, w)).value)
  {
    var id := s.active[k].id;
    AdvancedHere(s, k);
    AdvancedPlaced(s, k);
    assert L.Inv(Project(s, id));
    L.HeadCallbackSafe(Project(s, id), r, w);
    assert OthersInv(Advanced(s, k), id) by {
      forall o | o in s.conns && o != id ensures L.Inv(Project(Advanced(s, k), o)) {
        AdvancedElsewhere(s, k, o);
      }
    }
    WorkKeepsInv(Advanced(s, k), id, L.ByCallback(s.active[k].callbacks[0], r, w));
  }

  // ---------------------------------------------------------------- polling

  lemma {:induction false} ReadyListOf(loop: LoopId, ready: seq<(Id, Revents)>, id: Id)
    requires forall i, j :: 0 <= i < j < |ready| ==> ready[i].0 != ready[j].0
    ensures |ReadyList(loop, ready)| == |ready|
    ensures forall i :: 0 <= i < |ready| ==> ReadyList(loop, ready)[i] == Ready(loop, ready[i].0, Dispatch(ready[i].1))
    ensures (forall i :: 0 <= i < |ready| ==> ready[i].0 != id) ==> CallbacksOf(ReadyList(loop, ready), id) == []
    ensures forall i :: 0 <= i < |ready| && ready[i].0 == id ==> CallbacksOf(ReadyList(loop, ready), id) == Dispatch(ready[i].1)
  {
    if ready != [] {
      ReadyListOf(loop, ready[1..], id);
    }
  }

  lemma PollElsewhere(s: Server, loop: LoopId, ready: seq<(Id, Revents)>, o: Id)
    requires Placed(s) && Enabled(s, Poll(loop, ready)) && o in s.conns
    requires forall i :: 0 <= i < |ready| ==> ready[i].0 != o
    ensures Project(Next(s, Poll(loop, ready)).value, o) == Project(s, o)
  {
    ReadyListOf(loop, ready, o);
    CallbacksSplit(s.active, ReadyList(loop, ready), o);
  }

  lemma PollHere(s: Server, loop: LoopId, ready: seq<(Id, Revents)>, i: nat)
    requires Placed(s) && Enabled(s, Poll(loop, ready)) && i < |ready|
    ensures Pollable(s, loop, ready[i])
    ensures var x := Project(s, ready[i].0);
            x.callbacks == [] && Project(Next(s, Poll(loop, ready)).value, ready[i].0) == x.(callbacks := Dispatch(ready[i].1))
  {
    assert Pollable(s, loop, ready[i]);
    IdleLoop(s, loop, ready[i].0);
    ReadyListOf(loop, ready, ready[i].0);
    CallbacksSplit(s.active, ReadyList(loop, ready), ready[i].0);
  }

  lemma PollView(s: Server, loop: LoopId, ready: seq<(Id, Revents)>, o: Id)
    requires Placed(s) && Enabled(s, Poll(loop, ready)) && o in s.conns && L.Inv(Project(s, o))
    ensures L.Inv(Project(Next(s, Poll(loop, ready)).value, o))
  {
    if i: nat :| i < |ready| && ready[i].0 == o {
      PollHere(s, loop, ready, i);
      L.PolledKeepsInv(Project(s, o), ready[i].1);
    } else {
      PollElsewhere(s, loop, ready, o);
    }
  }

  lemma PollPlaced(s: Server, loop: LoopId, ready: seq<(Id, Revents)>)
    requires Placed(s) && Enabled(s, Poll(loop, ready))
    ensures Placed(Next(s, Poll(loop, ready)).value)
  {
    var s' := Next(s, Poll(loop, ready)).value;
    ReadyListOf(loop, ready, 0);
    forall i | 0 <= i < |s'.active| ensures ReadyPlaced(s', s'.active[i]) {
      if i < |s.active| {
        assert ReadyPlaced(s, s.active[i]);
      } else {
        assert Pollable(s, loop, ready[i - |s.active|]);
      }
    }
    forall i | 0 <= i < |s'.jobs| ensures JobPlaced(s', s'.jobs[i]) {
      assert JobPlaced(s, s.jobs[i]);
    }
  }

  lemma PollStep(s: Server, loop: LoopId, ready: seq<(Id, Revents)>)
    requires Inv(s) && Enabled(s, Poll(loop, ready))
    ensures Next(s, Poll(loop, ready)).Some? && Inv(Next(s, Poll(loop, ready)).value)
  {
    PollPlaced(s, loop, ready);
    forall o | o in s.conns ensures L.Inv(Project(Next(s, Poll(loop, ready)).value, o)) {
      PollView(s, loop, ready, o);
    }
  }

  // ---------------------------------------------------------------- accepting

  lemma {:induction false} NothingFor(s: Server, jobs: seq<Queued>, active: seq<Ready>, id: Id)
    requires id !in s.conns
    requires forall i :: 0 <= i < |jobs| ==> JobPlaced(s, jobs[i])
    requires forall i :: 0 <= i < |active| ==> ReadyPlaced(s, active[i])
    ensures HomeQueue(jobs, id) == [] && Removals(jobs, id) == 0 && CallbacksOf(active, id) == []
    decreases |jobs| + |active|
  {
    if jobs != [] {
      NothingFor(s, jobs[1..], active, id);
    } else if active != [] {
      NothingFor(s, jobs, active[1..], id);
    }
  }

  lemma AcceptHere(s: Server, loop: LoopId)
    requires Placed(s)
    ensures SameKeys(Next(s, Accept(loop)).value)
    ensures Project(Next(s, Accept(loop)).value, s.nextConnId) == L.NewCell(loop == 0)
  {
    var id := s.nextConnId;
    NothingFor(s, s.jobs, s.active, id);
    JobsSplit(s.jobs, [Queued(loop, id, L.Establish)], id);
  }

  lemma AcceptElsewhere(s: Server, loop: LoopId, o: Id)
    requires Placed(s) && o in s.conns
    ensures SameKeys(Next(s, Accept(loop)).value) && Project(Next(s, Accept(loop)).value, o) == Project(s, o)
  {
    var id := s.nextConnId;
    JobsSplit(s.jobs, [Queued(loop, id, L.Establish)], o);
    if ConnName(o) == ConnName(id) {
      NamesDiffer(o, id);
    }
  }

  lemma AcceptStep(s: Server, loop: LoopId)
    requires Inv(s)
    ensures Inv(Next(s, Accept(loop)).value)
  {
    AcceptPlaced(s, loop);
    AcceptHere(s, loop);
    L.NewCellInv(loop == 0);
    forall o | o in s.conns ensures L.Inv(Project(Next(s, Accept(loop)).value, o)) {
      AcceptElsewhere(s, loop, o);
    }
  }

  lemma AcceptPlaced(s: Server, loop: LoopId)
    requires Placed(s)
    ensures Placed(Next(s, Accept(loop)).value)
  {
    var s' := Next(s, Accept(loop)).value;
    forall i | 0 <= i < |s'.jobs| ensures JobPlaced(s', s'.jobs[i]) {
      assert i < |s.jobs| ==> JobPlaced(s, s.jobs[i]);
    }
    forall i | 0 <= i < |s'.active| ensures ReadyPlaced(s', s'.active[i]) {
      assert ReadyPlaced(s, s.active[i]);
    }
  }

  // ---------------------------------------------------------------- whole runs

  lemma {:induction false} StepKeepsInv(s: Server, a: Action)
    requires Inv(s) && Enabled(s, a)
    ensures Next(s, a).Some? && Inv(Next(s, a).value)
  {
    match a
    case Accept(loop) => AcceptStep(s, loop);
    case User(id, call) => UserStep(s, id, call);
    case Poll(loop, ready) => PollStep(s, loop, ready);
    case RunCallback(k, r, w) => CallbackStep(s, k, r, w);
    case RunJob(k, w) => JobStep(s, k, w);
  }

  /** Each action is enabled where the run reaches it; a run stops where an assertion fails. */
  ghost predicate Scheduled(s: Server, acts: seq<Action>)
    requires SameKeys(s)
    decreases |acts|
  {
    acts == [] ||
    (Enabled(s, acts[0]) &&
     (Next(s, acts[0]).Some? && SameKeys(Next(s, acts[0]).value) ==> Scheduled(Next(s, acts[0]).value, acts[1..])))
  }

  /** The server after a run; `None` if an assertion failed on the way. */
  ghost function Run(s: Server, acts: seq<Action>): Option<Server>
    requires SameKeys(s) && Scheduled(s, acts)
    decreases |acts|
  {
    if acts == [] then Some(s)
    else
      var next := Next(s, acts[0]);
      if next.None? || !SameKeys(next.value) then None else Run(next.value, acts[1..])
  }

  lemma {:induction false} RunKeepsInv(s: Server, acts: seq<Action>)
    requires Inv(s) && Scheduled(s, acts)
    ensures Run(s, acts).Some? && Inv(Run(s, acts).value)
    decreases |acts|
  {
    if acts != [] {
      StepKeepsInv(s, acts[0]);
      RunKeepsInv(Next(s, acts[0]).value, acts[1..]);
    }
  }

  /** In every run of a live server, with any number of loops and whatever users, peers and the kernel
      do: no assertion of the connection's and the server's methods or of `Channel::remove` ever fails (those
      of the destructors are `Lifecycle.LastOwner`'s, and `EventLoop::removeChannel` has nothing to assert
      where functors run, after the events), so in particular every `connections_.erase` removes its
      one entry, no connection is established, closed or destroyed in the wrong state, and no channel is
      removed while enabled. Each connection gets one UP callback and, only after it, at most one DOWN
      and one close callback, always together; `connectDestroyed` runs at most once, after them, on a
      disabled channel, and until it has run exactly one functor of the teardown is queued, after it none
      of the connection's at all; the server holds the connection while it is up and no longer once it is destroyed. */
  lemma ConnectionLifecycle(acts: seq<Action>)
    requires Scheduled(START, acts)
    ensures Run(START, acts).Some?
    ensures var s := Run(START, acts).value;
            SameKeys(s) && forall id :: id in s.conns ==> L.Proper(Project(s, id))
  {
    RunKeepsInv(START, acts);
    var s := Run(START, acts).value;
    forall id | id in s.conns ensures L.Proper(Project(s, id)) {
      assert L.Inv(Project(s, id));
      L.InvIsProper(Project(s, id));
    }
  }
}

/** The server object: its connection map and counter, the connections with their loops, and the functors it
    queues. Its fields are those of the same names in `ServerModel.Server`, and its methods take the steps of
    that server: `Shows` is the refinement relation. */
module Servers {
  import opened Common
  import M = ConnectionModel
  import L = Lifecycle
  import S = ServerModel

  /** The server without the connection's entry, its destruction queued. */
  function Removed(s: S.Server, id: S.Id): S.Server
    requires id in s.home
  {
    s.(connections := s.connections - {S.ConnName(id)}, jobs := s.jobs + [S.Queued(s.home[id], id, L.Destroy)])
  }

  /** The server with one more connection on `ioLoop`: its `Accept` step. */
  function Accepted(s: S.Server, ioLoop: S.LoopId): S.Server {
    var id := s.nextConnId;
    s.(nextConnId := id + 1, connections := s.connections[S.ConnName(id) := id],
       conns := s.conns[id := L.NewCell(ioLoop == 0).conn], home := s.home[id := ioLoop], gone := s.gone[id := 0],
       jobs := if ioLoop == 0 then s.jobs else s.jobs + [S.Queued(ioLoop, id, L.Establish)])
  }

  lemma AcceptIs(s: S.Server, ioLoop: S.LoopId)
    requires S.SameKeys(s)
    ensures S.Next(s, S.Accept(ioLoop)) == Some(Accepted(s, ioLoop)) && S.SameKeys(Accepted(s, ioLoop))
  {
  }

  /** That is what the functor of a removal does, and code that closed a connection of the base loop. */
  lemma RemovalIs(s: S.Server, id: S.Id, c: M.Conn)
    requires S.SameKeys(s) && id in s.home && S.ConnName(id) in s.connections
    ensures S.Work(s, id, L.ByJob(L.Remove, M.Wrote(0))) == Some(Removed(s, id))
    ensures c.closes != s.conns[id].closes && s.home[id] == 0 ==>
              L.AfterCode(c, s.conns[id], true, true).Some? &&
              S.Apply(s, id, L.AfterCode(c, s.conns[id], true, true).value) == Removed(s, id)
  {
    assert s.conns[id := s.conns[id]] == s.conns && s.gone[id := s.gone[id] + 0] == s.gone;
  }

  /** Code that closed a connection of another loop queues the functor. */
  lemma RemovalQueued(s: S.Server, id: S.Id, c: M.Conn, held: bool)
    requires S.SameKeys(s) && id in s.home && c.closes != s.conns[id].closes
    ensures L.AfterCode(c, s.conns[id], false, held).Some?
    ensures S.Apply(s, id, L.AfterCode(c, s.conns[id], false, held).value) == s.(jobs := s.jobs + [S.Queued(0, id, L.Remove)])
  {
    assert s.conns[id := s.conns[id]] == s.conns && s.gone[id := s.gone[id] + 0] == s.gone;
  }

  class TcpServer {
    var nextConnId: nat
    var connections: map<string, S.Id>
    var conns: map<S.Id, M.Conn>
    var home: map<S.Id, S.LoopId>
    var jobs: seq<S.Queued>

    /** Every entry is filed under its connection's name, which a later connection cannot get. */
    ghost predicate Valid()
      reads this
    {
      && (forall name :: name in connections ==> connections[name] in home && name == S.ConnName(connections[name]))
      && conns.Keys == home.Keys && (forall id :: id in home ==> id < nextConnId)
    }

    ghost predicate Shows(s: S.Server)
      reads this
    {
      && s.nextConnId == nextConnId && s.connections == connections && s.conns == conns && s.home == home && s.jobs == jobs
      && S.SameKeys(s)
    }

    constructor ()
      ensures Valid() && Shows(S.START)
    {
      nextConnId := 1;
      connections := map[];
      conns := map[];
      home := map[];
      jobs := [];
    }

    /** `newConnection`; `ioLoop` is the loop the thread pool hands out. The name is a new one, so no
        entry is overwritten. */
    method NewConnection(ioLoop: S.LoopId, ghost s: S.Server) returns (id: S.Id)
      requires Valid() && Shows(s)
      modifies this
      ensures Valid() && Shows(Accepted(s, ioLoop))
      ensures id == old(nextConnId) && S.ConnName(id) !in old(connections)
    {
      id := Insert(ioLoop);
      RunEstablish(id);
    }

    /** The new connection's name, entry and loop. */
    method Insert(ioLoop: S.LoopId) returns (id: S.Id)
      requires Valid()
      modifies this
      ensures Valid() && id == old(nextConnId) && nextConnId == id + 1 && jobs == old(jobs)
      ensures S.ConnName(id) !in old(connections) && connections == old(connections)[S.ConnName(id) := id]
      ensures conns == old(conns)[id := M.FRESH] && home == old(home)[id := ioLoop]
    {
      id := nextConnId;
      var connName := S.ConnName(id);
      assert connName !in connections by {
        if connName in connections {
          S.NamesDiffer(connections[connName], id);
        }
      }
      nextConnId := nextConnId + 1;
      connections := connections[connName := id];
      conns := conns[id := M.FRESH];
      home := home[id := ioLoop];
    }

    /** `ioLoop->runInLoop(connectEstablished)`: at once on the base loop, else queued. */
    method RunEstablish(id: S.Id)
      requires Valid() && id in home && conns[id] == M.FRESH
      modifies this`conns, this`jobs
      ensures Valid()
      ensures conns == old(conns)[id := L.NewCell(home[id] == 0).conn]
      ensures jobs == if home[id] == 0 then old(jobs) else old(jobs) + [S.Queued(home[id], id, L.Establish)]
    {
      if home[id] == 0 {
        conns := conns[id := M.ConnectEstablished(conns[id])];
      } else {
        jobs := jobs + [S.Queued(home[id], id, L.Establish)];
      }
    }

    /** `removeConnection`, called back on the connection's loop by code that closed the connection: on the
        base loop it removes at once. The effect is that of such code in the server's step; `before` is the
        connection before that code. */
    method RemoveConnection(id: S.Id, ghost s: S.Server, ghost before: M.Conn)
      requires Valid() && Shows(s) && id in home && before.closes != conns[id].closes
      requires home[id] == 0 ==> S.ConnName(id) in connections
      modifies this`connections, this`jobs
      ensures Valid()
      ensures var e := L.AfterCode(before, conns[id], home[id] == 0, S.ConnName(id) in s.connections);
              e.Some? && Shows(S.Apply(s, id, e.value))
    {
      if home[id] == 0 {
        RemovalIs(s, id, before);
        var n := RemoveConnectionInLoop(id, s);
      } else {
        RemovalQueued(s, id, before, S.ConnName(id) in s.connections);
        jobs := jobs + [S.Queued(0, id, L.Remove)];
      }
    }

    /** `removeConnectionInLoop`, the functor of a removal; what it requires is its assertion `n == 1`, which
        `ServerModel.RemovalHolds` shows to be met whenever it runs. */
    method RemoveConnectionInLoop(id: S.Id, ghost s: S.Server) returns (n: int)
      requires Valid() && Shows(s) && id in home && S.ConnName(id) in connections
      modifies this`connections, this`jobs
      ensures Valid() && n == 1 == |old(connections)| - |connections|
      ensures Shows(Removed(s, id))
    {
      var connName := S.ConnName(id);
      var left := connections - {connName};
      n := |connections| - |left|;
      connections := left;
      jobs := jobs + [S.Queued(home[id], id, L.Destroy)];
    }
  }
}
