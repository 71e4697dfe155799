/** The connecting socket's state machine: network/src/Connector.cc, with the loop's queue and the
    channel's dispatch as far as they concern it. */
module ConnectorModel {
  import opened Common
  import opened PollerModel

  datatype ConnectState = Disconnected | Connecting | Connected

  /** How `connect()` sorts the errno of connect(2): go on and wait, close and allow a retry, or
      close for good. */
  datatype ConnectResult = InProgress | Retryable | Fatal

  datatype Task = TaskStart | TaskStop | TaskReset

  /** Sockets are numbered in the order they are created. */
  type Socket = nat

  datatype Connector = Connector(
    state: ConnectState,
    connect: bool,                  // connect_
    channel: Option<Socket>,        // channel_, with the socket it is for
    registered: bool,               // the channel is enabled and in the poller
    queue: seq<Task>,               // the connector's functors in the loop's queue
    active: seq<Callback>,          // callbacks of the channel's current dispatch still to run
    created: nat,                   // sockets created
    closed: multiset<Socket>,       // sockets::close calls
    handed: multiset<Socket>)       // newConnectionCallback_ calls

  const FRESH := Connector(Disconnected, false, None, false, [], [], 0, multiset{}, multiset{})

  /** `retry`: close the socket; the timer that would try again is commented out. */
  function Retry(s: Connector, socket: Socket): Connector {
    s.(closed := s.closed + multiset{socket}, state := Disconnected)
  }

  /** `connecting`; `None` when its assertion `!channel_` fails. */
  function BeginConnecting(s: Connector, socket: Socket): Option<Connector> {
    if s.channel.Some? then None
    else Some(s.(state := Connecting, channel := Some(socket), registered := true))
  }

  function Connect(s: Connector, r: ConnectResult): Option<Connector> {
    var socket := s.created;
    var s' := s.(created := s.created + 1);
    match r
    case InProgress => BeginConnecting(s', socket)
    case Retryable => Some(Retry(s', socket))
    case Fatal => Some(s'.(closed := s'.closed + multiset{socket}))
  }

  /** `startInLoop`; `None` when an assertion fails. */
  function StartInLoop(s: Connector, r: ConnectResult): Option<Connector> {
    if s.state != Disconnected then None
    else if s.connect then Connect(s, r)
    else Some(s)
  }

  /** `removeAndResetChannel`: out of the poller now, the channel object later. */
  function RemoveChannel(s: Connector): Connector {
    s.(registered := false, queue := s.queue + [TaskReset])
  }

  function StopInLoop(s: Connector): Connector
    requires s.state == Connecting ==> s.channel.Some?
  {
    if s.state == Connecting then Retry(RemoveChannel(s.(state := Disconnected)), s.channel.value) else s
  }

  /** `handleWrite`; `failed` is a pending SO_ERROR or a self-connect. `None` when its assertion in the
      other branch fails. */
  function HandleWrite(s: Connector, failed: bool): Option<Connector>
    requires s.state == Connecting ==> s.channel.Some?
  {
    if s.state == Connecting then
      var socket := s.channel.value;
      var s' := RemoveChannel(s);
      if failed then Some(Retry(s', socket))
      else if s.connect then Some(s'.(state := Connected, handed := s'.handed + multiset{socket}))
      else Some(s'.(state := Connected, closed := s'.closed + multiset{socket}))
    else if s.state == Disconnected then Some(s)
    else None
  }

  function HandleError(s: Connector): Connector
    requires s.state == Connecting ==> s.channel.Some?
  {
    if s.state == Connecting then Retry(RemoveChannel(s), s.channel.value) else s
  }

  // ---------------------------------------------------------------- steps

  datatype Action =
    | Start(inLoop: bool, r: ConnectResult)
    | Stop
    | Restart(r: ConnectResult)
    | RunTask(r: ConnectResult)
    | Polled(revents: Revents)
    | RunCallback(failed: bool)

  /** `handleEvent` on a channel that has only a write and an error callback. */
  function Callbacks(r: Revents): seq<Callback> {
    (if r.pollout then [WriteCallback] else []) + (if r.err || r.nval then [ErrorCallback] else [])
  }

  predicate Enabled(s: Connector, a: Action) {
    match a
    case RunTask(_) => s.active == [] && s.queue != []
    case Polled(revents) => s.active == [] && s.registered && Reportable(revents, Mask(false, true))
    case RunCallback(_) => s.active != []
    case _ => true
  }

  function Next(s: Connector, a: Action): Option<Connector>
    requires Enabled(s, a) && (s.state == Connecting ==> s.channel.Some?)
  {
    match a
    case Start(inLoop, r) =>
      var s' := s.(connect := true);
      if inLoop then StartInLoop(s', r) else Some(s'.(queue := s'.queue + [TaskStart]))
    case Stop => Some(s.(connect := false, queue := s.queue + [TaskStop]))
    case Restart(r) => StartInLoop(s.(state := Disconnected, connect := true), r)
    case RunTask(r) => (
      var s' := s.(queue := s.queue[1..]);
      match s.queue[0]
      case TaskStart => StartInLoop(s', r)
      case TaskStop => Some(StopInLoop(s'))
      case TaskReset => Some(s'.(channel := None)))
    case Polled(revents) => Some(s.(active := Callbacks(revents)))
    case RunCallback(failed) =>
      var s' := s.(active := s.active[1..]);
      if s.active[0] == WriteCallback then HandleWrite(s', failed) else Some(HandleError(s'))
  }

  // ---------------------------------------------------------------- the ledger

  /** The socket is owned by the channel of an attempt under way. */
  ghost predicate Held(s: Connector, socket: Socket) {
    s.state == Connecting && s.channel == Some(socket)
  }

  /** Every created socket is in exactly one place: held by the attempt under way, closed once, or
      handed out once. No other socket is touched. */
  ghost predicate Ledger(s: Connector) {
    forall k: Socket ::
      s.closed[k] + s.handed[k] + (if Held(s, k) then 1 else 0) == if k < s.created then 1 else 0
  }

  ghost predicate Inv(s: Connector) {
    && Ledger(s)
    && (s.state == Connecting <==> s.registered)
    && (s.registered ==> s.channel.Some?)
    && multiset(s.queue)[TaskReset] == (if s.channel.Some? && !s.registered then 1 else 0)
    && (s.active != [] && s.active[0] == WriteCallback ==> s.state == Connecting)
    && (forall i :: 1 <= i < |s.active| ==> s.active[i] == ErrorCallback)
  }

  /** The step runs `startInLoop` and either connects or meets its assertion. */
  predicate Starts(s: Connector, a: Action) {
    match a
    case Start(inLoop, _) => inLoop
    case RunTask(_) => s.queue != [] && s.queue[0] == TaskStart && (s.connect || s.state != Disconnected)
    case Restart(_) => true
    case _ => false
  }

  /** The calls that go wrong: `startInLoop` running while not disconnected, which `restart` hides from its
      assertion, or getting a connection in progress before `resetChannel` has run for the last one. */
  predicate Misused(s: Connector, a: Action) {
    Starts(s, a) &&
    ((if a.Restart? then s.state == Connecting else s.state != Disconnected) || (s.channel.Some? && Attempt(a) == InProgress))
  }

  /** What a caller can see before the step: an attempt starts only with no channel object left, and outside
      `restart` only while disconnected. */
  predicate Ready(s: Connector, a: Action) {
    Starts(s, a) ==> s.channel.None? && (a.Restart? || s.state == Disconnected)
  }

  /** The same step with another answer of connect(2). */
  function WithResult(a: Action, r: ConnectResult): Action {
    match a
    case Start(inLoop, _) => Start(inLoop, r)
    case RunTask(_) => RunTask(r)
    case Restart(_) => Restart(r)
    case _ => a
  }

  function Attempt(a: Action): ConnectResult {
    match a
    case Start(_, r) => r
    case RunTask(r) => r
    case Restart(r) => r
    case _ => Fatal
  }

  lemma TakeTask(queue: seq<Task>)
    requires queue != []
    ensures multiset(queue)[TaskReset] == multiset(queue[1..])[TaskReset] + if queue[0] == TaskReset then 1 else 0
  {
    assert queue == [queue[0]] + queue[1..];
  }

  lemma ConnectKeepsInv(s: Connector, r: ConnectResult)
    requires Inv(s) && s.state == Disconnected
    ensures Connect(s, r).None? <==> s.channel.Some? && r == InProgress
    ensures Connect(s, r).Some? ==> Inv(Connect(s, r).value)
  {
  }

  lemma RemovalKeepsInv(s: Connector, s': Connector, socket: Socket)
    requires Inv(s) && s.state == Connecting && s.channel == Some(socket)
    requires s.active != [] ==> s.active[0] != WriteCallback
    requires s'.state != Connecting && s' == RemoveChannel(s).(state := s'.state, closed := s'.closed, handed := s'.handed)
    requires s'.closed + s'.handed == s.closed + s.handed + multiset{socket}
    ensures Inv(s')
  {
    forall k: Socket ensures s'.closed[k] + s'.handed[k] == (s'.closed + s'.handed)[k] && s.closed[k] + s.handed[k] == (s.closed + s.handed)[k] {
    }
  }

  lemma TakeCallback(s: Connector)
    requires Inv(s) && s.active != []
    ensures var s' := s.(active := s.active[1..]);
            Inv(s') && (s'.active != [] ==> s'.active[0] == ErrorCallback)
  {
  }

  lemma StopKeepsInv(s: Connector)
    requires Inv(s) && s.active == []
    ensures Inv(StopInLoop(s))
  {
    if s.state == Connecting {
      RemovalKeepsInv(s, StopInLoop(s), s.channel.value);
    }
  }

  lemma CallbackKeepsInv(s: Connector, failed: bool)
    requires Inv(s) && s.active != []
    ensures Next(s, RunCallback(failed)).Some? && Inv(Next(s, RunCallback(failed)).value)
  {
    TakeCallback(s);
    if s.state == Connecting {
      RemovalKeepsInv(s.(active := s.active[1..]), Next(s, RunCallback(failed)).value, s.channel.value);
    }
  }

  lemma TaskKeepsInv(s: Connector, r: ConnectResult)
    requires Inv(s) && Enabled(s, RunTask(r)) && !Misused(s, RunTask(r))
    ensures Next(s, RunTask(r)).Some? && Inv(Next(s, RunTask(r)).value)
  {
    TakeTask(s.queue);
    var s' := s.(queue := s.queue[1..]);
    match s.queue[0]
    case TaskStart => if s.connect { ConnectKeepsInv(s', r); }
    case TaskStop => StopKeepsInv(s');
    case TaskReset =>
  }

  /** `restart` keeps every socket in one place exactly when no attempt is under way and no connection in
      progress meets the last attempt's channel. */
  lemma RestartKeepsLedger(s: Connector, r: ConnectResult)
    requires Inv(s)
    ensures (Next(s, Restart(r)).Some? && Ledger(Next(s, Restart(r)).value))
       <==> s.state != Connecting && !(s.channel.Some? && r == InProgress)
  {
    if s.state == Connecting {
      if r != InProgress {
        RestartLosesSocket(s, r);
      }
    } else {
      ConnectKeepsInv(s.(state := Disconnected, connect := true), r);
    }
  }

  /** During an attempt its socket is then neither held any more, nor closed, nor handed over; a connection
      in progress fails the assertion. */
  lemma RestartLosesSocket(s: Connector, r: ConnectResult)
    requires Inv(s) && s.state == Connecting
    ensures var socket, next := s.channel.value, Next(s, Restart(r));
            if r == InProgress then next.None?
            else next.Some? && socket < next.value.created && next.value.closed[socket] == next.value.handed[socket] == 0
                 && !Held(next.value, socket)
  {
    assert Held(s, s.channel.value);
  }

  /** The step succeeds and keeps the invariant exactly when it is not one of those that go wrong; outside
      `restart` these are the steps that fail an assertion. */
  ghost predicate SafeUnlessMisused(s: Connector, a: Action)
    requires Inv(s) && Enabled(s, a)
  {
    && ((Next(s, a).Some? && Ledger(Next(s, a).value)) <==> !Misused(s, a))
    && (!a.Restart? ==> (Next(s, a).None? <==> Misused(s, a)))
    && (!Misused(s, a) ==> Inv(Next(s, a).value))
  }

  lemma StartStep(s: Connector, inLoop: bool, r: ConnectResult)
    requires Inv(s)
    ensures SafeUnlessMisused(s, Start(inLoop, r))
  {
    if inLoop && s.state == Disconnected {
      ConnectKeepsInv(s.(connect := true), r);
    }
  }

  lemma RestartStep(s: Connector, r: ConnectResult)
    requires Inv(s)
    ensures SafeUnlessMisused(s, Restart(r))
  {
    RestartKeepsLedger(s, r);
    if s.state != Connecting {
      ConnectKeepsInv(s.(state := Disconnected, connect := true), r);
    }
  }

  lemma TaskStep(s: Connector, r: ConnectResult)
    requires Inv(s) && Enabled(s, RunTask(r))
    ensures SafeUnlessMisused(s, RunTask(r))
  {
    if !Misused(s, RunTask(r)) {
      TaskKeepsInv(s, r);
    }
  }

  /** Every step is of this kind. In particular the write and error callbacks of one dispatch, and `stop` at
      any moment, never go wrong. */
  lemma StepKeepsInv(s: Connector, a: Action)
    requires Inv(s) && Enabled(s, a)
    ensures SafeUnlessMisused(s, a)
  {
    match a
    case Start(inLoop, r) => StartStep(s, inLoop, r);
    case Restart(r) => RestartStep(s, r);
    case RunTask(r) => TaskStep(s, r);
    case RunCallback(failed) => CallbackKeepsInv(s, failed);
    case _ =>
  }

  /** Whatever connect(2) answers, a step succeeds and keeps the invariant exactly when it is ready. */
  lemma ReadySteps(s: Connector, a: Action)
    requires Inv(s) && Enabled(s, a)
    ensures (forall r :: Next(s, WithResult(a, r)).Some? && Ledger(Next(s, WithResult(a, r)).value)) <==> Ready(s, a)
  {
    forall r ensures (Next(s, WithResult(a, r)).Some? && Ledger(Next(s, WithResult(a, r)).value)) <==> !Misused(s, WithResult(a, r)) {
      StepKeepsInv(s, WithResult(a, r));
    }
    assert Ready(s, a) <==> !Misused(s, WithResult(a, InProgress));
    assert Ready(s, a) ==> forall r :: !Misused(s, WithResult(a, r));
  }

  /** Runs in which no call goes wrong. */
  ghost predicate WellUsed(s: Connector, acts: seq<Action>)
    decreases |acts|
  {
    acts == [] ||
    (Enabled(s, acts[0]) && !Misused(s, acts[0]) &&
     (s.state == Connecting ==> s.channel.Some?) &&
     (Next(s, acts[0]).Some? ==> WellUsed(Next(s, acts[0]).value, acts[1..])))
  }

  ghost function Run(s: Connector, acts: seq<Action>): Option<Connector>
    requires WellUsed(s, acts)
    decreases |acts|
  {
    if acts == [] then Some(s)
    else if Next(s, acts[0]).None? then None
    else Run(Next(s, acts[0]).value, acts[1..])
  }

  /** In every run, with connect results, write and error events (also both in one dispatch), `stop` from
      any thread and user calls in any order, no assertion fails and every socket ever created is held by
      the current attempt, closed once, or handed to the callback once. */
  lemma {:induction false} SocketLedger(s: Connector, acts: seq<Action>)
    requires Inv(s) && WellUsed(s, acts)
    ensures Run(s, acts).Some? && Inv(Run(s, acts).value)
    decreases |acts|
  {
    if acts != [] {
      StepKeepsInv(s, acts[0]);
      SocketLedger(Next(s, acts[0]).value, acts[1..]);
    }
  }

  /** From a fresh connector that has come to rest (not connecting), all sockets are accounted for. */
  lemma SettledLedger(acts: seq<Action>)
    requires WellUsed(FRESH, acts)
    ensures Run(FRESH, acts).Some?
    ensures var s := Run(FRESH, acts).value;
            s.state != Connecting ==> forall k: Socket :: k < s.created ==> s.closed[k] + s.handed[k] == 1
  {
    SocketLedger(FRESH, acts);
    var s := Run(FRESH, acts).value;
    assert forall k: Socket :: s.state != Connecting ==> !Held(s, k);
  }

  // ---------------------------------------------------------------- what becomes of an attempt

  /** A write event finds the attempt connected, without an error, and still wanted. */
  predicate Wins(s: Connector, a: Action) {
    a.RunCallback? && !a.failed && s.active != [] && s.active[0] == WriteCallback && s.connect
  }

  /** A write event hands the socket over exactly when it is connected and wanted, and closes it otherwise. */
  lemma {:induction false} WriteEventDecides(s: Connector, failed: bool)
    requires Inv(s) && s.active != [] && s.active[0] == WriteCallback
    ensures s.channel.Some? && Next(s, RunCallback(failed)).Some?
    ensures var k, t := s.channel.value, Next(s, RunCallback(failed)).value;
            && ((t.handed == s.handed + multiset{k} && t.closed == s.closed) <==> !failed && s.connect)
            && ((t.closed == s.closed + multiset{k} && t.handed == s.handed) <==> failed || !s.connect)
            && t.state == if failed then Disconnected else Connected
  {
    var k := s.channel.value;
    assert (s.handed + multiset{k})[k] == s.handed[k] + 1 && (s.closed + multiset{k})[k] == s.closed[k] + 1;
  }

  /** No other step hands a socket over. */
  lemma {:induction false} OnlyWinnersHanded(s: Connector, a: Action)
    requires Inv(s) && Enabled(s, a) && Next(s, a).Some?
    ensures Wins(s, a) ==> s.channel.Some? && Next(s, a).value.handed == s.handed + multiset{s.channel.value}
    ensures !Wins(s, a) ==> Next(s, a).value.handed == s.handed
  {
    if a.RunCallback? && s.active[0] == WriteCallback {
      WriteEventDecides(s, a.failed);
    }
  }

  /** The sockets whose write event found them connected and wanted. */
  ghost function Winners(s: Connector, acts: seq<Action>): multiset<Socket>
    requires WellUsed(s, acts)
    decreases |acts|
  {
    if acts == [] || Next(s, acts[0]).None? then multiset{}
    else (if Wins(s, acts[0]) && s.channel.Some? then multiset{s.channel.value} else multiset{})
         + Winners(Next(s, acts[0]).value, acts[1..])
  }

  /** Over every run exactly those are handed over. */
  lemma {:induction false} HandedOver(s: Connector, acts: seq<Action>)
    requires Inv(s) && WellUsed(s, acts)
    ensures Run(s, acts).Some? && Run(s, acts).value.handed == s.handed + Winners(s, acts)
    decreases |acts|
  {
    if acts != [] {
      StepKeepsInv(s, acts[0]);
      OnlyWinnersHanded(s, acts[0]);
      HandedOver(Next(s, acts[0]).value, acts[1..]);
    }
  }

  /** A step that starts an attempt creates one socket: with a connection in progress it is the attempt's, with
      any other answer it is closed at once. No other step creates one. */
  lemma {:induction false} AttemptBegins(s: Connector, a: Action)
    requires Inv(s) && Enabled(s, a) && !Misused(s, a)
    ensures Next(s, a).Some?
    ensures var t := Next(s, a).value;
            if !Starts(s, a) then t.created == s.created
            else t.created == s.created + 1 &&
                 (if Attempt(a) == InProgress then t.state == Connecting && t.channel == Some(s.created) && t.closed == s.closed
                  else t.state == Disconnected && t.channel == s.channel && t.closed == s.closed + multiset{s.created})
  {
    StepKeepsInv(s, a);
  }

  /** The steps that end an attempt: a callback of its channel, and the functor of `stop`. */
  predicate Ends(s: Connector, a: Action) {
    a.RunCallback? || (a.RunTask? && s.queue != [] && s.queue[0] == TaskStop)
  }

  /** Nothing else does; one that ends without winning has its socket closed, once. */
  lemma {:induction false} AttemptEnds(s: Connector, a: Action)
    requires Inv(s) && Enabled(s, a) && !Misused(s, a) && s.state == Connecting
    ensures Next(s, a).Some? && s.channel.Some?
    ensures Next(s, a).value.state == Connecting <==> !Ends(s, a)
    ensures var t := Next(s, a).value;
            t.closed == if Ends(s, a) && !Wins(s, a) then s.closed + multiset{s.channel.value} else s.closed
    ensures Next(s, a).value.state == Connected <==> a.RunCallback? && s.active[0] == WriteCallback && !a.failed
  {
    StepKeepsInv(s, a);
  }

  /** Functors are queued behind the others, and run from the front. */
  lemma {:induction false} TasksInOrder(s: Connector, a: Action)
    requires Inv(s) && Enabled(s, a) && Next(s, a).Some?
    ensures (if a.RunTask? then s.queue[1..] else s.queue) <= Next(s, a).value.queue
    ensures a.Stop? ==> Next(s, a).value.queue == s.queue + [TaskStop]
    ensures a.Start? && !a.inLoop ==> Next(s, a).value.queue == s.queue + [TaskStart]
    ensures a.RunTask? && s.queue[0] == TaskReset ==> Next(s, a).value.channel == None
  {
  }

  /** The last of `start`, `restart` and `stop` decides whether a connection is wanted. */
  function Wanted(before: bool, acts: seq<Action>): bool {
    if acts == [] then before
    else match acts[|acts| - 1]
      case Start(_, _) => true
      case Restart(_) => true
      case Stop => false
      case _ => Wanted(before, acts[..|acts| - 1])
  }

  lemma {:induction false} WantedCons(before: bool, a: Action, rest: seq<Action>)
    ensures Wanted(before, [a] + rest) == Wanted(Wanted(before, [a]), rest)
    decreases |rest|
  {
    var acts := [a] + rest;
    if rest == [] {
      assert acts == [a];
    } else {
      assert acts[..|acts| - 1] == [a] + rest[..|rest| - 1] && acts[|acts| - 1] == rest[|rest| - 1];
      WantedCons(before, a, rest[..|rest| - 1]);
    }
  }

  lemma {:induction false} LastWishHolds(s: Connector, acts: seq<Action>)
    requires Inv(s) && WellUsed(s, acts)
    ensures Run(s, acts).Some? && Run(s, acts).value.connect == Wanted(s.connect, acts)
    decreases |acts|
  {
    if acts != [] {
      StepKeepsInv(s, acts[0]);
      WishMoves(s, acts[0]);
      LastWishHolds(Next(s, acts[0]).value, acts[1..]);
      WantedCons(s.connect, acts[0], acts[1..]);
      assert acts == [acts[0]] + acts[1..];
    }
  }

  lemma {:induction false} WishMoves(s: Connector, a: Action)
    requires Inv(s) && Enabled(s, a) && Next(s, a).Some?
    ensures Next(s, a).value.connect == Wanted(s.connect, [a])
  {
    assert [a][..0] == [];
  }

  /** The channel has a write and an error callback only. */
  lemma {:induction false} CallbacksMean(r: Revents)
    ensures WriteCallback in Callbacks(r) <==> r.pollout
    ensures ErrorCallback in Callbacks(r) <==> r.err || r.nval
    ensures forall cb :: cb in Callbacks(r) <==> cb in Dispatch(r) && (cb == WriteCallback || cb == ErrorCallback)
  {
    var close, read := if r.hup && !r.pollin then [CloseCallback] else [], if r.pollin || r.pri || r.rdhup then [ReadCallback] else [];
    assert Dispatch(r) == close + read + Callbacks(r);
  }
}

/** The connector object. */
module Connectors {
  import opened Common
  import opened PollerModel
  import M = ConnectorModel

  class Connector {
    var state: M.ConnectState
    var connect: bool
    var channel: Option<M.Socket>
    var registered: bool
    var queue: seq<M.Task>
    var active: seq<Callback>
    var created: nat
    var closed: multiset<M.Socket>
    var handed: multiset<M.Socket>

    ghost function View(): M.Connector
      reads this
    {
      M.Connector(state, connect, channel, registered, queue, active, created, closed, handed)
    }

    ghost predicate Valid()
      reads this
    {
      M.Inv(View())
    }

    constructor ()
      ensures Valid() && View() == M.FRESH
    {
      state := M.Disconnected;
      connect := false;
      channel := None;
      registered := false;
      queue, active := [], [];
      created := 0;
      closed, handed := multiset{}, multiset{};
    }

    /** `start`, on the loop thread (`r` is what connect(2) answers) or from another thread. */
    method Start(inLoop: bool, r: M.ConnectResult)
      requires Valid() && !M.Misused(View(), M.Start(inLoop, r))
      modifies this
      ensures Valid() && Some(View()) == M.Next(old(View()), M.Start(inLoop, r))
    {
      M.StepKeepsInv(View(), M.Start(inLoop, r));
      connect := true;
      if inLoop {
        StartInLoop(r);
      } else {
        queue := queue + [M.TaskStart];
      }
    }

    /** `restart`, on the loop thread, also during an attempt; it must not meet the assertion in `connecting`. */
    method Restart(r: M.ConnectResult)
      requires r == M.InProgress ==> channel.None?
      modifies this
      ensures Some(View()) == M.StartInLoop(old(View()).(state := M.Disconnected, connect := true), r)
      ensures old(Valid()) && old(state) != M.Connecting ==> Valid()
    {
      if Valid() {
        M.StepKeepsInv(View(), M.Restart(r));
      }
      state := M.Disconnected;
      connect := true;
      StartInLoop(r);
    }

    method StartInLoop(r: M.ConnectResult)
      requires state == M.Disconnected && (connect && r == M.InProgress ==> channel.None?)
      modifies this
      ensures Some(View()) == M.StartInLoop(old(View()), r)
    {
      if connect {
        DoConnect(r);
      }
    }

    /** `connect()`. */
    method DoConnect(r: M.ConnectResult)
      requires r == M.InProgress ==> channel.None?
      modifies this
      ensures Some(View()) == M.Connect(old(View()), r)
    {
      var sockfd := created;
      created := created + 1;
      match r {
        case InProgress =>
          state := M.Connecting;
          channel := Some(sockfd);
          registered := true;
        case Retryable =>
          Retry(sockfd);
        case Fatal =>
          closed := closed + multiset{sockfd};
      }
    }

    method Retry(sockfd: M.Socket)
      modifies this`closed, this`state
      ensures View() == M.Retry(old(View()), sockfd)
    {
      closed := closed + multiset{sockfd};
      state := M.Disconnected;
    }

    method RemoveAndResetChannel() returns (sockfd: M.Socket)
      requires channel.Some?
      modifies this`registered, this`queue
      ensures View() == M.RemoveChannel(old(View())) && Some(sockfd) == channel
    {
      registered := false;
      sockfd := channel.value;
      queue := queue + [M.TaskReset];
    }

    method Stop()
      requires Valid()
      modifies this`connect, this`queue
      ensures Valid() && Some(View()) == M.Next(old(View()), M.Stop)
    {
      M.StepKeepsInv(View(), M.Stop);
      connect := false;
      queue := queue + [M.TaskStop];
    }

    method StopInLoop()
      requires state == M.Connecting ==> channel.Some?
      modifies this
      ensures View() == M.StopInLoop(old(View()))
    {
      if state == M.Connecting {
        state := M.Disconnected;
        var sockfd := RemoveAndResetChannel();
        Retry(sockfd);
      }
    }

    /** The next functor of this connector's in the loop's queue. */
    method RunTask(r: M.ConnectResult)
      requires Valid() && M.Enabled(View(), M.RunTask(r)) && !M.Misused(View(), M.RunTask(r))
      modifies this
      ensures Valid() && Some(View()) == M.Next(old(View()), M.RunTask(r))
    {
      M.StepKeepsInv(View(), M.RunTask(r));
      var task := queue[0];
      queue := queue[1..];
      match task {
        case TaskStart => StartInLoop(r);
        case TaskStop => StopInLoop();
        case TaskReset => channel := None;
      }
    }

    /** The next callback of the current dispatch. */
    method RunCallback(failed: bool)
      requires Valid() && active != []
      modifies this
      ensures Valid() && Some(View()) == M.Next(old(View()), M.RunCallback(failed))
    {
      M.StepKeepsInv(View(), M.RunCallback(failed));
      var cb := active[0];
      active := active[1..];
      if cb == WriteCallback {
        HandleWrite(failed);
      } else {
        HandleError();
      }
    }

    method HandleWrite(failed: bool)
      requires state == M.Connecting ==> channel.Some?
      requires state != M.Connecting ==> state == M.Disconnected
      modifies this
      ensures Some(View()) == M.HandleWrite(old(View()), failed)
      ensures old(state) == M.Connecting ==>
                handed == old(handed) + (if !failed && connect then multiset{old(channel).value} else multiset{})
      ensures old(state) == M.Connecting ==>
                closed == old(closed) + (if failed || !connect then multiset{old(channel).value} else multiset{})
    {
      if state == M.Connecting {
        var sockfd := RemoveAndResetChannel();
        if failed {
          Retry(sockfd);
        } else {
          state := M.Connected;
          if connect {
            handed := handed + multiset{sockfd};
          } else {
            closed := closed + multiset{sockfd};
          }
        }
      }
    }

    method HandleError()
      requires state == M.Connecting ==> channel.Some?
      modifies this
      ensures View() == M.HandleError(old(View()))
    {
      if state == M.Connecting {
        var sockfd := RemoveAndResetChannel();
        Retry(sockfd);
      }
    }
  }
}
