/** One connection of network/src/TcpConnection.cc as a value, and each of its methods as a function
    of it. System call results are arguments. */
module ConnectionModel {
  import opened Common
  import opened PollerModel

  datatype ConnState = Disconnected | Connecting | Connected | Disconnecting

  datatype Errno = EWOULDBLOCK | EPIPE | ECONNRESET | OTHER

  datatype WriteResult = Wrote(n: nat) | Failed(errno: Errno)

  /** `write` takes at most what it was given. */
  predicate Possible(w: WriteResult, len: nat) {
    w.Wrote? ==> w.n <= len
  }

  datatype ReadResult = Got(n: nat) | EndOfFile | ReadError

  /** A `shutdownWrite` (SHUT_WR), with the state it happened in and the bytes then still unsent. */
  datatype HalfClose = HalfClose(during: ConnState, unsent: seq<Byte>)

  datatype Conn = Conn(
    state: ConnState,
    channel: Entry,
    output: seq<Byte>,            // readable bytes of outputBuffer_
    wire: seq<Byte>,              // everything write() took
    halfCloses: seq<HalfClose>,
    ups: nat,                     // connectionCallback_ calls while connected
    downs: nat,                   // connectionCallback_ calls while disconnected
    closes: nat,                  // closeCallback_ calls
    completions: nat)             // writeCompleteCallback_ calls queued

  const FRESH := Conn(Connecting, Entry(NONE_EVENT, New), [], [], [], 0, 0, 0, 0)

  predicate Live(c: Conn) { c.state == Connected || c.state == Disconnecting }

  predicate IsWriting(c: Conn) { c.channel.events.write }

  /** A mask edit and the update it triggers. */
  function SetEvents(c: Conn, events: Mask): Conn {
    c.(channel := Entry(events, IndexAfter(c.channel.index, events)))
  }

  function Buffered(c: Conn, rest: seq<Byte>): Conn {
    var c' := c.(output := c.output + rest);
    if rest == [] then c
    else if IsWriting(c) then c'
    else SetEvents(c', c.channel.events.(write := true))
  }

  function SendInLoop(c: Conn, data: seq<Byte>, w: WriteResult): Conn
    requires Possible(w, |data|)
  {
    if c.state == Disconnected then c
    else if !IsWriting(c) && c.output == [] then
      match w
      case Wrote(n) =>
        var c' := c.(wire := c.wire + data[..n]);
        if n == |data| then c'.(completions := c.completions + 1) else Buffered(c', data[n..])
      case Failed(errno) =>
        if errno == EPIPE || errno == ECONNRESET then c else Buffered(c, data)
    else Buffered(c, data)
  }

  function ShutdownInLoop(c: Conn): Conn {
    if IsWriting(c) then c else c.(halfCloses := c.halfCloses + [HalfClose(c.state, c.output)])
  }

  function HandleWrite(c: Conn, w: WriteResult): Conn
    requires Possible(w, |c.output|)
  {
    if IsWriting(c) && w.Wrote? && w.n > 0 then
      var c' := c.(wire := c.wire + c.output[..w.n], output := c.output[w.n..]);
      if c'.output == [] then Drained(c') else c'
    else c
  }

  function Drained(c: Conn): Conn {
    var c' := SetEvents(c, c.channel.events.(write := false)).(completions := c.completions + 1);
    if c.state == Disconnecting then ShutdownInLoop(c') else c'
  }

  /** `handleClose`, behind its assertion. */
  function HandleClose(c: Conn): Conn
    requires Live(c)
  {
    SetEvents(c, NONE_EVENT).(state := Disconnected, downs := c.downs + 1, closes := c.closes + 1)
  }

  function HandleRead(c: Conn, r: ReadResult): Conn
    requires Live(c)
  {
    if r == EndOfFile then HandleClose(c) else c
  }

  function ForceCloseInLoop(c: Conn): Conn {
    if Live(c) then HandleClose(c) else c
  }

  /** The check-then-set shared by `shutdown` (from `Connected`) and `forceClose`. */
  function BeginDisconnect(c: Conn): Conn {
    c.(state := Disconnecting)
  }

  function ConnectEstablished(c: Conn): Conn
    requires c.state == Connecting
  {
    SetEvents(c, c.channel.events.(read := true)).(state := Connected, ups := c.ups + 1)
  }

  /** What `connectDestroyed` asserts through `Channel::remove`, after its own disabling. */
  predicate Destroyable(c: Conn) {
    c.channel.index != New && (c.state == Connected || c.channel.events == NONE_EVENT)
  }

  function ConnectDestroyed(c: Conn): Conn
    requires Destroyable(c)
  {
    var c' := if c.state == Connected then SetEvents(c, NONE_EVENT).(state := Disconnected, downs := c.downs + 1) else c;
    c'.(channel := Entry(c'.channel.events, New))
  }

  // ---------------------------------------------------------------- one connection's runs

  /** What other threads, and `forceClose`, leave in the loop's queue for this connection. */
  datatype Task = TaskSend(data: seq<Byte>) | TaskShutdown | TaskForceClose

  datatype System = System(conn: Conn, queue: seq<Task>)

  datatype Event =
    | Send(inLoop: bool, data: seq<Byte>, w: WriteResult)
    | Shutdown(inLoop: bool)
    | ForceClose
    | ForceCloseWithDelay
    | RunTask(w: WriteResult)
    | Readable(r: ReadResult)
    | CanWrite(w: WriteResult)
    | HangUp

  predicate Enabled(s: System, e: Event) {
    match e
    case Send(_, data, w) => Possible(w, |data|)
    case RunTask(w) => s.queue != [] && (s.queue[0].TaskSend? ==> Possible(w, |s.queue[0].data|))
    case Readable(_) => Live(s.conn)
    case HangUp => Live(s.conn)
    case CanWrite(w) => Possible(w, |s.conn.output|)
    case _ => true
  }

  function Next(s: System, e: Event): System
    requires Enabled(s, e)
  {
    var c := s.conn;
    match e
    case Send(inLoop, data, w) =>
      if c.state != Connected then s
      else if inLoop then s.(conn := SendInLoop(c, data, w))
      else s.(queue := s.queue + [TaskSend(data)])
    case Shutdown(inLoop) =>
      if c.state != Connected then s
      else if inLoop then s.(conn := ShutdownInLoop(BeginDisconnect(c)))
      else System(BeginDisconnect(c), s.queue + [TaskShutdown])
    case ForceClose =>
      if Live(c) then System(BeginDisconnect(c), s.queue + [TaskForceClose]) else s
    case ForceCloseWithDelay =>
      if Live(c) then s.(conn := BeginDisconnect(c)) else s
    case RunTask(w) =>
      System(match s.queue[0]
             case TaskSend(data) => SendInLoop(c, data, w)
             case TaskShutdown => ShutdownInLoop(c)
             case TaskForceClose => ForceCloseInLoop(c),
             s.queue[1..])
    case Readable(r) => s.(conn := HandleRead(c, r))
    case CanWrite(w) => s.(conn := HandleWrite(c, w))
    case HangUp => s.(conn := HandleClose(c))
  }

  ghost predicate Runnable(s: System, es: seq<Event>)
    decreases |es|
  {
    es == [] || (Enabled(s, es[0]) && Runnable(Next(s, es[0]), es[1..]))
  }

  ghost function Run(s: System, es: seq<Event>): System
    requires Runnable(s, es)
    decreases |es|
  {
    if es == [] then s else Run(Next(s, es[0]), es[1..])
  }

  const ESTABLISHED := System(ConnectEstablished(FRESH), [])

  // ---------------------------------------------------------------- the output stream

  /** A `sendInLoop` call drops its message when the connection is down, or when nothing is queued
      and the direct write fails with EPIPE or ECONNRESET. */
  predicate Dropped(c: Conn, w: WriteResult) {
    c.state == Disconnected || (c.output == [] && (w == Failed(EPIPE) || w == Failed(ECONNRESET)))
  }

  /** The bytes one event makes the connection responsible for: the message of the `sendInLoop` call
      it executes, if there is one and it is not dropped. */
  function Taken(s: System, e: Event): seq<Byte>
    requires Enabled(s, e)
  {
    match e
    case Send(inLoop, data, w) => if inLoop && s.conn.state == Connected && !Dropped(s.conn, w) then data else []
    case RunTask(w) => if s.queue[0].TaskSend? && !Dropped(s.conn, w) then s.queue[0].data else []
    case _ => []
  }

  /** All messages taken in a run, in the order `sendInLoop` executed. */
  ghost function AllTaken(s: System, es: seq<Event>): seq<Byte>
    requires Runnable(s, es)
    decreases |es|
  {
    if es == [] then [] else Taken(s, es[0]) + AllTaken(Next(s, es[0]), es[1..])
  }

  ghost predicate Inv(c: Conn) {
    // while the connection is up, interest in writing means exactly that bytes are waiting
    && (c.state != Disconnected ==> (IsWriting(c) <==> c.output != []))
    && (c.state == Disconnected ==> c.channel.events == NONE_EVENT)
    && (Live(c) ==> c.channel.index == Added && c.channel.events.read)
    // a half-close while the connection is up left nothing unsent
    && (forall i :: 0 <= i < |c.halfCloses| ==>
          c.halfCloses[i].during == Disconnected || c.halfCloses[i].unsent == [])
  }

  lemma SendKeepsInv(c: Conn, data: seq<Byte>, w: WriteResult)
    requires Inv(c) && c.state != Connecting && Possible(w, |data|)
    ensures var c' := SendInLoop(c, data, w);
            Inv(c') && c'.state == c.state && c'.halfCloses == c.halfCloses
            && c'.wire + c'.output == c.wire + c.output + (if Dropped(c, w) then [] else data)
            && c.wire <= c'.wire
  {
    if !Dropped(c, w) && c.output == [] && w.Wrote? {
      assert data == data[..w.n] + data[w.n..];
    }
  }

  lemma WriteKeepsInv(c: Conn, w: WriteResult)
    requires Inv(c) && Possible(w, |c.output|)
    ensures var c' := HandleWrite(c, w);
            Inv(c') && c'.state == c.state && c'.wire + c'.output == c.wire + c.output && c.wire <= c'.wire
  {
    if w.Wrote? {
      assert c.output == c.output[..w.n] + c.output[w.n..];
    }
  }

  lemma StepConserves(s: System, e: Event)
    requires Inv(s.conn) && s.conn.state != Connecting && Enabled(s, e)
    ensures var s' := Next(s, e);
            Inv(s'.conn) && s'.conn.state != Connecting
            && s'.conn.wire + s'.conn.output == s.conn.wire + s.conn.output + Taken(s, e)
            && s.conn.wire <= s'.conn.wire
  {
    match e
    case Send(inLoop, data, w) => SendKeepsInv(s.conn, data, w);
    case RunTask(w) =>
      if s.queue[0].TaskSend? {
        SendKeepsInv(s.conn, s.queue[0].data, w);
      }
    case CanWrite(w) => WriteKeepsInv(s.conn, w);
    case _ =>
  }

  /** Over every run of sends from any thread, partial writes, blocked and failed writes, write
      events, shutdowns and closes: what is on the wire followed by what is still buffered is
      exactly the messages taken, in the order they were executed. */
  lemma {:induction false} StreamConservation(s: System, es: seq<Event>)
    requires Inv(s.conn) && s.conn.state != Connecting && Runnable(s, es)
    ensures var e := Run(s, es).conn;
            Inv(e) && e.state != Connecting
            && e.wire + e.output == s.conn.wire + s.conn.output + AllTaken(s, es)
    decreases |es|
  {
    if es != [] {
      StepConserves(s, es[0]);
      StreamConservation(Next(s, es[0]), es[1..]);
      var t := Taken(s, es[0]);
      var rest := AllTaken(Next(s, es[0]), es[1..]);
      assert s.conn.wire + s.conn.output + t + rest == s.conn.wire + s.conn.output + (t + rest);
    }
  }

  // ---------------------------------------------------------------- what write takes

  /** The bytes that the event's call of write(2) took, if it makes one: a send with nothing waiting, or a write
      event. */
  function Written(s: System, e: Event): seq<Byte>
    requires Enabled(s, e)
  {
    match e
    case Send(inLoop, data, w) => if inLoop && s.conn.state == Connected then Direct(s.conn, data, w) else []
    case RunTask(w) => if s.queue[0].TaskSend? then Direct(s.conn, s.queue[0].data, w) else []
    case CanWrite(w) => if IsWriting(s.conn) && w.Wrote? then s.conn.output[..w.n] else []
    case _ => []
  }

  function Direct(c: Conn, data: seq<Byte>, w: WriteResult): seq<Byte>
    requires Possible(w, |data|)
  {
    if WritesDirectly(c) && w.Wrote? then data[..w.n] else []
  }

  predicate WritesDirectly(c: Conn) { c.state != Disconnected && !IsWriting(c) && c.output == [] }

  /** The call left nothing unsent. */
  predicate Completes(s: System, e: Event)
    requires Enabled(s, e)
  {
    match e
    case Send(inLoop, data, w) => inLoop && s.conn.state == Connected && WritesDirectly(s.conn) && w == Wrote(|data|)
    case RunTask(w) => s.queue[0].TaskSend? && WritesDirectly(s.conn) && w == Wrote(|s.queue[0].data|)
    case CanWrite(w) => IsWriting(s.conn) && w == Wrote(|s.conn.output|) && s.conn.output != []
    case _ => false
  }

  /** The wire grows by what write took and by nothing else, and each call that leaves nothing unsent queues one
      write-complete callback. */
  lemma {:induction false} WireGrows(s: System, e: Event)
    requires Inv(s.conn) && s.conn.state != Connecting && Enabled(s, e)
    ensures Next(s, e).conn.wire == s.conn.wire + Written(s, e)
    ensures Next(s, e).conn.completions == s.conn.completions + if Completes(s, e) then 1 else 0
  {
    match e
    case Send(inLoop, data, w) => SendWrites(s.conn, data, w);
    case RunTask(w) => if s.queue[0].TaskSend? { SendWrites(s.conn, s.queue[0].data, w); }
    case CanWrite(w) => EventWrites(s.conn, w);
    case _ =>
  }

  lemma {:induction false} SendWrites(c: Conn, data: seq<Byte>, w: WriteResult)
    requires Possible(w, |data|)
    ensures SendInLoop(c, data, w).wire == c.wire + Direct(c, data, w)
    ensures SendInLoop(c, data, w).completions == c.completions + if WritesDirectly(c) && w == Wrote(|data|) then 1 else 0
  {
  }

  lemma {:induction false} EventWrites(c: Conn, w: WriteResult)
    requires Inv(c) && c.state != Connecting && Possible(w, |c.output|)
    ensures HandleWrite(c, w).wire == c.wire + if IsWriting(c) && w.Wrote? then c.output[..w.n] else []
    ensures HandleWrite(c, w).completions
         == c.completions + if IsWriting(c) && w == Wrote(|c.output|) && c.output != [] then 1 else 0
  {
  }

  ghost function AllWritten(s: System, es: seq<Event>): seq<Byte>
    requires Runnable(s, es)
    decreases |es|
  {
    if es == [] then [] else Written(s, es[0]) + AllWritten(Next(s, es[0]), es[1..])
  }

  /** So over every run the wire is what the calls of write took, one after the other. */
  lemma {:induction false} WireIsWritten(s: System, es: seq<Event>)
    requires Inv(s.conn) && s.conn.state != Connecting && Runnable(s, es)
    ensures Run(s, es).conn.wire == s.conn.wire + AllWritten(s, es)
    decreases |es|
  {
    if es != [] {
      WireGrows(s, es[0]);
      StepConserves(s, es[0]);
      WireIsWritten(Next(s, es[0]), es[1..]);
    }
  }

  // ---------------------------------------------------------------- the state

  /** The events that take a connection down, and those that begin to. */
  predicate GoesDown(s: System, e: Event) {
    e.HangUp? || (e.Readable? && e.r == EndOfFile) || (e.RunTask? && s.queue != [] && s.queue[0] == TaskForceClose)
  }

  predicate BeginsToClose(e: Event) { e.Shutdown? || e.ForceClose? || e.ForceCloseWithDelay? }

  /** Nothing else changes the state; what was unsent stays buffered when the connection goes down. */
  lemma {:induction false} StateChanges(s: System, e: Event)
    requires Live(s.conn) && Inv(s.conn) && Enabled(s, e)
    ensures var t := Next(s, e).conn;
            && (t.state == Disconnected <==> GoesDown(s, e))
            && (t.state == Disconnecting <==> !GoesDown(s, e) && (s.conn.state == Disconnecting || BeginsToClose(e)))
            && t.state != Connecting
            && (GoesDown(s, e) ==> t.output == s.conn.output && t.wire == s.conn.wire)
            && (e.Readable? && e.r != EndOfFile ==> Next(s, e) == s)
  {
    StepConserves(s, e);
  }

  /** The events that send SHUT_WR: a shutdown with nothing unsent, at once or when its functor runs, or the write
      that empties the buffer of a disconnecting connection. */
  predicate SendsShutdown(s: System, e: Event)
    requires Enabled(s, e)
  {
    match e
    case Shutdown(inLoop) => inLoop && s.conn.state == Connected && s.conn.output == []
    case RunTask(_) => s.queue[0] == TaskShutdown && (s.conn.state == Disconnected || s.conn.output == [])
    case CanWrite(w) => s.conn.state == Disconnecting && s.conn.output != [] && w == Wrote(|s.conn.output|)
    case _ => false
  }

  /** Each sends one, and no other event does. */
  lemma {:induction false} ShutdownGoesOut(s: System, e: Event)
    requires Inv(s.conn) && s.conn.state != Connecting && Enabled(s, e)
    ensures var t := Next(s, e).conn;
            t.halfCloses == s.conn.halfCloses + if SendsShutdown(s, e) then [HalfClose(t.state, t.output)] else []
  {
    match e
    case CanWrite(w) => DrainHalfCloses(s.conn, w);
    case _ =>
  }

  lemma {:induction false} DrainHalfCloses(c: Conn, w: WriteResult)
    requires Inv(c) && c.state != Connecting && Possible(w, |c.output|)
    ensures var t := HandleWrite(c, w);
            t.halfCloses == c.halfCloses
                            + if c.state == Disconnecting && c.output != [] && w == Wrote(|c.output|) then [HalfClose(t.state, t.output)] else []
  {
  }

  // ---------------------------------------------------------------- the order of other threads' calls

  /** The functor that a call leaves in the loop's queue. */
  function Asked(s: System, e: Event): seq<Task> {
    match e
    case Send(inLoop, data, _) => if s.conn.state == Connected && !inLoop then [TaskSend(data)] else []
    case Shutdown(inLoop) => if s.conn.state == Connected && !inLoop then [TaskShutdown] else []
    case ForceClose => if Live(s.conn) then [TaskForceClose] else []
    case _ => []
  }

  ghost function AllAsked(s: System, es: seq<Event>): seq<Task>
    requires Runnable(s, es)
    decreases |es|
  {
    if es == [] then [] else Asked(s, es[0]) + AllAsked(Next(s, es[0]), es[1..])
  }

  /** The functors that have run, and whether each was a send that was not dropped. */
  datatype Ran = Ran(task: Task, taken: bool)

  ghost function AllRan(s: System, es: seq<Event>): seq<Ran>
    requires Runnable(s, es)
    decreases |es|
  {
    if es == [] then []
    else RanNow(s, es[0]) + AllRan(Next(s, es[0]), es[1..])
  }

  function RanNow(s: System, e: Event): seq<Ran>
    requires Enabled(s, e)
  {
    if e.RunTask? then [Ran(s.queue[0], s.queue[0].TaskSend? && !Dropped(s.conn, e.w))] else []
  }

  function Tasks(ran: seq<Ran>): (tasks: seq<Task>)
    ensures |tasks| == |ran| && forall i :: 0 <= i < |ran| ==> tasks[i] == ran[i].task
  {
    seq(|ran|, i requires 0 <= i < |ran| => ran[i].task)
  }

  /** Over every run the functors run in the order of the calls: those asked for are those that have run and then
      those that wait. */
  lemma {:induction false} CallsInOrder(s: System, es: seq<Event>)
    requires Runnable(s, es)
    ensures s.queue + AllAsked(s, es) == Tasks(AllRan(s, es)) + Run(s, es).queue
    decreases |es|
  {
    if es != [] {
      var t := Next(s, es[0]);
      CallsInOrder(t, es[1..]);
      CallQueued(s, es[0]);
      Chain(s.queue, Asked(s, es[0]), Tasks(RanNow(s, es[0])), t.queue, AllAsked(t, es[1..]), Tasks(AllRan(t, es[1..])), Run(t, es[1..]).queue);
      TasksJoin(RanNow(s, es[0]), AllRan(t, es[1..]));
    }
  }

  lemma {:induction false} CallQueued(s: System, e: Event)
    requires Enabled(s, e)
    ensures s.queue + Asked(s, e) == Tasks(RanNow(s, e)) + Next(s, e).queue
  {
    if e.RunTask? {
      assert s.queue == [s.queue[0]] + s.queue[1..];
    }
  }

  lemma {:induction false} TasksJoin(a: seq<Ran>, b: seq<Ran>)
    ensures Tasks(a + b) == Tasks(a) + Tasks(b)
  {
  }

  lemma {:induction false} Chain<T>(q: seq<T>, a: seq<T>, ran: seq<T>, mid: seq<T>, rest: seq<T>, later: seq<T>, end: seq<T>)
    requires q + a == ran + mid && mid + rest == later + end
    ensures q + (a + rest) == (ran + later) + end
  {
    assert q + (a + rest) == (q + a) + rest && (ran + mid) + rest == ran + (mid + rest);
    assert ran + (later + end) == (ran + later) + end;
  }

  /** The messages among functors. */
  function Messages(tasks: seq<Task>): seq<seq<Byte>> {
    if tasks == [] then []
    else (if tasks[0].TaskSend? then [tasks[0].data] else []) + Messages(tasks[1..])
  }

  lemma {:induction false} MessagesJoin(a: seq<Task>, b: seq<Task>)
    ensures Messages(a + b) == Messages(a) + Messages(b)
  {
    if a == [] {
      assert a + b == b;
    } else {
      assert (a + b)[1..] == a[1..] + b;
      MessagesJoin(a[1..], b);
    }
  }

  /** So the messages that other threads send are executed in the order of the calls, the rest waiting in that order. */
  lemma {:induction false} MessagesInOrder(s: System, es: seq<Event>)
    requires Runnable(s, es)
    ensures Messages(s.queue) + Messages(AllAsked(s, es)) == Messages(Tasks(AllRan(s, es))) + Messages(Run(s, es).queue)
  {
    CallsInOrder(s, es);
    MessagesJoin(s.queue, AllAsked(s, es));
    MessagesJoin(Tasks(AllRan(s, es)), Run(s, es).queue);
  }

  /** The messages taken of those executed. */
  function TakenOf(ran: seq<Ran>): seq<Byte> {
    if ran == [] then []
    else (if ran[0].taken && ran[0].task.TaskSend? then ran[0].task.data else []) + TakenOf(ran[1..])
  }

  /** When no send is called on the loop thread, the bytes taken are those of the messages executed and not dropped,
      which are a first part of the messages sent, in the order of the calls. */
  lemma {:induction false} OffLoopOrder(s: System, es: seq<Event>)
    requires Runnable(s, es) && s.queue == [] && forall i :: 0 <= i < |es| && es[i].Send? ==> !es[i].inLoop
    ensures AllTaken(s, es) == TakenOf(AllRan(s, es))
    ensures Messages(Tasks(AllRan(s, es))) <= Messages(AllAsked(s, es))
  {
    OffLoopTaken(s, es);
    MessagesInOrder(s, es);
    assert [] + Messages(AllAsked(s, es)) == Messages(AllAsked(s, es));
  }

  lemma {:induction false} OffLoopTaken(s: System, es: seq<Event>)
    requires Runnable(s, es) && forall i :: 0 <= i < |es| && es[i].Send? ==> !es[i].inLoop
    ensures AllTaken(s, es) == TakenOf(AllRan(s, es))
    decreases |es|
  {
    if es != [] {
      var later := AllRan(Next(s, es[0]), es[1..]);
      OffLoopTaken(Next(s, es[0]), es[1..]);
      if es[0].RunTask? {
        var now := Ran(s.queue[0], s.queue[0].TaskSend? && !Dropped(s.conn, es[0].w));
        assert AllRan(s, es) == [now] + later && ([now] + later)[1..] == later;
      } else {
        assert AllRan(s, es) == later;
      }
    }
  }

  function TasksRun(es: seq<Event>): nat {
    if es == [] then 0 else (if es[0].RunTask? then 1 else 0) + TasksRun(es[1..])
  }

  /** A forced close takes the connection down at the latest when the functors queued before it have run. */
  lemma {:induction false} ForceCloseHappens(s: System, es: seq<Event>)
    requires Inv(s.conn) && Live(s.conn) && Runnable(Next(s, ForceClose), es) && TasksRun(es) > |s.queue|
    ensures Run(Next(s, ForceClose), es).conn.state == Disconnected
  {
    CloseReached(Next(s, ForceClose), es, |s.queue|);
  }

  lemma {:induction false} CloseReached(s: System, es: seq<Event>, n: nat)
    requires Inv(s.conn) && s.conn.state != Connecting && Runnable(s, es)
    requires s.conn.state == Disconnected || (n < |s.queue| && s.queue[n] == TaskForceClose && TasksRun(es) > n)
    ensures Run(s, es).conn.state == Disconnected
    decreases |es|
  {
    if es != [] {
      var t := Next(s, es[0]);
      StepConserves(s, es[0]);
      if s.conn.state != Disconnected {
        StateChanges(s, es[0]);
      }
      if es[0].RunTask? && n > 0 {
        CloseReached(t, es[1..], n - 1);
      } else {
        CloseReached(t, es[1..], n);
      }
    }
  }

  // ---------------------------------------------------------------- half-close

  /** In every run of an established connection, a SHUT_WR issued while the connection is up comes
      when every byte taken so far is on the wire. */
  lemma {:induction false} HalfCloseIsClean(es: seq<Event>, e: Event)
    requires Runnable(ESTABLISHED, es) && Enabled(Run(ESTABLISHED, es), e)
    ensures var s := Run(ESTABLISHED, es);
            var s' := Next(s, e);
            |s'.conn.halfCloses| > |s.conn.halfCloses| && s.conn.state != Disconnected ==>
              s'.conn.wire == AllTaken(ESTABLISHED, es) + Taken(s, e) && s'.conn.output == []
  {
    var s := Run(ESTABLISHED, es);
    var s' := Next(s, e);
    StreamConservation(ESTABLISHED, es);
    StepConserves(s, e);
    assert ESTABLISHED.conn.wire + ESTABLISHED.conn.output + AllTaken(ESTABLISHED, es) == AllTaken(ESTABLISHED, es);
    assert s'.conn.output == [] ==> s'.conn.wire + s'.conn.output == s'.conn.wire;
  }

  /** `shutdownInLoop` half-closes over unsent bytes exactly when it runs on a connection that is
      already down and went down with bytes buffered. */
  lemma LossyHalfClose(c: Conn)
    requires Inv(c)
    ensures var c' := ShutdownInLoop(c);
            (c'.halfCloses != c.halfCloses && c'.halfCloses[|c.halfCloses|].unsent != [])
            <==> (c.state == Disconnected && c.output != [])
  {
  }

  /** It can happen: a blocked send, `shutdown()` from another thread, and the peer closing before
      the queued `shutdownInLoop` runs. */
  lemma LossyHalfCloseHappens(b: Byte) returns (es: seq<Event>)
    ensures Runnable(ESTABLISHED, es)
    ensures Run(ESTABLISHED, es).conn.halfCloses == [HalfClose(Disconnected, [b])]
  {
    es := [Send(true, [b], Failed(EWOULDBLOCK)), Shutdown(false), Readable(EndOfFile), RunTask(Wrote(0))];
    var s1 := Next(ESTABLISHED, es[0]);
    assert s1.conn.output == [b] && IsWriting(s1.conn);
    var s2 := Next(s1, es[1]);
    var s3 := Next(s2, es[2]);
    assert s3.conn.output == [b] && s3.conn.state == Disconnected && s3.queue == [TaskShutdown];
    var s4 := Next(s3, es[3]);
    assert s4.conn.halfCloses == [HalfClose(Disconnected, [b])];
    RunOne(s3, es[3..]); RunOne(s2, es[2..]); RunOne(s1, es[1..]); RunOne(ESTABLISHED, es);
  }

  lemma RunOne(s: System, es: seq<Event>)
    requires es != [] && Enabled(s, es[0]) && Runnable(Next(s, es[0]), es[1..])
    ensures Runnable(s, es) && Run(s, es) == Run(Next(s, es[0]), es[1..])
  {
  }

  /** The event half-closes over unsent bytes. */
  predicate LosesOutput(s: System, e: Event)
    requires Enabled(s, e)
  {
    var before, after := s.conn.halfCloses, Next(s, e).conn.halfCloses;
    |after| > |before| && after[|after| - 1].unsent != []
  }

  ghost predicate LosesAfter(s: System, es: seq<Event>, e: Event) {
    Runnable(s, es) && Enabled(Run(s, es), e) && LosesOutput(Run(s, es), e)
  }

  /** A message waits in the queue, no close before it and a shutdown behind it. */
  predicate SendThenShutdown(queue: seq<Task>) {
    queue != [] && queue[0] != TaskForceClose &&
    ((queue[0] !in {TaskSend([]), TaskShutdown} && TaskShutdown in queue[1..]) || SendThenShutdown(queue[1..]))
  }

  /** A connected one can always come to it; a disconnecting one if a shutdown is queued and bytes are unsent or
      will be before it runs; one that is down if a shutdown is queued and bytes are unsent. */
  predicate CanLose(s: System) {
    match s.conn.state
    case Connecting => false
    case Connected => true
    case Disconnecting => if s.conn.output != [] then TaskShutdown in s.queue else SendThenShutdown(s.queue)
    case Disconnected => s.conn.output != [] && TaskShutdown in s.queue
  }

  /** Some later run half-closes over unsent bytes exactly from these states. */
  lemma LossAhead(s: System)
    requires Inv(s.conn) && s.conn.state != Connecting
    ensures (exists es, e :: LosesAfter(s, es, e)) <==> CanLose(s)
  {
    if CanLose(s) {
      var es, e := Losing(s);
    } else {
      forall es, e | Runnable(s, es) && Enabled(Run(s, es), e) ensures !LosesAfter(s, es, e) {
        NeverLoses(s, es);
        SafeStep(Run(s, es), e);
      }
    }
  }

  lemma {:induction false} SendThenShutdownBefore(queue: seq<Task>)
    ensures SendThenShutdown(queue + [TaskForceClose]) <==> SendThenShutdown(queue)
    ensures TaskShutdown in queue + [TaskForceClose] <==> TaskShutdown in queue
    ensures SendThenShutdown(queue) ==> TaskShutdown in queue[1..]
  {
    if queue != [] {
      assert (queue + [TaskForceClose])[1..] == queue[1..] + [TaskForceClose];
      SendThenShutdownBefore(queue[1..]);
      if |queue| > 1 {
        assert queue[1..] == [queue[1]] + queue[1..][1..];
      }
    }
  }

  lemma SafeStep(s: System, e: Event)
    requires Inv(s.conn) && s.conn.state != Connecting && !CanLose(s) && Enabled(s, e)
    ensures !LosesOutput(s, e)
    ensures Inv(Next(s, e).conn) && Next(s, e).conn.state != Connecting && !CanLose(Next(s, e))
  {
    StepConserves(s, e);
    SendThenShutdownBefore(s.queue);
    if e.RunTask? {
      assert s.queue == [s.queue[0]] + s.queue[1..];
      SendThenShutdownBefore(s.queue[1..]);
    }
  }

  lemma {:induction false} NeverLoses(s: System, es: seq<Event>)
    requires Inv(s.conn) && s.conn.state != Connecting && !CanLose(s) && Runnable(s, es)
    ensures var t := Run(s, es); Inv(t.conn) && t.conn.state != Connecting && !CanLose(t)
    decreases |es|
  {
    if es != [] {
      SafeStep(s, es[0]);
      NeverLoses(Next(s, es[0]), es[1..]);
    }
  }

  function Rank(c: Conn): nat {
    match c.state
    case Connecting => 0
    case Connected => if c.output == [] then 3 else 2
    case Disconnecting => 1
    case Disconnected => 0
  }

  /** A run that comes to it. */
  lemma {:induction false} Losing(s: System) returns (es: seq<Event>, e: Event)
    requires Inv(s.conn) && CanLose(s)
    ensures LosesAfter(s, es, e)
    decreases Rank(s.conn), |s.queue|
  {
    if s.conn.state == Disconnected && s.queue[0] == TaskShutdown {
      es, e := [], RunTask(Wrote(0));
    } else {
      var first := TowardsLoss(s);
      var later: seq<Event>;
      later, e := Losing(Next(s, first));
      es := [first] + later;
      assert es[1..] == later;
      RunOne(s, es);
    }
  }

  /** The next step towards it. */
  lemma TowardsLoss(s: System) returns (e: Event)
    requires Inv(s.conn) && CanLose(s) && !(s.conn.state == Disconnected && s.queue[0] == TaskShutdown)
    ensures Enabled(s, e) && Inv(Next(s, e).conn) && CanLose(Next(s, e))
    ensures var t := Next(s, e); Rank(t.conn) < Rank(s.conn) || (Rank(t.conn) == Rank(s.conn) && |t.queue| < |s.queue|)
  {
    if s.queue != [] {
      SendThenShutdownBefore(s.queue);
      assert s.queue == [s.queue[0]] + s.queue[1..];
    }
    if s.conn.state == Connected {
      e := if s.conn.output == [] then Send(true, [0], Failed(EWOULDBLOCK)) else Shutdown(false);
    } else if s.conn.state == Disconnecting && s.conn.output != [] {
      e := HangUp;
    } else {
      e := RunTask(if s.conn.state == Disconnecting then Failed(EWOULDBLOCK) else Wrote(0));
    }
    StepConserves(s, e);
  }

  // ---------------------------------------------------------------- callers on the loop thread only

  predicate LoopThreadCall(e: Event) {
    match e
    case Send(inLoop, _, _) => inLoop
    case Shutdown(inLoop) => inLoop
    case _ => true
  }

  ghost predicate LoopThreadInv(s: System) {
    && Inv(s.conn) && s.conn.state != Connecting
    && (forall i :: 0 <= i < |s.queue| ==> s.queue[i] == TaskForceClose)
    && |s.conn.halfCloses| <= 1
    && (s.conn.halfCloses != [] ==> s.conn.state != Connected && s.conn.output == [])
    && (forall i :: 0 <= i < |s.conn.halfCloses| ==> s.conn.halfCloses[i].unsent == [])
  }

  lemma LoopThreadStep(s: System, e: Event)
    requires LoopThreadInv(s) && Enabled(s, e) && LoopThreadCall(e)
    ensures LoopThreadInv(Next(s, e))
    ensures s.conn.halfCloses != [] ==> Taken(s, e) == [] && Next(s, e).conn.halfCloses == s.conn.halfCloses
  {
    StepConserves(s, e);
  }

  /** With all callers on the loop thread, SHUT_WR happens at most once in a run, with nothing unsent,
      and no message is taken after it: it comes after every send. */
  lemma {:induction false} LoopThreadHalfClose(s: System, es: seq<Event>)
    requires LoopThreadInv(s) && Runnable(s, es)
    requires forall i :: 0 <= i < |es| ==> LoopThreadCall(es[i])
    ensures LoopThreadInv(Run(s, es)) && |Run(s, es).conn.halfCloses| <= 1
    ensures s.conn.halfCloses != [] ==> AllTaken(s, es) == [] && Run(s, es).conn.halfCloses == s.conn.halfCloses
    decreases |es|
  {
    if es != [] {
      LoopThreadStep(s, es[0]);
      LoopThreadHalfClose(Next(s, es[0]), es[1..]);
    }
  }

  // ---------------------------------------------------------------- callers on other threads

  /** A message waits in the queue, and no close before it. */
  predicate MessageWaits(queue: seq<Task>) {
    queue != [] && queue[0] != TaskForceClose && (queue[0] !in {TaskSend([]), TaskShutdown} || MessageWaits(queue[1..]))
  }

  /** A disconnecting connection can still take bytes exactly when a message waits. */
  lemma {:induction false} TakesMore(s: System) returns (es: seq<Event>)
    requires s.conn.state == Disconnecting && MessageWaits(s.queue)
    ensures Runnable(s, es) && AllTaken(s, es) != []
    decreases |s.queue|
  {
    var e := RunTask(Wrote(0));
    var next := Next(s, e);
    if s.queue[0] in {TaskSend([]), TaskShutdown} {
      var later := TakesMore(next);
      es := [e] + later;
    } else {
      es := [e];
      assert es[1..] == [];
    }
    assert es[0] == e && Runnable(next, es[1..]);
  }

  lemma MessageWaitsBefore(queue: seq<Task>)
    ensures MessageWaits(queue + [TaskForceClose]) <==> MessageWaits(queue)
  {
    if queue != [] {
      assert (queue + [TaskForceClose])[1..] == queue[1..] + [TaskForceClose];
    }
  }

  ghost predicate TakesNothing(s: System) {
    s.conn.state == Disconnected || (s.conn.state == Disconnecting && !MessageWaits(s.queue))
  }

  lemma TakesNothingStep(s: System, e: Event)
    requires TakesNothing(s) && Enabled(s, e)
    ensures TakesNothing(Next(s, e)) && Taken(s, e) == []
  {
    MessageWaitsBefore(s.queue);
  }

  lemma {:induction false} TakesNoMore(s: System, es: seq<Event>)
    requires TakesNothing(s) && Runnable(s, es)
    ensures AllTaken(s, es) == []
    decreases |es|
  {
    if es != [] {
      TakesNothingStep(s, es[0]);
      TakesNoMore(Next(s, es[0]), es[1..]);
    }
  }

  /** A queued `shutdownInLoop` finds the connection no longer connected. */
  lemma {:induction false} ShutdownComesLate(s: System, es: seq<Event>)
    requires s.conn.state != Connecting && (TaskShutdown in s.queue ==> s.conn.state != Connected) && Runnable(s, es)
    ensures var t := Run(s, es); t.conn.state != Connecting && (TaskShutdown in t.queue ==> t.conn.state != Connected)
    decreases |es|
  {
    if es != [] {
      ShutdownComesLate(Next(s, es[0]), es[1..]);
    }
  }

  /** The event half-closes a connection that is up. */
  predicate HalfCloses(s: System, e: Event)
    requires Enabled(s, e)
  {
    |Next(s, e).conn.halfCloses| > |s.conn.halfCloses| && Next(s, e).conn.state != Disconnected
  }

  /** It leaves the connection disconnecting, with nothing to write. */
  lemma HalfClosedIsDry(s: System, e: Event)
    requires Inv(s.conn) && s.conn.state != Connecting && (TaskShutdown in s.queue ==> s.conn.state != Connected)
    requires Enabled(s, e) && HalfCloses(s, e)
    ensures NothingToWrite(Next(s, e).conn) && Next(s, e).conn.state == Disconnecting
  {
    StepConserves(s, e);
  }

  /** Whoever calls, from whatever thread: when the SHUT_WR of a connection that is up goes out, it has
      overtaken a send, one whose bytes can be taken later, exactly when a message waits in the queue. */
  lemma HalfCloseOvertakes(es: seq<Event>, e: Event)
    requires Runnable(ESTABLISHED, es) && Enabled(Run(ESTABLISHED, es), e) && HalfCloses(Run(ESTABLISHED, es), e)
    ensures var s := Next(Run(ESTABLISHED, es), e);
            (exists later :: Runnable(s, later) && AllTaken(s, later) != []) <==> MessageWaits(s.queue)
  {
    var s := HalfCloseState(es, e);
    if MessageWaits(s.queue) {
      var later := TakesMore(s);
    } else {
      forall later | Runnable(s, later) ensures AllTaken(s, later) == [] {
        TakesNoMore(s, later);
      }
    }
  }

  lemma HalfCloseState(es: seq<Event>, e: Event) returns (s: System)
    requires Runnable(ESTABLISHED, es) && Enabled(Run(ESTABLISHED, es), e) && HalfCloses(Run(ESTABLISHED, es), e)
    ensures s == Next(Run(ESTABLISHED, es), e) && NothingToWrite(s.conn) && s.conn.state == Disconnecting
  {
    StreamConservation(ESTABLISHED, es);
    ShutdownComesLate(ESTABLISHED, es);
    HalfClosedIsDry(Run(ESTABLISHED, es), e);
    s := Next(Run(ESTABLISHED, es), e);
  }

  predicate BrokenPipe(e: Event) {
    match e
    case Send(_, _, w) => w == Failed(EPIPE)
    case RunTask(w) => w == Failed(EPIPE)
    case CanWrite(w) => w == Failed(EPIPE)
    case _ => true
  }

  ghost predicate NothingToWrite(c: Conn) {
    Inv(c) && (c.state == Disconnected || (c.state == Disconnecting && c.output == []))
  }

  /** With every write answered by EPIPE, as a socket closed for writing does, nothing is taken any more. */
  lemma {:induction false} RefusedAfterHalfClose(s: System, later: seq<Event>)
    requires NothingToWrite(s.conn) && Runnable(s, later) && forall i :: 0 <= i < |later| ==> BrokenPipe(later[i])
    ensures AllTaken(s, later) == [] && Run(s, later).conn.wire == s.conn.wire
    decreases |later|
  {
    if later != [] {
      RefusedAfterHalfClose(Next(s, later[0]), later[1..]);
    }
  }

  /** So an overtaken message is lost. */
  lemma OvertakenIsLost(es: seq<Event>, e: Event, later: seq<Event>)
    requires Runnable(ESTABLISHED, es) && Enabled(Run(ESTABLISHED, es), e) && HalfCloses(Run(ESTABLISHED, es), e)
    requires var s := Next(Run(ESTABLISHED, es), e);
             Runnable(s, later) && forall i :: 0 <= i < |later| ==> BrokenPipe(later[i])
    ensures var s := Next(Run(ESTABLISHED, es), e);
            AllTaken(s, later) == [] && Run(s, later).conn.wire == s.conn.wire
  {
    var s := HalfCloseState(es, e);
    RefusedAfterHalfClose(s, later);
  }

  /** It happens: a thread queues a message and then shuts the connection down;
      with one write still owed, `handleWrite` drains and half-closes at once, the queued message is
      then refused with EPIPE, and the queued `shutdownInLoop` half-closes a second time. */
  lemma OffLoopShutdownOvertakes(a: Byte, b: Byte) returns (es: seq<Event>)
    ensures Runnable(ESTABLISHED, es)
    ensures |es| == 6 && es[1] == Send(false, [b], Wrote(0)) && es[2] == Shutdown(false)
    ensures var e := Run(ESTABLISHED, es);
            e.queue == [] && e.conn.wire == [a] && e.conn.output == [] && |e.conn.halfCloses| == 2
  {
    es := [Send(true, [a], Failed(EWOULDBLOCK)), Send(false, [b], Wrote(0)), Shutdown(false)];
    var s1 := Next(ESTABLISHED, es[0]);
    assert s1.conn.output == [a] && IsWriting(s1.conn);
    var s2 := Next(s1, es[1]);
    var s3 := Next(s2, es[2]);
    var late := OvertakingEnd(s3, a, b);
    es := es + late;
    assert es[3..] == late;
    RunOne(s2, es[2..]); RunOne(s1, es[1..]); RunOne(ESTABLISHED, es);
  }

  lemma OvertakingEnd(s: System, a: Byte, b: Byte) returns (es: seq<Event>)
    requires s.queue == [TaskSend([b]), TaskShutdown] && s.conn.state == Disconnecting && IsWriting(s.conn)
    requires s.conn.output == [a] && s.conn.wire == [] && s.conn.halfCloses == []
    ensures |es| == 3 && Runnable(s, es)
    ensures var e := Run(s, es);
            e.queue == [] && e.conn.wire == [a] && e.conn.output == [] && |e.conn.halfCloses| == 2
  {
    es := [CanWrite(Wrote(1)), RunTask(Failed(EPIPE)), RunTask(Wrote(0))];
    var s4 := Next(s, es[0]);
    assert s4.conn.wire == [a] && s4.conn.output == [] && |s4.conn.halfCloses| == 1;
    var s5 := Next(s4, es[1]);
    assert s5.queue == [TaskShutdown] && s5.conn == s4.conn;
    RunOne(s5, es[2..]); RunOne(s4, es[1..]); RunOne(s, es);
  }
}

/** The connection object. `queue` is the part of the loop's functor queue that belongs to this
    connection; `wire`, `halfCloses` and the counters record what the object did to its socket and
    which callbacks it ran. */
module Connections {
  import opened Common
  import opened PollerModel
  import opened Polling
  import opened BufferModel
  import opened ByteBuffer
  import M = ConnectionModel

  class TcpConnection {
    const channel: Channel
    const poller: Poller
    const inputBuffer: Buffer
    const outputBuffer: Buffer
    var state: M.ConnState
    var queue: seq<M.Task>
    var wire: seq<Byte>
    var halfCloses: seq<M.HalfClose>
    var ups: nat
    var downs: nat
    var closes: nat
    var completions: nat
    var messages: seq<seq<Byte>>   // the input buffer at each messageCallback_ call

    /** The state the specification functions speak of. */
    ghost function View(): M.Conn
      reads this, channel, outputBuffer, outputBuffer.store
      requires outputBuffer.Valid()
    {
      M.Conn(state, Entry(channel.events, channel.index), Contents(outputBuffer.State()), wire, halfCloses,
             ups, downs, closes, completions)
    }

    ghost predicate Valid()
      reads this, channel, poller, poller.channels.Values, inputBuffer, inputBuffer.store, outputBuffer, outputBuffer.store
    {
      && poller.Accepts(channel)
      && outputBuffer.Valid() && inputBuffer.Valid()
      && inputBuffer != outputBuffer && inputBuffer.store != outputBuffer.store
    }

    constructor (channel: Channel, poller: Poller)
      requires poller.Accepts(channel) && channel.events == NONE_EVENT && channel.index == New
      ensures Valid() && View() == M.FRESH && queue == [] && this.channel == channel && this.poller == poller
      ensures fresh(outputBuffer) && fresh(outputBuffer.store) && fresh(inputBuffer) && fresh(inputBuffer.store)
    {
      this.channel := channel;
      this.poller := poller;
      inputBuffer := new Buffer(INITIAL_SIZE);
      outputBuffer := new Buffer(INITIAL_SIZE);
      state := M.Connecting;
      queue, wire, halfCloses := [], [], [];
      ups, downs, closes, completions := 0, 0, 0, 0;
      messages := [];
    }

    /** `send`: the loop thread sends at once, any other thread queues. */
    method Send(data: seq<Byte>, inLoop: bool, w: M.WriteResult)
      requires Valid() && M.Possible(w, |data|)
      modifies this, channel, poller, outputBuffer, outputBuffer.store
      ensures Valid()
      ensures M.System(View(), queue) == M.Next(M.System(old(View()), old(queue)), M.Send(inLoop, data, w))
      ensures queue == old(queue) + if old(state) == M.Connected && !inLoop then [M.TaskSend(data)] else []
    {
      if state == M.Connected {
        if inLoop {
          SendInLoop(data, w);
        } else {
          queue := queue + [M.TaskSend(data)];
        }
      }
    }

    /** `send` from a buffer, which may be the input buffer: it is emptied if its content is sent. */
    method SendBuffer(buf: Buffer, inLoop: bool, w: M.WriteResult)
      requires Valid() && buf.Valid() && buf != outputBuffer && buf.store != outputBuffer.store
      requires M.Possible(w, |Contents(buf.State())|)
      modifies this, channel, poller, outputBuffer, outputBuffer.store, buf`readerIndex, buf`writerIndex
      ensures Valid() && buf.Valid()
      ensures M.System(View(), queue) == M.Next(M.System(old(View()), old(queue)), M.Send(inLoop, old(Contents(buf.State())), w))
      ensures Contents(buf.State()) == if old(state) == M.Connected then [] else old(Contents(buf.State()))
    {
      if state == M.Connected {
        var data := buf.Peek();
        buf.Retrieve(|data|);
        Send(data, inLoop, w);
      }
    }

    /** `sendInLoop`; `w` is what `write` answers if it is called. */
    method SendInLoop(data: seq<Byte>, w: M.WriteResult)
      requires Valid() && M.Possible(w, |data|)
      modifies this, channel, poller, outputBuffer, outputBuffer.store
      ensures Valid() && queue == old(queue) && View() == M.SendInLoop(old(View()), data, w)
    {
      if state == M.Disconnected {
        return;
      }
      var waiting := outputBuffer.ReadableBytes();
      var rest := data;
      if !channel.events.write && waiting == 0 {
        rest := WriteDirectly(data, w);
      }
      if rest != [] {
        BufferRest(rest);
      }
    }

    /** The direct write of `sendInLoop`, and the bytes it leaves for the buffer. */
    method WriteDirectly(data: seq<Byte>, w: M.WriteResult) returns (rest: seq<Byte>)
      requires Valid() && M.Possible(w, |data|)
      modifies this
      ensures Valid() && queue == old(queue)
      ensures w.Wrote? ==> rest == data[w.n..]
      ensures w.Wrote? ==> View() == old(View()).(wire := old(wire) + data[..w.n],
                                                  completions := old(completions) + if rest == [] then 1 else 0)
      ensures w.Failed? ==> View() == old(View())
      ensures w.Failed? ==> rest == if w.errno == M.EPIPE || w.errno == M.ECONNRESET then [] else data
    {
      if w.Wrote? {
        wire := wire + data[..w.n];
        rest := data[w.n..];
        if rest == [] {
          completions := completions + 1;
        }
      } else {
        rest := if w.errno == M.EPIPE || w.errno == M.ECONNRESET then [] else data;
      }
    }

    /** The tail of `sendInLoop`. */
    method BufferRest(rest: seq<Byte>)
      requires Valid() && rest != []
      modifies this, channel, poller, outputBuffer, outputBuffer.store
      ensures Valid() && queue == old(queue) && View() == M.Buffered(old(View()), rest)
    {
      outputBuffer.Append(rest);
      if !channel.events.write {
        channel.EnableWriting(poller);
      }
    }

    method Shutdown(inLoop: bool)
      requires Valid()
      modifies this
      ensures Valid()
      ensures M.System(View(), queue) == M.Next(M.System(old(View()), old(queue)), M.Shutdown(inLoop))
      ensures queue == old(queue) + if old(state) == M.Connected && !inLoop then [M.TaskShutdown] else []
    {
      if state == M.Connected {
        state := M.Disconnecting;
        if inLoop {
          ShutdownInLoop();
        } else {
          queue := queue + [M.TaskShutdown];
        }
      }
    }

    method ShutdownInLoop()
      requires Valid()
      modifies this
      ensures Valid() && queue == old(queue) && View() == M.ShutdownInLoop(old(View()))
    {
      if !channel.events.write {
        halfCloses := halfCloses + [M.HalfClose(state, outputBuffer.store[outputBuffer.readerIndex..outputBuffer.writerIndex])];
      }
    }

    method ForceClose()
      requires Valid()
      modifies this
      ensures Valid()
      ensures M.System(View(), queue) == M.Next(M.System(old(View()), old(queue)), M.ForceClose)
      ensures queue == old(queue) + if old(M.Live(View())) then [M.TaskForceClose] else []
    {
      if state == M.Connected || state == M.Disconnecting {
        state := M.Disconnecting;
        queue := queue + [M.TaskForceClose];
      }
    }

    method ForceCloseInLoop()
      requires Valid()
      modifies this, channel, poller
      ensures Valid() && queue == old(queue) && View() == M.ForceCloseInLoop(old(View()))
    {
      if state == M.Connected || state == M.Disconnecting {
        HandleClose();
      }
    }

    method ConnectEstablished()
      requires Valid() && state == M.Connecting
      modifies this, channel, poller
      ensures Valid() && queue == old(queue) && View() == M.ConnectEstablished(old(View()))
    {
      state := M.Connected;
      channel.EnableReading(poller);
      ups := ups + 1;
    }

    method ConnectDestroyed()
      requires Valid() && M.Destroyable(View())
      modifies this, channel, poller
      ensures Valid() && queue == old(queue) && View() == M.ConnectDestroyed(old(View()))
      ensures state == (if old(state) == M.Connected then M.Disconnected else old(state)) && ups == old(ups) && closes == old(closes)
      ensures downs == old(downs) + (if old(state) == M.Connected then 1 else 0) && channel.events == NONE_EVENT && channel.index == New
    {
      if state == M.Connected {
        GoDown();
      }
      Remove();
    }

    /** Its first branch. */
    method GoDown()
      requires Valid() && state == M.Connected
      modifies this`state, this`downs, channel, poller
      ensures Valid()
      ensures View() == M.SetEvents(old(View()), NONE_EVENT).(state := M.Disconnected, downs := old(downs) + 1)
    {
      state := M.Disconnected;
      DisableAll();
      downs := downs + 1;
    }

    method Remove()
      requires Valid() && channel.index != New && channel.events == NONE_EVENT
      modifies channel, poller
      ensures Valid() && View() == old(View()).(channel := Entry(NONE_EVENT, New))
    {
      channel.RemoveFrom(poller);
    }

    /** `handleRead`; `incoming` is what `readv` delivers, `None` an error. */
    method HandleRead(incoming: Option<seq<Byte>>)
      requires Valid() && M.Live(View())
      requires incoming.Some? ==> |incoming.value| <= ReadCapacity(inputBuffer.State())
      modifies this, channel, poller, inputBuffer, inputBuffer.store
      ensures Valid() && queue == old(queue)
      ensures View() == M.HandleRead(old(View()), if incoming.None? then M.ReadError
                                                  else if incoming.value == [] then M.EndOfFile else M.Got(|incoming.value|))
      ensures Contents(inputBuffer.State()) == old(Contents(inputBuffer.State())) + incoming.GetOr([])
      ensures messages == old(messages) + if incoming.GetOr([]) != [] then [Contents(inputBuffer.State())] else []
    {
      var n := inputBuffer.ReadFd(incoming);
      if n > 0 {
        var seen := inputBuffer.Peek();
        messages := messages + [seen];
      } else if n == 0 {
        HandleClose();
      }
    }

    method HandleWrite(w: M.WriteResult)
      requires Valid() && M.Possible(w, |View().output|)
      modifies this, channel, poller, outputBuffer, outputBuffer.store
      ensures Valid() && queue == old(queue) && View() == M.HandleWrite(old(View()), w)
    {
      if channel.events.write {
        if w.Wrote? && w.n > 0 {
          var bytes := outputBuffer.Peek();
          wire := wire + bytes[..w.n];
          outputBuffer.Retrieve(w.n);
          var left := outputBuffer.ReadableBytes();
          if left == 0 {
            Drained();
          }
        }
      }
    }

    /** The part of `handleWrite` that runs when the buffer has become empty. */
    method Drained()
      requires Valid() && View().output == []
      modifies this, channel, poller
      ensures Valid() && queue == old(queue) && View() == M.Drained(old(View()))
    {
      channel.DisableWriting(poller);
      completions := completions + 1;
      if state == M.Disconnecting {
        ShutdownInLoop();
      }
    }

    method DisableAll()
      requires Valid()
      modifies channel, poller
      ensures Valid() && View() == M.SetEvents(old(View()), NONE_EVENT)
    {
      channel.DisableAll(poller);
    }

    method HandleClose()
      requires Valid() && M.Live(View())
      modifies this, channel, poller
      ensures Valid() && queue == old(queue) && messages == old(messages) && View() == M.HandleClose(old(View()))
    {
      state := M.Disconnected;
      DisableAll();
      CallClosed();
    }

    /** The connection callback while down, then the close callback. */
    method CallClosed()
      requires Valid()
      modifies this`downs, this`closes
      ensures Valid() && View() == old(View()).(downs := old(downs) + 1, closes := old(closes) + 1)
    {
      downs := downs + 1;
      closes := closes + 1;
    }
  }
}
