/** The functor queue of network/src/EventLoop.cc as a concurrent protocol: any number of producer
    threads and the loop thread, interleaved step by step. A step is one critical section, one
    system call on the eventfd, or one read or write of a flag. */
module LoopProtocol {
  import opened Common

  type Task = int
  type ThreadId = nat

  /** Where the loop thread is in `loop()`: at the test of `quit_`, inside `epoll_wait`, handling
      active channels (`wakeup` says whether the eventfd is among those still to be handled),
      in `doPendingFunctors` before and after the swap, or out of the loop. */
  datatype Pc = Testing | Polling | Handling(wakeup: bool) | Swapping | Running | Stopped

  datatype Loop = Loop(
    pc: Pc,
    quit: bool,
    calling: bool,             // callingPendingFunctors_
    iteration: nat,            // iteration_
    pending: seq<Task>,        // pendingFunctors_
    batch: seq<Task>,          // what doPendingFunctors has swapped out and not run yet
    eventfd: nat,              // the eventfd's counter
    owing: set<ThreadId>,      // threads between queueing (or quitting) and their wakeup
    selfOwing: bool,           // the loop thread between queueing and its own wakeup
    pushed: seq<Task>,         // every functor ever queued, in the order the lock was taken
    executed: seq<Task>)       // every functor run, in order

  datatype Action =
    | Push(thread: ThreadId, task: Task)    // queueInLoop from another thread: the critical section
    | Quit(thread: ThreadId)                // quit() from another thread: the store
    | Wake(thread: ThreadId)                // ... and its wakeup()
    | SelfPush(task: Task)                  // queueInLoop from code the loop thread is running
    | SelfWake                              // ... and its wakeup(), when callingPendingFunctors_
    | SelfQuit
    | Test                                  // while (!quit_)
    | PollReturns(wakeup: bool)             // epoll_wait: events, a timeout, or EINTR
    | ReadEventfd                           // handleRead
    | Drain                                 // callingPendingFunctors_ = true
    | Swap                                  // functors.swap(pendingFunctors_)
    | Execute                               // functor()
    | EndDrain                              // callingPendingFunctors_ = false

  predicate UserCode(s: Loop) {
    (s.pc.Handling? || s.pc.Running?) && !s.selfOwing
  }

  predicate Enabled(s: Loop, a: Action) {
    match a
    case Push(t, _) => t !in s.owing
    case Quit(t) => t !in s.owing
    case Wake(t) => t in s.owing
    case SelfPush(_) => UserCode(s)
    case SelfWake => s.selfOwing
    case SelfQuit => UserCode(s)
    case Test => s.pc == Testing
    case PollReturns(wakeup) => s.pc == Polling && (wakeup ==> s.eventfd > 0)
    case ReadEventfd => s.pc == Handling(true)
    case Drain => s.pc == Handling(false)
    case Swap => s.pc == Swapping
    case Execute => s.pc == Running && !s.selfOwing && s.batch != []
    case EndDrain => s.pc == Running && !s.selfOwing && s.batch == []
  }

  function Next(s: Loop, a: Action): Loop
    requires Enabled(s, a)
  {
    match a
    case Push(t, task) => s.(pending := s.pending + [task], pushed := s.pushed + [task], owing := s.owing + {t})
    case Quit(t) => s.(quit := true, owing := s.owing + {t})
    case Wake(t) => s.(eventfd := s.eventfd + 1, owing := s.owing - {t})
    case SelfPush(task) => s.(pending := s.pending + [task], pushed := s.pushed + [task], selfOwing := s.calling)
    case SelfWake => s.(eventfd := s.eventfd + 1, selfOwing := false)
    case SelfQuit => s.(quit := true)
    case Test => s.(pc := if s.quit then Stopped else Polling)
    case PollReturns(wakeup) => s.(pc := Handling(wakeup), iteration := s.iteration + 1)
    case ReadEventfd => s.(pc := Handling(false), eventfd := 0)
    case Drain => s.(pc := Swapping, calling := true)
    case Swap => s.(pc := Running, batch := s.pending, pending := [])
    case Execute => s.(batch := s.batch[1..], executed := s.executed + [s.batch[0]])
    case EndDrain => s.(pc := Testing, calling := false)
  }

  /** `loop()` has just been entered. */
  const START := Loop(Testing, false, false, 0, [], [], 0, {}, false, [], [])

  ghost predicate Runnable(s: Loop, acts: seq<Action>)
    decreases |acts|
  {
    acts == [] || (Enabled(s, acts[0]) && Runnable(Next(s, acts[0]), acts[1..]))
  }

  ghost function Run(s: Loop, acts: seq<Action>): Loop
    requires Runnable(s, acts)
    decreases |acts|
  {
    if acts == [] then s else Run(Next(s, acts[0]), acts[1..])
  }

  lemma {:induction false} RunSnoc(s: Loop, acts: seq<Action>, a: Action)
    requires Runnable(s, acts) && Enabled(Run(s, acts), a)
    ensures Runnable(s, acts + [a]) && Run(s, acts + [a]) == Next(Run(s, acts), a)
    decreases |acts|
  {
    if acts == [] {
      assert Runnable(Next(s, a), [a][1..]) && Run(Next(s, a), [a][1..]) == Next(s, a);
    } else {
      assert (acts + [a])[1..] == acts[1..] + [a];
      RunSnoc(Next(s, acts[0]), acts[1..], a);
    }
  }

  // ---------------------------------------------------------------- invariants

  /** Some step is on its way that will make the eventfd readable. */
  predicate WakeupDue(s: Loop) {
    s.eventfd > 0 || s.owing != {} || s.selfOwing
  }

  ghost predicate Inv(s: Loop) {
    // nothing queued is lost, duplicated or reordered
    && s.pushed == s.executed + s.batch + s.pending
    && (s.batch != [] ==> s.pc == Running)
    && (s.calling <==> s.pc == Swapping || s.pc == Running)
    && (s.selfOwing ==> s.pc == Running)
    // work waits only where the swap is still ahead or a wakeup is due
    && (s.pending != [] ==> WakeupDue(s) || s.pc.Handling? || s.pc == Swapping)
    // a quit is noticed likewise
    && (s.quit && s.pc == Polling ==> WakeupDue(s))
  }

  lemma {:induction false} StepKeepsInv(s: Loop, a: Action)
    requires Inv(s) && Enabled(s, a)
    ensures Inv(Next(s, a))
    ensures s.pushed <= Next(s, a).pushed && s.executed <= Next(s, a).executed
  {
    match a
    case Push(t, task) => assert t in Next(s, a).owing;
    case Quit(t) => assert t in Next(s, a).owing;
    case _ =>
  }

  /** No lost wakeup, and exactly-once first-in-first-out execution, in every interleaving: the
      functors run so far are a prefix of those queued, with the running batch and the queue making
      up the rest; and when the loop sits in `epoll_wait` with work pending, or after a quit, the
      eventfd is readable or some producer has yet to write it. */
  lemma {:induction false} EveryRun(s: Loop, acts: seq<Action>)
    requires Inv(s) && Runnable(s, acts)
    ensures var e := Run(s, acts);
            Inv(e) && e.pushed == e.executed + e.batch + e.pending && s.pushed <= e.pushed && s.executed <= e.executed
            && (e.pc == Polling && (e.pending != [] || e.quit) ==> e.eventfd > 0 || e.owing != {})
    decreases |acts|
  {
    if acts != [] {
      StepKeepsInv(s, acts[0]);
      EveryRun(Next(s, acts[0]), acts[1..]);
    }
  }

  // ---------------------------------------------------------------- the eventfd and the flags

  /** How often the eventfd has been written since it was last read. */
  function Unread(before: nat, acts: seq<Action>): nat {
    if acts == [] then before
    else match acts[|acts| - 1]
      case ReadEventfd => 0
      case Wake(_) => Unread(before, acts[..|acts| - 1]) + 1
      case SelfWake => Unread(before, acts[..|acts| - 1]) + 1
      case _ => Unread(before, acts[..|acts| - 1])
  }

  predicate Quits(a: Action) { a.Quit? || a.SelfQuit? }

  /** Over every run the counter says just that, so that one read quiets the poller until the next wakeup; and
      the loop has been asked to quit exactly when somebody did. */
  lemma {:induction false} FlagsSay(s: Loop, acts: seq<Action>)
    requires Runnable(s, acts)
    ensures Run(s, acts).eventfd == Unread(s.eventfd, acts)
    ensures Run(s, acts).quit <==> s.quit || exists i :: 0 <= i < |acts| && Quits(acts[i])
    decreases |acts|
  {
    if acts != [] {
      var most, last := acts[..|acts| - 1], acts[|acts| - 1];
      assert acts == most + [last];
      RunSplits(s, most, last);
      FlagsSay(s, most);
      UnreadSnoc(s.eventfd, most, last);
      QuitsSnoc(most, last);
      FlagsMove(Run(s, most), last);
    }
  }

  /** What one step does to them. */
  lemma {:induction false} FlagsMove(s: Loop, a: Action)
    requires Enabled(s, a)
    ensures Next(s, a).eventfd == Unread(s.eventfd, [a]) && (Next(s, a).quit <==> s.quit || Quits(a))
  {
    assert [a][..0] == [];
  }

  lemma {:induction false} UnreadSnoc(before: nat, acts: seq<Action>, a: Action)
    ensures Unread(before, acts + [a]) == Unread(Unread(before, acts), [a])
  {
    assert (acts + [a])[..|acts|] == acts && [a][..0] == [];
  }

  lemma {:induction false} QuitsSnoc(acts: seq<Action>, a: Action)
    ensures (exists i :: 0 <= i < |acts + [a]| && Quits((acts + [a])[i])) <==> Quits(a) || exists i :: 0 <= i < |acts| && Quits(acts[i])
  {
    var all := acts + [a];
    if Quits(a) {
      assert Quits(all[|acts|]);
    }
    if i :| 0 <= i < |acts| && Quits(acts[i]) {
      assert Quits(all[i]);
    }
  }

  lemma {:induction false} RunSplits(s: Loop, acts: seq<Action>, a: Action)
    requires Runnable(s, acts + [a])
    ensures Runnable(s, acts) && Enabled(Run(s, acts), a) && Run(s, acts + [a]) == Next(Run(s, acts), a)
    decreases |acts|
  {
    if acts == [] {
      assert ([] + [a])[1..] == [] && ([] + [a])[0] == a;
    } else {
      assert (acts + [a])[1..] == acts[1..] + [a] && (acts + [a])[0] == acts[0];
      RunSplits(Next(s, acts[0]), acts[1..], a);
    }
  }

  /** The loop leaves exactly at a test after a quit. */
  lemma {:induction false} StopsAfterQuit(s: Loop, a: Action)
    requires Enabled(s, a) && s.pc != Stopped
    ensures Next(s, a).pc == Stopped <==> a == Test && s.quit
    ensures a == Test && !s.quit ==> Next(s, a).pc == Polling
  {
  }

  // ---------------------------------------------------------------- progress

  /** How far everything queued at state `s0`, in which the loop was polling, has come by `s`. */
  ghost predicate OnItsWay(s0: Loop, s: Loop) {
    && s0.iteration <= s.iteration
    && s0.pushed <= s.pushed
    && (s.iteration == s0.iteration ==> s.pc == Polling)
    && (s.iteration > s0.iteration ==>
          match s.pc
          case Handling(_) => true
          case Swapping => true
          case Running => s0.pushed <= s.executed + s.batch
          case _ => s0.pushed <= s.executed || s.iteration > s0.iteration + 1)
    && (s.iteration > s0.iteration + 1 ==> s0.pushed <= s.executed)
  }

  lemma {:induction false} StepMovesOn(s0: Loop, s: Loop, a: Action)
    requires s0.pc == Polling && Inv(s) && Enabled(s, a) && OnItsWay(s0, s)
    ensures OnItsWay(s0, Next(s, a))
  {
    match a
    case Swap =>
      assert s.pushed == s.executed + s.pending;
    case EndDrain =>
      assert s.executed + s.batch == s.executed;
    case Execute =>
      assert s.executed + s.batch == (s.executed + [s.batch[0]]) + s.batch[1..];
    case _ =>
  }

  /** Whatever is in the queue when the loop polls has been executed by the time the loop is back
      at its test, at the latest: one iteration drains it, whatever the producers do meanwhile. */
  lemma {:induction false} OneIterationDrains(s0: Loop, s: Loop, acts: seq<Action>)
    requires s0.pc == Polling && Inv(s) && OnItsWay(s0, s) && Runnable(s, acts)
    ensures var e := Run(s, acts);
            OnItsWay(s0, e)
            && (e.iteration > s0.iteration && (e.pc == Testing || e.pc == Polling || e.pc == Stopped) ==> s0.pushed <= e.executed)
    decreases |acts|
  {
    if acts != [] {
      StepKeepsInv(s, acts[0]);
      StepMovesOn(s0, s, acts[0]);
      OneIterationDrains(s0, Next(s, acts[0]), acts[1..]);
    }
  }

  /** The loop never waits for good with work pending: in any reachable polling state with a
      nonempty queue, letting one owing producer finish (if the eventfd is not readable yet) makes
      `epoll_wait` return with the wakeup event. */
  lemma PendingWorkWakesTheLoop(s: Loop) returns (acts: seq<Action>)
    requires Inv(s) && s.pc == Polling && s.pending != []
    ensures |acts| <= 2 && Runnable(s, acts) && Run(s, acts).pc == Handling(true)
    ensures forall a :: a in acts ==> a.Wake? || a == PollReturns(true)
  {
    if s.eventfd > 0 {
      acts := [PollReturns(true)];
      assert Run(Next(s, acts[0]), acts[1..]) == Next(s, acts[0]);
    } else {
      var t :| t in s.owing;
      acts := [Wake(t), PollReturns(true)];
      var s1 := Next(s, acts[0]);
      assert acts[1..] == [PollReturns(true)];
      assert Run(Next(s1, acts[1]), acts[1..][1..]) == Next(s1, acts[1]);
    }
  }

  /** The loop waits with work pending and nothing to wake it. */
  predicate Stuck(s: Loop) { s.pc == Polling && s.pending != [] && !WakeupDue(s) }

  /** `loop()` entered with functors already queued: `queueInLoop` on the loop thread before that writes no
      eventfd, on another thread it does or is about to. */
  function Entered(pending: seq<Task>, eventfd: nat, owing: set<ThreadId>): Loop {
    START.(pending := pending, pushed := pending, eventfd := eventfd, owing := owing)
  }

  ghost predicate NeverStuck(s: Loop) { forall acts :: Runnable(s, acts) ==> !Stuck(Run(s, acts)) }

  /** It gets stuck in no run exactly when nothing is queued or a wakeup is due. */
  lemma QueuedBeforeLoop(pending: seq<Task>, eventfd: nat, owing: set<ThreadId>)
    ensures NeverStuck(Entered(pending, eventfd, owing)) <==> pending == [] || eventfd > 0 || owing != {}
  {
    var s := Entered(pending, eventfd, owing);
    if pending == [] || WakeupDue(s) {
      forall acts | Runnable(s, acts) ensures !Stuck(Run(s, acts)) {
        EveryRun(s, acts);
      }
    } else {
      var acts := [Test];
      assert acts[1..] == [] && Run(Next(s, Test), acts[1..]) == Next(s, Test);
      assert Runnable(s, acts) && Stuck(Run(s, acts));
    }
  }
}

/** The event loop object. `s` is the protocol state its fields belong to and `trace` the steps that
    led there, so everything proved of runs of the protocol holds of the object. */
module Reactor {
  import opened Common
  import opened LoopProtocol

  class EventLoop {
    var quit: bool
    var callingPendingFunctors: bool
    var iteration: nat
    var pendingFunctors: seq<Task>
    var eventfd: nat
    var owing: set<ThreadId>   // the threads that have queued and not yet written the eventfd
    ghost var s: Loop
    ghost var trace: seq<Action>

    ghost predicate Valid()
      reads this
    {
      && Runnable(START, trace) && s == Run(START, trace)
      && s.quit == quit && s.calling == callingPendingFunctors && s.iteration == iteration
      && s.pending == pendingFunctors && s.eventfd == eventfd && s.owing == owing
    }

    constructor ()
      ensures Valid() && s == START && trace == []
    {
      quit := false;
      callingPendingFunctors := false;
      iteration := 0;
      pendingFunctors := [];
      eventfd := 0;
      owing := {};
      s := START;
      trace := [];
    }

    /** Advances the protocol state alongside the fields. */
    ghost method Step(a: Action)
      requires Runnable(START, trace) && s == Run(START, trace) && Enabled(s, a)
      modifies this`s, this`trace
      ensures Runnable(START, trace) && s == Run(START, trace)
      ensures s == Next(old(s), a) && trace == old(trace) + [a]
    {
      RunSnoc(START, trace, a);
      s, trace := Next(s, a), trace + [a];
    }

    /** The critical section of `queueInLoop`, entered by a thread other than the loop's, or by the
        loop thread when `caller` is `None`. */
    method Enqueue(cb: Task, caller: Option<ThreadId>)
      requires Valid() && (if caller.None? then UserCode(s) else caller.value !in s.owing)
      modifies this
      ensures Valid() && s == Next(old(s), if caller.None? then SelfPush(cb) else Push(caller.value, cb))
    {
      pendingFunctors := pendingFunctors + [cb];
      if caller.Some? {
        owing := owing + {caller.value};
      }
      Step(if caller.None? then SelfPush(cb) else Push(caller.value, cb));
    }

    method Wakeup(caller: Option<ThreadId>)
      requires Valid() && (if caller.None? then s.selfOwing else caller.value in s.owing)
      modifies this
      ensures Valid() && s == Next(old(s), if caller.None? then SelfWake else Wake(caller.value))
    {
      eventfd := eventfd + 1;
      if caller.Some? {
        owing := owing - {caller.value};
      }
      Step(if caller.None? then SelfWake else Wake(caller.value));
    }

    /** `queueInLoop`: the functor is last in the queue, and the caller owes nothing afterwards. */
    method QueueInLoop(cb: Task, caller: Option<ThreadId>)
      requires Valid() && (if caller.None? then UserCode(s) else caller.value !in s.owing)
      modifies this
      ensures Valid() && pendingFunctors == old(pendingFunctors) + [cb]
      ensures s.owing == old(s.owing) && s.selfOwing == old(s.selfOwing) && s.pushed == old(s.pushed) + [cb]
      ensures s.pc == old(s.pc) && s.batch == old(s.batch) && s.executed == old(s.executed) && s.quit == old(s.quit)
      ensures eventfd == old(eventfd) + if caller.Some? || callingPendingFunctors then 1 else 0
    {
      Enqueue(cb, caller);
      if caller.Some? || callingPendingFunctors {
        Wakeup(caller);
      }
    }

    /** `runInLoop`: the loop thread runs the functor at once, any other thread queues it. */
    method RunInLoop(cb: Task, caller: Option<ThreadId>) returns (ran: bool)
      requires Valid() && (if caller.None? then UserCode(s) else caller.value !in s.owing)
      modifies this
      ensures Valid() && (ran <==> caller.None?)
      ensures ran ==> s == old(s)
      ensures !ran ==> pendingFunctors == old(pendingFunctors) + [cb] && eventfd == old(eventfd) + 1
    {
      ran := caller.None?;
      if !ran {
        QueueInLoop(cb, caller);
      }
    }

    method HandleRead()
      requires Valid() && s.pc == Handling(true)
      modifies this
      ensures Valid() && s == Next(old(s), ReadEventfd) && eventfd == 0
    {
      eventfd := 0;
      Step(ReadEventfd);
    }

    /** `doPendingFunctors`. Running a functor makes it queue `queues(task)` from the loop thread,
        and meanwhile other threads make the calls `arrivals(task)`. Exactly the functors queued
        before the call run, each once and in order; what is queued meanwhile stays queued, in order,
        with a readable eventfd behind it or a wakeup that some thread owed before the call and owes still. */
    method DoPendingFunctors(queues: Task -> seq<Task>, arrivals: Task -> seq<(ThreadId, Task)>)
      requires Valid() && s.pc == Handling(false)
      modifies this
      ensures Valid() && s.pc == Testing && owing <= old(owing) && s.batch == []
      ensures s.executed == old(s.executed) + old(pendingFunctors)
      ensures pendingFunctors == Concat(Meanwhile(old(pendingFunctors), queues, arrivals))
      ensures pendingFunctors != [] ==> eventfd > 0 || owing != {}
    {
      EveryRun(START, trace);
      callingPendingFunctors := true;
      Step(Drain);
      var functors := pendingFunctors;
      pendingFunctors := [];
      Step(Swap);
      CallFunctors(functors, queues, arrivals);
      callingPendingFunctors := false;
      Step(EndDrain);
      EveryRun(START, trace);
    }

    method CallFunctors(functors: seq<Task>, queues: Task -> seq<Task>, arrivals: Task -> seq<(ThreadId, Task)>)
      requires Draining(owing) && s.batch == functors && pendingFunctors == []
      modifies this
      ensures Draining(old(owing)) && s.batch == [] && s.executed == old(s.executed) + functors
      ensures pendingFunctors == Concat(Meanwhile(functors, queues, arrivals))
    {
      for i := 0 to |functors|
        invariant Draining(old(owing)) && s.batch == functors[i..] && s.executed == old(s.executed) + functors[..i]
        invariant pendingFunctors == Concat(Meanwhile(functors[..i], queues, arrivals))
      {
        assert functors[..i + 1] == functors[..i] + [functors[i]];
        MeanwhileSnoc(functors[..i], functors[i], queues, arrivals);
        CallFunctor(functors[i], queues(functors[i]), arrivals(functors[i]));
      }
      assert functors[..|functors|] == functors;
    }

    /** Functors are being run, and of the other threads only these may owe a wakeup. */
    ghost predicate Draining(most: set<ThreadId>)
      reads this
    {
      Valid() && s.pc == Running && !s.selfOwing && owing <= most
    }

    /** `functor()`, with what the functor and the other threads queue while it runs. */
    method CallFunctor(functor: Task, queues: seq<Task>, arrivals: seq<(ThreadId, Task)>)
      requires Draining(owing) && s.batch != [] && s.batch[0] == functor
      modifies this
      ensures Draining(old(owing)) && s.batch == old(s.batch)[1..] && s.executed == old(s.executed) + [functor]
      ensures pendingFunctors == old(pendingFunctors) + (queues + Tasks(arrivals))
    {
      Step(Execute);
      QueueAll(queues);
      Arrive(arrivals);
    }

    /** The loop thread's own `queueInLoop` calls from inside a functor. */
    method QueueAll(cbs: seq<Task>)
      requires Draining(owing)
      modifies this
      ensures Draining(old(owing))
      ensures pendingFunctors == old(pendingFunctors) + cbs
      ensures s.batch == old(s.batch) && s.executed == old(s.executed)
    {
      for i := 0 to |cbs|
        invariant Draining(old(owing))
        invariant pendingFunctors == old(pendingFunctors) + cbs[..i]
        invariant s.batch == old(s.batch) && s.executed == old(s.executed)
      {
        assert cbs[..i + 1] == cbs[..i] + [cbs[i]];
        QueueInLoop(cbs[i], None);
      }
      assert cbs[..|cbs|] == cbs;
    }

    /** Other threads' `queueInLoop` calls; a thread writes the eventfd that it owes before its next call. */
    method Arrive(calls: seq<(ThreadId, Task)>)
      requires Draining(owing)
      modifies this
      ensures Draining(old(owing))
      ensures pendingFunctors == old(pendingFunctors) + Tasks(calls)
      ensures s.batch == old(s.batch) && s.executed == old(s.executed)
    {
      for i := 0 to |calls|
        invariant Draining(old(owing))
        invariant pendingFunctors == old(pendingFunctors) + Tasks(calls[..i])
        invariant s.batch == old(s.batch) && s.executed == old(s.executed)
      {
        assert calls[..i + 1] == calls[..i] + [calls[i]];
        if calls[i].0 in owing {
          Wakeup(Some(calls[i].0));
        }
        QueueInLoop(calls[i].1, Some(calls[i].0));
      }
      assert calls[..|calls|] == calls;
    }
  }

  function Tasks(calls: seq<(ThreadId, Task)>): seq<Task> {
    seq(|calls|, i requires 0 <= i < |calls| => calls[i].1)
  }

  /** What is queued while each functor runs. */
  ghost function Meanwhile(functors: seq<Task>, queues: Task -> seq<Task>, arrivals: Task -> seq<(ThreadId, Task)>): seq<seq<Task>> {
    seq(|functors|, i requires 0 <= i < |functors| => queues(functors[i]) + Tasks(arrivals(functors[i])))
  }

  lemma MeanwhileSnoc(functors: seq<Task>, last: Task, queues: Task -> seq<Task>, arrivals: Task -> seq<(ThreadId, Task)>)
    ensures Concat(Meanwhile(functors + [last], queues, arrivals))
         == Concat(Meanwhile(functors, queues, arrivals)) + (queues(last) + Tasks(arrivals(last)))
  {
    var more := queues(last) + Tasks(arrivals(last));
    assert Meanwhile(functors + [last], queues, arrivals) == Meanwhile(functors, queues, arrivals) + [more];
    ConcatSnoc(Meanwhile(functors, queues, arrivals), more);
  }
}
