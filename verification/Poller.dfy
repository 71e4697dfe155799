/** The interest table of network/src/Poller.cc as a value: which channels the poller knows, what
    it last told the kernel about each, and the kernel's own table. */
module PollerModel {
  import opened Common

  /** `events_`: only `ReadEvent` (EPOLLIN) and `WriteEvent` (EPOLLOUT) are ever set. */
  datatype Mask = Mask(read: bool, write: bool)

  const NONE_EVENT := Mask(false, false)

  /** `revents_`, as the bits `handleEvent` looks at. */
  datatype Revents = Revents(pollin: bool, pri: bool, rdhup: bool, pollout: bool, err: bool, nval: bool, hup: bool)

  /** What `epoll_wait` may report for an interest mask: requested events, and ERR and HUP, which
      are always reported. */
  predicate Reportable(r: Revents, m: Mask) {
    (r.pollin ==> m.read) && (r.pollout ==> m.write) && !r.pri && !r.rdhup && !r.nval
  }

  datatype Callback = CloseCallback | ReadCallback | WriteCallback | ErrorCallback

  /** The order in which `handleEvent` runs the callbacks. */
  function Dispatch(r: Revents): seq<Callback> {
    (if r.hup && !r.pollin then [CloseCallback] else [])
    + (if r.pollin || r.pri || r.rdhup then [ReadCallback] else [])
    + (if r.pollout then [WriteCallback] else [])
    + (if r.err || r.nval then [ErrorCallback] else [])
  }

  /** With what the kernel can report, one dispatch never both closes and reads, so a connection is
      not closed twice by it; and whatever closes it comes before any write or error callback. */
  lemma CloseOrReadOnce(r: Revents, m: Mask)
    requires Reportable(r, m)
    ensures !(CloseCallback in Dispatch(r) && ReadCallback in Dispatch(r))
    ensures forall i :: 0 < i < |Dispatch(r)| ==> Dispatch(r)[i] == WriteCallback || Dispatch(r)[i] == ErrorCallback
    ensures forall i, j :: 0 <= i < j < |Dispatch(r)| ==> Dispatch(r)[i] != Dispatch(r)[j]
  {
  }

  /** Which bits run which callback, in which order: close, read, write, error. */
  ghost predicate Dispatched(r: Revents, ran: seq<Callback>) {
    && (CloseCallback in ran <==> r.hup && !r.pollin)
    && (ReadCallback in ran <==> r.pollin || r.pri || r.rdhup)
    && (WriteCallback in ran <==> r.pollout)
    && (ErrorCallback in ran <==> r.err || r.nval)
    && Ranked(ran)
  }

  predicate Ranked(ran: seq<Callback>) { forall i, j :: 0 <= i < j < |ran| ==> Rank(ran[i]) < Rank(ran[j]) }

  function Rank(cb: Callback): nat {
    match cb
    case CloseCallback => 0
    case ReadCallback => 1
    case WriteCallback => 2
    case ErrorCallback => 3
  }

  lemma {:induction false} JoinRanked(a: seq<Callback>, b: seq<Callback>, k: nat)
    requires Ranked(a) && Ranked(b) && (forall cb :: cb in a ==> Rank(cb) < k) && forall cb :: cb in b ==> Rank(cb) >= k
    ensures Ranked(a + b) && forall cb :: cb in a + b <==> cb in a || cb in b
  {
    forall i, j | 0 <= i < j < |a + b| ensures Rank((a + b)[i]) < Rank((a + b)[j]) {
      assert i < |a| ==> a[i] in a;
      assert j >= |a| ==> b[j - |a|] in b;
    }
  }

  lemma {:induction false} DispatchMeans(r: Revents)
    ensures Dispatched(r, Dispatch(r))
  {
    var close := Single(r.hup && !r.pollin, CloseCallback);
    var read := Single(r.pollin || r.pri || r.rdhup, ReadCallback);
    var write := Single(r.pollout, WriteCallback);
    var error := Single(r.err || r.nval, ErrorCallback);
    assert Dispatch(r) == close + read + write + error;
    JoinFour(close, read, write, error, r);
  }

  lemma {:induction false} Single(runs: bool, cb: Callback) returns (ran: seq<Callback>)
    ensures ran == (if runs then [cb] else []) && Ranked(ran) && forall x :: x in ran <==> runs && x == cb
  {
    ran := if runs then [cb] else [];
  }

  lemma {:induction false} JoinFour(close: seq<Callback>, read: seq<Callback>, write: seq<Callback>, error: seq<Callback>, r: Revents)
    requires Ranked(close) && forall x :: x in close <==> (r.hup && !r.pollin) && x == CloseCallback
    requires Ranked(read) && forall x :: x in read <==> (r.pollin || r.pri || r.rdhup) && x == ReadCallback
    requires Ranked(write) && forall x :: x in write <==> r.pollout && x == WriteCallback
    requires Ranked(error) && forall x :: x in error <==> (r.err || r.nval) && x == ErrorCallback
    ensures Dispatched(r, close + read + write + error)
  {
    JoinRanked(close, read, 1);
    JoinRanked(close + read, write, 2);
    JoinRanked(close + read + write, error, 3);
  }

  /** No other list of callbacks fits the bits. */
  lemma {:induction false} DispatchOnly(r: Revents, ran: seq<Callback>)
    requires Dispatched(r, ran)
    ensures ran == Dispatch(r)
  {
    DispatchMeans(r);
    forall cb ensures cb in ran <==> cb in Dispatch(r) {
      match cb
      case CloseCallback =>
      case ReadCallback =>
      case WriteCallback =>
      case ErrorCallback =>
    }
    SameRanked(ran, Dispatch(r));
  }

  lemma {:induction false} SameRanked(a: seq<Callback>, b: seq<Callback>)
    requires Ranked(a) && Ranked(b) && forall cb :: cb in a <==> cb in b
    ensures a == b
    decreases |a|
  {
    if a == [] {
      if b != [] {
        SomeIn(b);
      }
    } else {
      assert a[0] in a && a[0] in b;
      assert b[0] in b && b[0] in a;
      FirstLowest(a, b[0]);
      FirstLowest(b, a[0]);
      assert Rank(a[0]) == Rank(b[0]);
      forall cb ensures cb in a[1..] <==> cb in b[1..] {
        Behind(a, cb);
        Behind(b, cb);
      }
      SameRanked(a[1..], b[1..]);
    }
  }

  lemma {:induction false} FirstLowest(a: seq<Callback>, cb: Callback)
    requires Ranked(a) && cb in a
    ensures Rank(a[0]) <= Rank(cb)
  {
    var i :| 0 <= i < |a| && a[i] == cb;
  }

  lemma {:induction false} Behind(a: seq<Callback>, cb: Callback)
    requires Ranked(a) && a != []
    ensures cb in a[1..] <==> cb in a && cb != a[0]
  {
    assert a == [a[0]] + a[1..];
    FirstOnce(a);
  }

  lemma {:induction false} FirstOnce(a: seq<Callback>)
    requires Ranked(a) && a != []
    ensures a[0] !in a[1..]
  {
    forall i | 0 <= i < |a[1..]| ensures a[1..][i] != a[0] {
      assert Rank(a[0]) < Rank(a[i + 1]);
    }
  }

  lemma {:induction false} SomeIn(a: seq<Callback>)
    requires a != []
    ensures exists cb :: cb in a
  {
    assert a[0] in a;
  }

  // ---------------------------------------------------------------- the kernel's side

  datatype Ctl = Add(fd: int, mask: Mask) | Mod(fd: int, mask: Mask) | Del(fd: int)

  type Table = map<int, Mask>

  /** `epoll_ctl`: `None` is EEXIST for ADD, ENOENT for MOD and DEL. */
  function Control(t: Table, c: Ctl): Option<Table> {
    match c
    case Add(fd, mask) => if fd in t then None else Some(t[fd := mask])
    case Mod(fd, mask) => if fd in t then Some(t[fd := mask]) else None
    case Del(fd) => if fd in t then Some(t - {fd}) else None
  }

  /** The table after a list of calls; `None` when one of them was refused. */
  function ControlAll(t: Table, cs: seq<Ctl>): Option<Table>
    decreases |cs|
  {
    if cs == [] then Some(t)
    else
      var next := Control(t, cs[0]);
      if next.None? then None else ControlAll(next.value, cs[1..])
  }

  lemma ControlAllCons(t: Table, c: Ctl, cs: seq<Ctl>)
    requires Control(t, c).Some?
    ensures ControlAll(t, [c] + cs) == ControlAll(Control(t, c).value, cs)
  {
    assert ([c] + cs)[1..] == cs;
  }

  // ---------------------------------------------------------------- the poller's side

  datatype Index = New | Added | Deleted

  datatype Entry = Entry(events: Mask, index: Index)

  /** `channels_`, with each channel's mask and index. */
  type Entries = map<int, Entry>

  /** The index after `Poller::updateChannel`: an added channel whose mask became empty is deleted,
      any other channel is (still or again) added. */
  function IndexAfter(index: Index, events: Mask): Index {
    if index == Added && events == NONE_EVENT then Deleted else Added
  }

  /** Mask edit followed by `Poller::updateChannel`. */
  function Update(es: Entries, fd: int, events: Mask): Entries {
    es[fd := Entry(events, IndexAfter(if fd in es then es[fd].index else New, events))]
  }

  /** The `epoll_ctl` call it makes. */
  function UpdateCall(es: Entries, fd: int, events: Mask): Ctl {
    if fd !in es || es[fd].index != Added then Add(fd, events)
    else if events == NONE_EVENT then Del(fd)
    else Mod(fd, events)
  }

  /** What `Channel::remove` and `Poller::removeChannel` assert: the channel is known and its mask
      is empty. */
  predicate Removable(es: Entries, fd: int) {
    fd in es && es[fd].events == NONE_EVENT
  }

  function Remove(es: Entries, fd: int): Entries {
    es - {fd}
  }

  /** The masks of the channels whose index is `kAdded`. */
  function Interest(es: Entries): Table {
    map fd | fd in es && es[fd].index == Added :: es[fd].events
  }

  /** No known channel is `kNew`, and a `kDeleted` one has an empty mask. */
  ghost predicate Coherent(es: Entries) {
    && (forall fd :: fd in es ==> es[fd].index != New)
    && (forall fd :: fd in es && es[fd].index == Deleted ==> es[fd].events == NONE_EVENT)
  }

  /** An update's call is accepted by a kernel that holds the added masks, and leaves it so. */
  lemma UpdateAccepted(es: Entries, fd: int, events: Mask)
    requires Coherent(es)
    ensures Coherent(Update(es, fd, events))
    ensures Control(Interest(es), UpdateCall(es, fd, events)) == Some(Interest(Update(es, fd, events)))
  {
    var t := Control(Interest(es), UpdateCall(es, fd, events)).value;
    assert t == Interest(Update(es, fd, events));
  }

  lemma RemoveAccepted(es: Entries, fd: int)
    requires Coherent(es) && Removable(es, fd)
    ensures Coherent(Remove(es, fd)) && Interest(Remove(es, fd)) == Interest(es) - {fd}
    ensures es[fd].index == Added ==> Control(Interest(es), Del(fd)) == Some(Interest(Remove(es, fd)))
    ensures es[fd].index != Added ==> Interest(Remove(es, fd)) == Interest(es)
  {
    assert Interest(Remove(es, fd)) == Interest(es) - {fd};
  }

  // ---------------------------------------------------------------- whole runs

  datatype Op = OpUpdate(fd: int, events: Mask) | OpRemove(fd: int)

  ghost predicate Runnable(es: Entries, ops: seq<Op>)
    decreases |ops|
  {
    ops == [] ||
    match ops[0]
    case OpUpdate(fd, events) => Runnable(Update(es, fd, events), ops[1..])
    case OpRemove(fd) => Removable(es, fd) && Runnable(Remove(es, fd), ops[1..])
  }

  /** The poller's data after a run, and all the `epoll_ctl` calls the run made. */
  ghost function Run(es: Entries, ops: seq<Op>): (Entries, seq<Ctl>)
    requires Runnable(es, ops)
    decreases |ops|
  {
    if ops == [] then (es, [])
    else match ops[0]
      case OpUpdate(fd, events) =>
        var (end, calls) := Run(Update(es, fd, events), ops[1..]);
        (end, [UpdateCall(es, fd, events)] + calls)
      case OpRemove(fd) =>
        var (end, calls) := Run(Remove(es, fd), ops[1..]);
        (end, if es[fd].index == Added then [Del(fd)] + calls else calls)
  }

  /** What the callers asked for last, descriptor by descriptor: the mask most recently set on a
      channel not removed since. */
  ghost function Requested(before: map<int, Mask>, ops: seq<Op>): map<int, Mask>
    decreases |ops|
  {
    if ops == [] then before
    else match ops[0]
      case OpUpdate(fd, events) => Requested(before[fd := events], ops[1..])
      case OpRemove(fd) => Requested(before - {fd}, ops[1..])
  }

  ghost function Masks(es: Entries): map<int, Mask> {
    map fd | fd in es :: es[fd].events
  }

  lemma {:induction false} RunAccepted(es: Entries, ops: seq<Op>)
    requires Coherent(es) && Runnable(es, ops)
    ensures var (end, calls) := Run(es, ops);
            Coherent(end) && ControlAll(Interest(es), calls) == Some(Interest(end))
            && Masks(end) == Requested(Masks(es), ops)
    decreases |ops|
  {
    if ops != [] {
      match ops[0]
      case OpUpdate(fd, events) =>
        UpdateAccepted(es, fd, events);
        RunAccepted(Update(es, fd, events), ops[1..]);
        ControlAllCons(Interest(es), UpdateCall(es, fd, events), Run(Update(es, fd, events), ops[1..]).1);
        assert Masks(Update(es, fd, events)) == Masks(es)[fd := events];
      case OpRemove(fd) =>
        RemoveAccepted(es, fd);
        RunAccepted(Remove(es, fd), ops[1..]);
        if es[fd].index == Added {
          ControlAllCons(Interest(es), Del(fd), Run(Remove(es, fd), ops[1..]).1);
        }
        assert Masks(Remove(es, fd)) == Masks(es) - {fd};
    }
  }

  /** Over every run of mask edits and removals from an empty poller: no `epoll_ctl` call is
      refused; the table the calls leave in the kernel is the masks of the `kAdded` channels, and
      every nonempty mask is in it; `channels_` holds exactly the descriptors in use, each with the
      mask last set on it; none is `kNew`, and `kDeleted` means an empty mask. */
  lemma TableRefinement(ops: seq<Op>)
    requires Runnable(map[], ops)
    ensures var (end, calls) := Run(map[], ops);
            Coherent(end) && ControlAll(map[], calls) == Some(Interest(end))
            && Masks(end) == Requested(map[], ops)
            && (forall fd :: fd in end && end[fd].events != NONE_EVENT ==>
                  fd in Interest(end) && Interest(end)[fd] == Requested(map[], ops)[fd])
  {
    var es: Entries := map[];
    assert Interest(es) == map[] && Masks(es) == map[];
    RunAccepted(es, ops);
    var end := Run(es, ops).0;
    forall fd | fd in end && end[fd].events != NONE_EVENT
      ensures fd in Interest(end) && Interest(end)[fd] == Requested(map[], ops)[fd]
    {
      assert Masks(end)[fd] == end[fd].events;
    }
  }

  /** A channel disabled twice in a row is added back with an empty mask, so `kAdded` alone does
      not mean that the kernel watches anything for it. */
  lemma DisabledTwiceIsAdded(es: Entries, fd: int, events: Mask)
    requires fd !in es && events != NONE_EVENT
    ensures var off := Update(Update(es, fd, events), fd, NONE_EVENT);
            off[fd] == Entry(NONE_EVENT, Deleted)
            && Update(off, fd, NONE_EVENT)[fd] == Entry(NONE_EVENT, Added)
  {
  }
}

/** The channel and poller objects. The field `epoll` stands for the kernel's table behind
    `epollfd_`; the ghost field `view` is the state the specification functions speak of. */
module Polling {
  import opened Common
  import opened PollerModel

  class Channel {
    const fd: int
    var events: Mask
    var revents: Revents
    var index: Index
    var addedToLoop: bool
    var eventHandling: bool

    constructor (fd: int)
      ensures this.fd == fd && events == NONE_EVENT && index == New && !addedToLoop && !eventHandling
    {
      this.fd := fd;
      events := NONE_EVENT;
      revents := Revents(false, false, false, false, false, false, false);
      index := New;
      addedToLoop := false;
      eventHandling := false;
    }

    method EnableReading(p: Poller)
      requires p.Accepts(this)
      modifies this`events, this`index, this`addedToLoop, p
      ensures p.Tracks(this) && events == old(events).(read := true)
      ensures index == IndexAfter(old(index), events)
      ensures p.view == Update(old(p.view), fd, events) && p.channels == old(p.channels)[fd := this]
    {
      events := events.(read := true);
      UpdateIn(p);
    }

    method DisableReading(p: Poller)
      requires p.Accepts(this)
      modifies this`events, this`index, this`addedToLoop, p
      ensures p.Tracks(this) && events == old(events).(read := false)
      ensures index == IndexAfter(old(index), events)
      ensures p.view == Update(old(p.view), fd, events) && p.channels == old(p.channels)[fd := this]
    {
      events := events.(read := false);
      UpdateIn(p);
    }

    method EnableWriting(p: Poller)
      requires p.Accepts(this)
      modifies this`events, this`index, this`addedToLoop, p
      ensures p.Tracks(this) && events == old(events).(write := true)
      ensures index == IndexAfter(old(index), events)
      ensures p.view == Update(old(p.view), fd, events) && p.channels == old(p.channels)[fd := this]
    {
      events := events.(write := true);
      UpdateIn(p);
    }

    method DisableWriting(p: Poller)
      requires p.Accepts(this)
      modifies this`events, this`index, this`addedToLoop, p
      ensures p.Tracks(this) && events == old(events).(write := false)
      ensures index == IndexAfter(old(index), events)
      ensures p.view == Update(old(p.view), fd, events) && p.channels == old(p.channels)[fd := this]
    {
      events := events.(write := false);
      UpdateIn(p);
    }

    method DisableAll(p: Poller)
      requires p.Accepts(this)
      modifies this`events, this`index, this`addedToLoop, p
      ensures p.Tracks(this) && events == NONE_EVENT
      ensures index == IndexAfter(old(index), events)
      ensures p.view == Update(old(p.view), fd, events) && p.channels == old(p.channels)[fd := this]
    {
      events := NONE_EVENT;
      UpdateIn(p);
    }

    /** `Channel::update`, called when `events` has just been edited. */
    method UpdateIn(p: Poller)
      requires p.AcceptsEdited(this)
      modifies this`index, this`addedToLoop, p
      ensures p.Tracks(this) && addedToLoop
      ensures index == IndexAfter(old(index), events)
      ensures p.view == Update(old(p.view), fd, events) && p.channels == old(p.channels)[fd := this]
    {
      addedToLoop := true;
      p.UpdateChannel(this);
    }

    method RemoveFrom(p: Poller)
      requires p.Tracks(this) && events == NONE_EVENT
      modifies this`index, this`addedToLoop, p
      ensures p.Valid() && index == New && !addedToLoop
      ensures Removable(old(p.view), fd) && p.view == Remove(old(p.view), fd)
      ensures p.channels == old(p.channels) - {fd}
    {
      addedToLoop := false;
      p.RemoveChannel(this);
    }

    /** `handleEvent`; the callbacks it runs, in order. */
    method HandleEvent() returns (ran: seq<Callback>)
      modifies this`eventHandling
      ensures !eventHandling && ran == Dispatch(revents) && Dispatched(revents, ran)
    {
      eventHandling := true;
      ran := RunCallbacks();
      DispatchMeans(revents);
      eventHandling := false;
    }

    /** What `handleEvent` does in between. */
    method RunCallbacks() returns (ran: seq<Callback>)
      ensures ran == Dispatch(revents)
    {
      ran := [];
      if revents.hup && !revents.pollin {
        ran := [CloseCallback];
      }
      if revents.pollin || revents.pri || revents.rdhup {
        ran := ran + [ReadCallback];
      }
      if revents.pollout {
        ran := ran + [WriteCallback];
      }
      if revents.err || revents.nval {
        ran := ran + [ErrorCallback];
      }
    }
  }

  class Poller {
    var channels: map<int, Channel>
    var epoll: Table
    var capacity: nat
    ghost var view: Entries

    constructor ()
      ensures Valid() && view == map[] && channels == map[]
    {
      channels := map[];
      epoll := map[];
      capacity := 16;
      view := map[];
    }

    /** The poller's own data is consistent; `view` says of each channel what the channel says,
        save for the mask of a channel that is just being edited. */
    ghost predicate Consistent(edited: Channel?)
      reads this, channels.Values
    {
      && view.Keys == channels.Keys
      && (forall fd :: fd in channels ==>
            channels[fd].fd == fd && view[fd].index == channels[fd].index
            && (channels[fd] == edited || view[fd].events == channels[fd].events))
      && Coherent(view)
      && epoll == Interest(view)
      && capacity > 0
    }

    ghost predicate Valid()
      reads this, channels.Values
    {
      Consistent(null)
    }

    ghost predicate Tracks(c: Channel)
      reads this, channels.Values
    {
      Valid() && c.fd in channels && channels[c.fd] == c
    }

    /** The channel is known, or its descriptor is free and it is `kNew`. */
    ghost predicate KnownOrFree(c: Channel)
      reads this, c
    {
      (c.fd in channels && channels[c.fd] == c) || (c.fd !in channels && c.index == New)
    }

    ghost predicate Accepts(c: Channel)
      reads this, channels.Values, c
    {
      Valid() && KnownOrFree(c)
    }

    ghost predicate AcceptsEdited(c: Channel)
      reads this, channels.Values, c
    {
      Consistent(c) && KnownOrFree(c)
    }

    method UpdateChannel(c: Channel)
      requires AcceptsEdited(c)
      modifies c`index, this
      ensures Tracks(c) && c.index == IndexAfter(old(c.index), c.events)
      ensures view == Update(old(view), c.fd, c.events) && channels == old(channels)[c.fd := c]
    {
      if c.index == New || c.index == Deleted {
        AddChannel(c);
      } else {
        ChangeChannel(c);
      }
    }

    /** The first branch: a new or deleted channel, with EPOLL_CTL_ADD. */
    method AddChannel(c: Channel)
      requires AcceptsEdited(c) && c.index != Added
      modifies c`index, this
      ensures Tracks(c) && c.index == IndexAfter(old(c.index), c.events)
      ensures view == Update(old(view), c.fd, c.events) && channels == old(channels)[c.fd := c]
    {
      UpdateAccepted(view, c.fd, c.events);
      channels := channels[c.fd := c];
      c.index := Added;
      Control(Add(c.fd, c.events));
      view := Update(view, c.fd, c.events);
    }

    /** The second branch: an added channel, with EPOLL_CTL_MOD or EPOLL_CTL_DEL. */
    method ChangeChannel(c: Channel)
      requires AcceptsEdited(c) && c.index == Added
      modifies c`index, this
      ensures Tracks(c) && c.index == IndexAfter(old(c.index), c.events)
      ensures view == Update(old(view), c.fd, c.events) && channels == old(channels)[c.fd := c]
    {
      UpdateAccepted(view, c.fd, c.events);
      if c.events == NONE_EVENT {
        Control(Del(c.fd));
        c.index := Deleted;
      } else {
        Control(Mod(c.fd, c.events));
      }
      view := Update(view, c.fd, c.events);
      assert channels == old(channels)[c.fd := c];
    }

    /** `Poller::update`: one `epoll_ctl` call, never refused. */
    method Control(ctl: Ctl)
      requires PollerModel.Control(epoll, ctl).Some?
      modifies this`epoll
      ensures Some(epoll) == PollerModel.Control(old(epoll), ctl)
    {
      epoll := match ctl
        case Add(fd, mask) => epoll[fd := mask]
        case Mod(fd, mask) => epoll[fd := mask]
        case Del(fd) => epoll - {fd};
    }

    method RemoveChannel(c: Channel)
      requires Tracks(c) && c.events == NONE_EVENT
      modifies c`index, this
      ensures Valid() && c.index == New
      ensures Removable(old(view), c.fd) && view == Remove(old(view), c.fd)
      ensures channels == old(channels) - {c.fd}
    {
      RemoveAccepted(view, c.fd);
      view := Remove(view, c.fd);
      var index := c.index;
      channels := channels - {c.fd};
      if index == Added {
        Control(Del(c.fd));
      }
      c.index := New;
      assert epoll == Interest(view);
    }

    method HasChannel(c: Channel) returns (has: bool)
      requires Valid()
      ensures has <==> Tracks(c)
    {
      has := c.fd in channels && channels[c.fd] == c;
    }

    /** What the kernel may report: descriptors of its table, each once, with events the masks
        allow, and no more than fit the event list. */
    ghost predicate Reported(ready: seq<(int, Revents)>)
      reads this
    {
      && |ready| <= capacity
      && (forall i :: 0 <= i < |ready| ==> ready[i].0 in epoll && Reportable(ready[i].1, epoll[ready[i].0]))
      && (forall i, j :: 0 <= i < j < |ready| ==> ready[i].0 != ready[j].0)
    }

    /** Every reported descriptor belongs to a known channel, so the lookup's assertions hold. */
    method FillActiveChannels(ready: seq<(int, Revents)>) returns (active: seq<Channel>)
      requires Valid() && Reported(ready)
      modifies channels.Values`revents
      ensures Valid() && |active| == |ready|
      ensures forall i :: 0 <= i < |active| ==>
                ready[i].0 in channels && active[i] == channels[ready[i].0] && active[i].revents == ready[i].1
    {
      active := [];
      for i := 0 to |ready|
        invariant |active| == i
        invariant Valid()
        invariant forall k :: 0 <= k < i ==>
                    ready[k].0 in channels && active[k] == channels[ready[k].0] && active[k].revents == ready[k].1
      {
        assert ready[i].0 in view;
        var c := channels[ready[i].0];
        c.revents := ready[i].1;
        active := active + [c];
      }
    }

    /** `poll`: the active channels, each with what was reported for it; a full event list doubles. */
    method Poll(ready: seq<(int, Revents)>) returns (active: seq<Channel>)
      requires Valid() && Reported(ready)
      modifies this`capacity, channels.Values`revents
      ensures Valid() && |active| == |ready|
      ensures forall i :: 0 <= i < |active| ==>
                Tracks(active[i]) && active[i].fd == ready[i].0 && active[i].revents == ready[i].1
      ensures forall i :: 0 <= i < |active| ==> Reportable(active[i].revents, active[i].events)
      ensures capacity == if |ready| == old(capacity) then 2 * old(capacity) else old(capacity)
    {
      active := FillActiveChannels(ready);
      forall i | 0 <= i < |active|
        ensures Tracks(active[i]) && active[i].fd == ready[i].0 && Reportable(active[i].revents, active[i].events)
      {
        var fd := ready[i].0;
        assert fd in Interest(view) && Interest(view)[fd] == view[fd].events;
        assert active[i] == channels[fd] && view[fd].events == channels[fd].events;
        assert Reportable(ready[i].1, epoll[fd]);
      }
      if |ready| == capacity {
        capacity := capacity * 2;
      }
    }
  }
}
