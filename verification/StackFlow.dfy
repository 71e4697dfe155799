/** A node of infra-controller/src/StackFlow.cpp and node/test/src/main.cpp beside the unit manager: the two
    registries that have to agree across the two processes. */
module AgreementModel {
  import opened Common
  import opened Text
  import opened ParamCodec
  import opened SendModel
  import M = ManagerModel

  /** What a channel object is made of: the two URLs of its unit. */
  datatype Channel = Channel(outputUrl: string, inferenceUrl: string)

  /** `llm_task_channel_` and `llm_task_`; a task is known by its work id. */
  datatype Node = Node(channels: map<int, Channel>, tasks: map<int, string>)

  datatype System = System(node: Node, manager: M.State)

  const TASK_COUNT := 3

  /** How an event ends: it returns, an exception leaves it, or the manager writes outside its bitmap. Nothing
      catches an exception; it ends the node and leaves the manager as it then is. */
  datatype Outcome = Ends(system: System) | Throws(system: System) | OutOfBounds

  /** How the set-up of a task goes once there is room. */
  datatype Load = BadJson | LoadFailed | Loaded

  /** `sys_register_unit`: the call to the manager, its reply read back, the new channel. `None` is an exception, with the
      manager's part done. */
  function Register(c: M.Config, name: string, sys: System, g: nat, h: nat): Option<(nat, System)> {
    var (info, t) := M.Allocate(c, sys.manager, name, g, h);
    var reply := ReadRegistration(M.RegistrationReply(info));
    if reply.None? then None
    else
      var number := Stoi(reply.value.0);
      if number.None? || number.value < 0 then None
      else
        var channel := Channel(reply.value.1, reply.value.2);
        Some((number.value, System(sys.node.(channels := sys.node.channels[number.value := channel]), t)))
  }

  /** `sys_release_unit` with a work id. */
  function Release(c: M.Config, sys: System, workId: string, wild: int): Outcome {
    var number := GetWorkIdNum(workId);
    if number.None? then Throws(sys)
    else
      var t := M.DropUnit(c, sys.manager, workId, wild);
      if t.None? then OutOfBounds
      else Ends(System(sys.node.(channels := sys.node.channels - {number.value}), t.value))
  }

  /** The node's own `setup`: full, bad text, failed load, or a new task. The size counts the new channel.
      The refusals report their error before they return. */
  function NodeSetup(node: Node, workId: string, number: int, load: Load): (Answer, Node) {
    if |node.channels| - 1 == TASK_COUNT then (SendThenReturn(Body(-21), -1), node)
    else match load
      case BadJson => (SendThenReturn(Body(-2), -2), node)
      case LoadFailed => (SendThenReturn(Body(-5), -1), node)
      case Loaded => (SendThenReturn(Text(""), 0), node.(tasks := node.tasks[number := workId]))
  }

  /** The end of `StackFlow::setup`, behind whatever the node's own `setup` answers. */
  function Conclude(c: M.Config, mid: System, workId: string, answer: Answer, wild: int): Outcome {
    match answer
    case Thrown => Throws(mid)
    case Returned(code) => if code == 0 then Ends(mid) else Release(c, mid, workId, wild)
  }

  /** The rest of `StackFlow::setup`, behind the registration. */
  function Proceed(c: M.Config, name: string, mid: System, number: nat, load: Load, wild: int): Outcome {
    var workId := GetWorkId(number, name);
    var parsed := GetWorkIdNum(workId);
    if parsed.None? || parsed.value !in mid.node.channels then Throws(mid)
    else
      var (answer, node) := NodeSetup(mid.node, workId, parsed.value, load);
      Conclude(c, mid.(node := node), workId, answer, wild)
  }

  /** `StackFlow::setup`. */
  function Setup(c: M.Config, name: string, sys: System, load: Load, g: nat, h: nat, wild: int): Outcome {
    match Register(c, name, sys, g, h)
    case None => Throws(sys.(manager := M.Allocate(c, sys.manager, name, g, h).1))
    case Some((number, mid)) => Proceed(c, name, mid, number, load, wild)
  }

  /** The node's own `exit`, of a task or of none. */
  function NodeExit(node: Node, number: int): (Answer, Node) {
    if number !in node.tasks then (SendThenReturn(Body(-6), -1), node)
    else if number !in node.channels then (Thrown, node)
    else (SendThenReturn(Text(""), 0), node.(tasks := node.tasks - {number}))
  }

  /** `StackFlow::exit`. */
  function Exit(c: M.Config, sys: System, workId: string, wild: int): Outcome {
    var number := GetWorkIdNum(workId);
    if number.None? then Throws(sys)
    else
      var (answer, node) := NodeExit(sys.node, number.value);
      match answer
      case Thrown => Throws(sys.(node := node))
      case Returned(code) => if code == 0 then Release(c, sys.(node := node), workId, wild) else Ends(sys.(node := node))
  }

  // ---------------------------------------------------------------- agreement

  /** Task `n` is served by the manager's live unit of that id, under the same URLs. */
  predicate Served(name: string, sys: System, n: int) {
    && n >= 0 && n in sys.node.channels && M.Live(sys.manager, GetWorkId(n, name))
    && var info := sys.manager.table[GetWorkId(n, name)].info;
       sys.node.channels[n] == Channel(info.outputUrl, info.inferenceUrl)
  }

  /** Running tasks, channels and the manager's live units of this name are the same, and at most three. */
  ghost predicate Agree(c: M.Config, name: string, sys: System) {
    && M.Inv(c, sys.manager)
    && sys.node.channels.Keys == sys.node.tasks.Keys
    && (forall n :: n in sys.node.tasks ==> Served(name, sys, n))
    && (forall n: nat :: M.Live(sys.manager, GetWorkId(n, name)) ==> n in sys.node.tasks)
    && |sys.node.tasks| <= TASK_COUNT
  }

  /** Every output URL of this name fits the length byte. */
  predicate UrlsFit(c: M.Config, name: string, size: nat) {
    c.start + size <= INT_MAX && |c.format.prefix| + 10 + |M.Tail(c.format, name, ".output_url")| <= CHAR_MAX
  }

  /** What a set-up needs of the manager: two free ports, an id that fits an `int`, a URL that fits the length byte. */
  predicate CanRegister(c: M.Config, name: string, s: M.State) {
    M.Sound(c) && DotFree(name) && M.RoomForTwo(s.bits) && s.counter <= INT_MAX && UrlsFit(c, name, |s.bits|)
  }

  lemma UrlFits(c: M.Config, name: string, size: nat, port: nat)
    requires UrlsFit(c, name, size) && port < c.start + size
    ensures |M.PrintUrl(c.format, name, ".output_url", port)| <= CHAR_MAX
  {
    assert Pow10(10) == 10_000_000_000;
    ToStringLength(port, 10);
  }

  lemma RegisterIs(c: M.Config, name: string, sys: System, g: nat, h: nat)
    requires CanRegister(c, name, sys.manager)
    ensures var (info, t) := M.Allocate(c, sys.manager, name, g, h);
            && info.number == sys.manager.counter && info.workId == GetWorkId(info.number, name)
            && Register(c, name, sys, g, h) == Some((info.number, Registered(sys, info, t)))
  {
    var (info, t) := M.Allocate(c, sys.manager, name, g, h);
    var i, j := M.AllocateTakesTwoLowest(c, sys.manager, name, g, h);
    UrlFits(c, name, |sys.manager.bits|, c.start + i);
    RegistrationRoundTrip(info.number, info.outputUrl, info.inferenceUrl);
    assert ToString(info.number) + "" == ToString(info.number);
    StoiOfToString(info.number, "");
  }

  /** The next id is new to the node. */
  lemma NumberIsNew(c: M.Config, name: string, sys: System)
    requires Agree(c, name, sys)
    ensures sys.manager.counter !in sys.node.channels && sys.manager.counter !in sys.node.tasks
  {
    var n, s := sys.manager.counter, sys.manager;
    if n in sys.node.tasks {
      assert Served(name, sys, n);
      var key := GetWorkId(n, name);
      assert M.UnitOk(c, s, key);
      M.KeyOf(key, s.table[key].info, name, n);
    }
  }

  /** The system right after the registration. */
  function Registered(sys: System, info: M.UnitData, t: M.State): System {
    System(sys.node.(channels := sys.node.channels[info.number as int := Channel(info.outputUrl, info.inferenceUrl)]), t)
  }

  function WithTask(sys: System, info: M.UnitData, t: M.State): System {
    System(Registered(sys, info, t).node.(tasks := sys.node.tasks[info.number as int := info.workId]), t)
  }

  lemma ProceedIs(c: M.Config, name: string, mid: System, n: nat, load: Load, wild: int)
    requires DotFree(name) && n <= INT_MAX && n in mid.node.channels
    ensures var key := GetWorkId(n, name);
            Proceed(c, name, mid, n, load, wild)
              == if |mid.node.channels| - 1 != TASK_COUNT && load == Loaded
                 then Ends(mid.(node := mid.node.(tasks := mid.node.tasks[n as int := key])))
                 else Throws(mid)
  {
    WorkIdRoundTrip(n, name);
  }

  /** Giving the unit back: the channel is gone and the manager's bitmap is as before. */
  lemma RollbackIs(c: M.Config, name: string, sys: System, g: nat, h: nat, wild: int)
    requires M.Inv(c, sys.manager) && CanRegister(c, name, sys.manager) && sys.manager.counter !in sys.node.channels
    ensures var (info, t) := M.Allocate(c, sys.manager, name, g, h);
            Release(c, Registered(sys, info, t), GetWorkId(sys.manager.counter, name), wild)
              == Ends(System(sys.node, Restored(sys.manager, name)))
  {
    var (info, t) := M.Allocate(c, sys.manager, name, g, h);
    WorkIdRoundTrip(sys.manager.counter, name);
    M.ReleaseUndoes(c, sys.manager, name, g, h, wild);
    assert M.DropUnit(c, t, info.workId, wild) == Some(Restored(sys.manager, name));
    AddedThenRemoved(sys.node.channels, info.number as int, Channel(info.outputUrl, info.inferenceUrl));
  }

  /** The manager after a unit has come and gone. */
  function Restored(s: M.State, name: string): M.State {
    var key := GetWorkId(s.counter, name);
    M.State(s.counter + 1, s.bits, s.table - {key} - {key + OUT_PORT})
  }

  /** What a set-up comes to: a task and a channel under the new id, or, when three tasks run already or the
      load fails, an exception right after the registration. The `==` of the test for room is enough because
      of agreement. */
  lemma SetupIs(c: M.Config, name: string, sys: System, load: Load, g: nat, h: nat, wild: int)
    requires Agree(c, name, sys) && CanRegister(c, name, sys.manager)
    ensures var (info, t) := M.Allocate(c, sys.manager, name, g, h);
            Setup(c, name, sys, load, g, h, wild)
              == if |sys.node.tasks| < TASK_COUNT && load == Loaded then Ends(WithTask(sys, info, t))
                 else Throws(Registered(sys, info, t))
  {
    var (info, t) := M.Allocate(c, sys.manager, name, g, h);
    RegisterIs(c, name, sys, g, h);
    NumberIsNew(c, name, sys);
    ProceedIs(c, name, Registered(sys, info, t), info.number, load, wild);
    SameSize(sys.node);
    AddedThenRemoved(sys.node.channels, info.number as int, Channel(info.outputUrl, info.inferenceUrl));
  }

  lemma SameSize(node: Node)
    requires node.channels.Keys == node.tasks.Keys
    ensures |node.channels| == |node.tasks|
  {
    M.KeyCount(node.channels);
    M.KeyCount(node.tasks);
  }

  lemma AddedThenRemoved<K, V>(m: map<K, V>, key: K, value: V)
    requires key !in m
    ensures m[key := value] - {key} == m && |m[key := value]| == |m| + 1
  {
  }

  // ---------------------------------------------------------------- every event keeps agreement

  lemma WithTaskAgrees(c: M.Config, name: string, sys: System, g: nat, h: nat)
    requires Agree(c, name, sys) && CanRegister(c, name, sys.manager) && |sys.node.tasks| < TASK_COUNT
    ensures var (info, t) := M.Allocate(c, sys.manager, name, g, h); Agree(c, name, WithTask(sys, info, t))
  {
    var (info, t) := M.Allocate(c, sys.manager, name, g, h);
    var after, n := WithTask(sys, info, t), info.number;
    M.AllocateKeepsInv(c, sys.manager, name, g, h);
    NumberIsNew(c, name, sys);
    forall m | m in after.node.tasks ensures Served(name, after, m) {
      if m == n {
        M.RegisterFrame(c, sys.manager, name, g, h, info.workId);
      } else {
        assert Served(name, sys, m);
        M.RegisterFrame(c, sys.manager, name, g, h, GetWorkId(m, name));
      }
    }
    forall m: nat | M.Live(t, GetWorkId(m, name)) ensures m in after.node.tasks {
      M.RegisterFrame(c, sys.manager, name, g, h, GetWorkId(m, name));
      WorkIdsDistinct(m, name, n, name);
    }
  }

  /** Agreement depends on the manager's units of this name only. */
  lemma ManagerMoves(c: M.Config, name: string, sys: System, t: M.State)
    requires Agree(c, name, sys) && M.Inv(c, t)
    requires forall n: nat :: M.Kept(sys.manager, t, GetWorkId(n, name))
    requires forall n: nat :: M.Live(t, GetWorkId(n, name)) ==> M.Live(sys.manager, GetWorkId(n, name))
    ensures Agree(c, name, sys.(manager := t))
  {
    var after := sys.(manager := t);
    forall n | n in after.node.tasks ensures Served(name, after, n) {
      assert Served(name, sys, n);
      assert M.Kept(sys.manager, t, GetWorkId(n, name));
    }
  }

  /** A unit that has come and gone leaves the registry sound, with the same units. */
  lemma RestoredSound(c: M.Config, name: string, s: M.State)
    requires M.Sound(c) && M.Inv(c, s) && M.RoomForTwo(s.bits)
    ensures M.Inv(c, Restored(s, name)) && M.Units(c, Restored(s, name)) == M.Units(c, s)
  {
    var t := M.Allocate(c, s, name, 0, 0).1;
    DroppedAgain(c, name, s);
    M.AllocateKeepsInv(c, s, name, 0, 0);
    M.DropKeepsInv(c, t, GetWorkId(s.counter, name), 0);
    NewThenGone(M.Units(c, s), M.Units(c, t), GetWorkId(s.counter, name));
  }

  lemma DroppedAgain(c: M.Config, name: string, s: M.State)
    requires M.Sound(c) && M.Inv(c, s) && M.RoomForTwo(s.bits)
    ensures M.DropUnit(c, M.Allocate(c, s, name, 0, 0).1, GetWorkId(s.counter, name), 0) == Some(Restored(s, name))
  {
    M.ReleaseUndoes(c, s, name, 0, 0, 0);
  }

  /** And the others as they were. */
  lemma RestoredKeeps(c: M.Config, name: string, s: M.State, k: string)
    requires M.Sound(c) && M.Inv(c, s) && M.RoomForTwo(s.bits)
    ensures M.Kept(s, Restored(s, name), k) && (M.Live(Restored(s, name), k) ==> M.Live(s, k))
  {
    DroppedAgain(c, name, s);
    M.AllocateKeepsInv(c, s, name, 0, 0);
    assert M.Live(s, GetWorkId(s.counter, name)) <==> GetWorkId(s.counter, name) in M.Units(c, s);
    ComesAndGoes(c, name, s, M.Allocate(c, s, name, 0, 0).1, k);
  }

  lemma ComesAndGoes(c: M.Config, name: string, s: M.State, t: M.State, k: string)
    requires M.Inv(c, s) && M.Inv(c, t) && t == M.Allocate(c, s, name, 0, 0).1 && !M.Live(s, GetWorkId(s.counter, name))
    requires M.DropUnit(c, t, GetWorkId(s.counter, name), 0) == Some(Restored(s, name))
    ensures M.Kept(s, Restored(s, name), k) && (M.Live(Restored(s, name), k) ==> M.Live(s, k))
  {
    M.RegisterFrame(c, s, name, 0, 0, k);
    M.DropFrame(c, t, GetWorkId(s.counter, name), 0, k);
  }

  lemma NewThenGone<K, V>(m: map<K, V>, n: map<K, V>, key: K)
    requires key !in m && key in n && n == m[key := n[key]]
    ensures n - {key} == m
  {
  }

  /** A set-up returns, and in agreement, exactly when there is room for a task and it loads. */
  lemma SetupAgrees(c: M.Config, name: string, sys: System, load: Load, g: nat, h: nat, wild: int)
    requires Agree(c, name, sys) && CanRegister(c, name, sys.manager)
    ensures var r := Setup(c, name, sys, load, g, h, wild);
            r.Ends? && Agree(c, name, r.system) <==> |sys.node.tasks| < TASK_COUNT && load == Loaded
  {
    SetupIs(c, name, sys, load, g, h, wild);
    if |sys.node.tasks| < TASK_COUNT && load == Loaded {
      WithTaskAgrees(c, name, sys, g, h);
    }
  }

  /** Otherwise the exception leaves behind what the registration did: a sound manager with one more live unit,
      which holds two more ports, and a channel without a task. */
  lemma RefusedSetupLeaves(c: M.Config, name: string, sys: System, load: Load, g: nat, h: nat, wild: int)
    requires Agree(c, name, sys) && CanRegister(c, name, sys.manager)
    requires |sys.node.tasks| == TASK_COUNT || load != Loaded
    ensures var r, (info, t) := Setup(c, name, sys, load, g, h, wild), M.Allocate(c, sys.manager, name, g, h);
            && r == Throws(Registered(sys, info, t)) && M.Inv(c, t) && info.workId !in M.Units(c, sys.manager)
            && M.Units(c, t) == M.Units(c, sys.manager)[info.workId := M.PlacesOf(c, info)]
            && M.Count(t.bits) == M.Count(sys.manager.bits) + 2
            && info.number in r.system.node.channels && info.number !in r.system.node.tasks
            && !Agree(c, name, r.system)
  {
    var (info, t) := M.Allocate(c, sys.manager, name, g, h);
    SetupIs(c, name, sys, load, g, h, wild);
    M.AllocateKeepsInv(c, sys.manager, name, g, h);
    NumberIsNew(c, name, sys);
  }

  /** Where a node's own `setup` does return a code other than 0, `StackFlow::setup` gives the unit back: node,
      bitmap and units are as they were, and agreement holds. */
  lemma RefusalRestores(c: M.Config, name: string, sys: System, code: int, g: nat, h: nat, wild: int)
    requires Agree(c, name, sys) && CanRegister(c, name, sys.manager) && code != 0
    ensures var (info, t) := M.Allocate(c, sys.manager, name, g, h);
            var r := Conclude(c, Registered(sys, info, t), info.workId, Returned(code), wild);
            && r.Ends? && r.system.node == sys.node && r.system.manager.bits == sys.manager.bits
            && M.Units(c, r.system.manager) == M.Units(c, sys.manager) && Agree(c, name, r.system)
  {
    var restored := Restored(sys.manager, name);
    RegisterIs(c, name, sys, g, h);
    NumberIsNew(c, name, sys);
    RollbackIs(c, name, sys, g, h, wild);
    RestoredSound(c, name, sys.manager);
    forall n: nat
      ensures M.Kept(sys.manager, restored, GetWorkId(n, name))
      ensures M.Live(restored, GetWorkId(n, name)) ==> M.Live(sys.manager, GetWorkId(n, name))
    {
      RestoredKeeps(c, name, sys.manager, GetWorkId(n, name));
    }
    ManagerMoves(c, name, sys, restored);
  }

  /** What an exit comes to: task, channel and the unit named are gone, or an exception with nothing changed. */
  lemma ExitIs(c: M.Config, name: string, sys: System, workId: string, wild: int)
    requires Agree(c, name, sys)
    ensures var n, t := GetWorkIdNum(workId), M.DropUnit(c, sys.manager, workId, wild);
            t.Some? && Exit(c, sys, workId, wild)
              == if n.Some? && n.value in sys.node.tasks
                 then Ends(System(Node(sys.node.channels - {n.value}, sys.node.tasks - {n.value}), t.value))
                 else Throws(sys)
  {
    M.DropKeepsInv(c, sys.manager, workId, wild);
  }

  /** An exit returns, and in agreement, exactly when it names a task of the node by its printed work id:
      `llm.05` or a foreign prefix removes task 5 here and leaves its unit at the manager. */
  lemma ExitAgrees(c: M.Config, name: string, sys: System, workId: string, wild: int)
    requires Agree(c, name, sys)
    ensures var r := Exit(c, sys, workId, wild);
            r.Ends? && Agree(c, name, r.system) <==> NamesTask(name, sys.node, workId)
  {
    var number := GetWorkIdNum(workId);
    ExitIs(c, name, sys, workId, wild);
    if number.Some? && number.value in sys.node.tasks {
      var n := number.value;
      assert Served(name, sys, n);
      if workId == GetWorkId(n, name) {
        CanonicalExit(c, name, sys, n, wild);
      } else {
        M.DropFrame(c, sys.manager, workId, wild, GetWorkId(n, name));
      }
    }
  }

  /** The text is the printed work id of a task here. */
  predicate NamesTask(name: string, node: Node, workId: string) {
    var n := GetWorkIdNum(workId);
    n.Some? && n.value >= 0 && n.value in node.tasks && workId == GetWorkId(n.value, name)
  }

  lemma {:induction false} CanonicalExit(c: M.Config, name: string, sys: System, n: nat, wild: int)
    requires Agree(c, name, sys) && n in sys.node.tasks
    ensures var t := M.DropUnit(c, sys.manager, GetWorkId(n, name), wild);
            t.Some? && Agree(c, name, System(Node(sys.node.channels - {n}, sys.node.tasks - {n}), t.value))
  {
    var key := GetWorkId(n, name);
    M.DropKeepsInv(c, sys.manager, key, wild);
    var t := M.DropUnit(c, sys.manager, key, wild).value;
    var after := System(Node(sys.node.channels - {n}, sys.node.tasks - {n}), t);
    forall m | m in after.node.tasks ensures Served(name, after, m) {
      assert Served(name, sys, m);
      WorkIdsDistinct(m, name, n, name);
      M.DropFrame(c, sys.manager, key, wild, GetWorkId(m, name));
    }
    forall m: nat | M.Live(t, GetWorkId(m, name)) ensures m in after.node.tasks {
      M.DropFrame(c, sys.manager, key, wild, GetWorkId(m, name));
    }
    M.SmallerByOne(sys.node.tasks, n as int);
  }

  // ---------------------------------------------------------------- runs

  /** What happens: a set-up or an exit on this node, or a call of any other node to the manager. */
  datatype Event = SetupEvent(load: Load, g: nat, h: nat, w: int) | ExitEvent(workId: string, w: int) | Elsewhere(op: M.Op)

  /** Other nodes register under other names, release their own units, and leave unit keys alone. */
  ghost predicate Foreign(name: string, op: M.Op) {
    match op
    case Register(unit, g, h) => unit != name
    case Drop(key, wild) => forall n: nat :: key != GetWorkId(n, name)
    case Put(key, val) => true
    case Erase(key) => true
  }

  /** A set-up needs room for a task that loads, an exit the printed work id of a task: no more and no less,
      as `SetupAgrees` and `ExitAgrees` have it. */
  ghost predicate Allowed(c: M.Config, name: string, sys: System, e: Event) {
    match e
    case SetupEvent(load, g, h, w) => CanRegister(c, name, sys.manager) && |sys.node.tasks| < TASK_COUNT && load == Loaded
    case ExitEvent(workId, w) => NamesTask(name, sys.node, workId)
    case Elsewhere(op) => M.Sound(c) && M.Allowed(c, sys.manager, op) && Foreign(name, op)
  }

  function Next(c: M.Config, name: string, sys: System, e: Event): Outcome {
    match e
    case SetupEvent(load, g, h, w) => Setup(c, name, sys, load, g, h, w)
    case ExitEvent(workId, w) => Exit(c, sys, workId, w)
    case Elsewhere(op) =>
      var t := M.Apply(c, sys.manager, op);
      if t.None? then OutOfBounds else Ends(sys.(manager := t.value))
  }

  lemma ElsewhereFrame(c: M.Config, name: string, s: M.State, op: M.Op, n: nat)
    requires M.Sound(c) && M.Inv(c, s) && M.Allowed(c, s, op) && Foreign(name, op)
    ensures var t, k := M.Apply(c, s, op).GetOr(s), GetWorkId(n, name); M.Kept(s, t, k) && (M.Live(t, k) ==> M.Live(s, k))
  {
    match op
    case Register(unit, g, h) =>
      M.RegisterFrame(c, s, unit, g, h, GetWorkId(n, name));
      WorkIdsDistinct(n, name, s.counter, unit);
    case Drop(key, wild) =>
      M.DropFrame(c, s, key, wild, GetWorkId(n, name));
    case Put(key, val) =>
      M.TableFrame(s, key, val, GetWorkId(n, name));
    case Erase(key) =>
      M.TableFrame(s, key, "", GetWorkId(n, name));
  }

  lemma ElsewhereAgrees(c: M.Config, name: string, sys: System, op: M.Op)
    requires Agree(c, name, sys) && M.Sound(c) && M.Allowed(c, sys.manager, op) && Foreign(name, op)
    ensures var t := M.Apply(c, sys.manager, op); t.Some? && Agree(c, name, sys.(manager := t.value))
  {
    M.ApplyKeepsInv(c, sys.manager, op);
    var t := M.Apply(c, sys.manager, op).value;
    forall n: nat
      ensures M.Kept(sys.manager, t, GetWorkId(n, name))
      ensures M.Live(t, GetWorkId(n, name)) ==> M.Live(sys.manager, GetWorkId(n, name))
    {
      ElsewhereFrame(c, name, sys.manager, op, n);
    }
    ManagerMoves(c, name, sys, t);
  }

  lemma EventAgrees(c: M.Config, name: string, sys: System, e: Event)
    requires Agree(c, name, sys) && Allowed(c, name, sys, e)
    ensures var r := Next(c, name, sys, e); r.Ends? && Agree(c, name, r.system)
  {
    match e
    case SetupEvent(load, g, h, w) =>
      SetupAgrees(c, name, sys, load, g, h, w);
    case ExitEvent(workId, w) =>
      ExitAgrees(c, name, sys, workId, w);
    case Elsewhere(op) =>
      ElsewhereAgrees(c, name, sys, op);
  }

  /** Every event of the run that is reached is allowed. */
  ghost predicate AllowedRun(c: M.Config, name: string, sys: System, events: seq<Event>)
    decreases |events|
  {
    events == []
    || (Allowed(c, name, sys, events[0])
        && (Next(c, name, sys, events[0]).Ends? ==> AllowedRun(c, name, Next(c, name, sys, events[0]).system, events[1..])))
  }

  /** A run goes on as long as its events return. */
  function Run(c: M.Config, name: string, sys: System, events: seq<Event>): Outcome
    decreases |events|
  {
    if events == [] then Ends(sys)
    else
      var r := Next(c, name, sys, events[0]);
      if r.Ends? then Run(c, name, r.system, events[1..]) else r
  }

  /** Agreement over every run from an empty node beside a fresh manager. */
  lemma {:induction false} RunAgrees(c: M.Config, name: string, sys: System, events: seq<Event>)
    requires Agree(c, name, sys) && AllowedRun(c, name, sys, events)
    ensures Run(c, name, sys, events).Ends? && Agree(c, name, Run(c, name, sys, events).system)
    decreases |events|
  {
    if events != [] {
      EventAgrees(c, name, sys, events[0]);
      RunAgrees(c, name, Next(c, name, sys, events[0]).system, events[1..]);
    }
  }

  lemma StartAgrees(c: M.Config, name: string, s: M.State)
    requires M.Fresh(s)
    ensures Agree(c, name, System(Node(map[], map[]), s))
  {
    M.FreshInv(c, s);
  }
}

/** The node as an object beside the manager object. */
module StackFlows {
  import opened Common
  import opened Text
  import opened ParamCodec
  import opened Managers
  import opened SendModel
  import M = ManagerModel
  import A = AgreementModel

  class LlmNode {
    const unitName: string
    const taskCount: nat
    const manager: Manager
    var channels: map<int, A.Channel>
    var tasks: map<int, string>

    ghost function View(): A.System
      reads this, manager, manager.portList
    {
      A.System(A.Node(channels, tasks), manager.State())
    }

    constructor (unitName: string, manager: Manager)
      ensures this.unitName == unitName && this.manager == manager && taskCount == 3
      ensures channels == map[] && tasks == map[]
    {
      this.unitName := unitName;
      this.manager := manager;
      taskCount := 3;
      channels, tasks := map[], map[];
    }

    /** `sys_register_unit`; `ok` is false when an exception leaves it. */
    method SysRegisterUnit(g: nat, h: nat) returns (ok: bool, number: nat)
      modifies this`channels, manager`counter, manager`keySql, manager.portList
      ensures var r := A.Register(manager.config, unitName, old(View()), g, h);
              ok == r.Some? && (if ok then (number, View()) == r.value
                                else View() == old(View()).(manager := M.Allocate(manager.config, old(View()).manager, unitName, g, h).1))
    {
      ok, number := false, 0;
      var reply := manager.RpcAllocateUnit(unitName, g, h);
      var nested := GetParam(reply, 1, "");
      if nested.None? {
        return;
      }
      var out, inference, printed := GetParam(reply, 0, nested.value), GetParam(reply, 1, nested.value), GetParam(reply, 0, "");
      if out.None? || inference.None? || printed.None? {
        return;
      }
      var parsed := Stoi(printed.value);
      if parsed.None? || parsed.value < 0 {
        return;
      }
      channels := channels[parsed.value := A.Channel(out.value, inference.value)];
      ok, number := true, parsed.value;
    }

    /** `sys_release_unit` with a work id; `ok` is false when an exception leaves it. */
    method SysReleaseUnit(workId: string, wild: int) returns (ok: bool)
      requires A.Release(manager.config, View(), workId, wild) != A.OutOfBounds
      modifies this`channels, manager`keySql, manager.portList
      ensures A.Release(manager.config, old(View()), workId, wild) == Outcome(ok, View())
    {
      var number := GetWorkIdNum(workId);
      if number.None? {
        return false;
      }
      var code := manager.ReleaseUnit(workId, wild);
      channels := channels - {number.value};
      return true;
    }

    /** The node's own `setup`. */
    method NodeSetup(workId: string, load: A.Load) returns (answer: Answer)
      requires taskCount == A.TASK_COUNT && GetWorkIdNum(workId).Some?
      modifies this`tasks
      ensures var (expected, node) := A.NodeSetup(old(View()).node, workId, GetWorkIdNum(workId).value, load);
              answer == expected && View() == old(View()).(node := node)
    {
      if |channels| - 1 == taskCount {
        return SendThenReturn(Body(-21), -1);
      }
      var number := GetWorkIdNum(workId);
      match load
      case BadJson => return SendThenReturn(Body(-2), -2);
      case LoadFailed => return SendThenReturn(Body(-5), -1);
      case Loaded =>
        tasks := tasks[number.value := workId];
        return SendThenReturn(Text(""), 0);
    }

    /** `StackFlow::setup`; `ok` is false when an exception leaves it. From agreement it returns in agreement
        exactly when there is room and the load succeeds. */
    method Setup(load: A.Load, g: nat, h: nat, wild: int) returns (ok: bool)
      requires taskCount == A.TASK_COUNT
      requires A.Setup(manager.config, unitName, View(), load, g, h, wild) != A.OutOfBounds
      modifies this`channels, this`tasks, manager`counter, manager`keySql, manager.portList
      ensures A.Setup(manager.config, unitName, old(View()), load, g, h, wild) == Outcome(ok, View())
      ensures old(Registrable()) ==> (ok && A.Agree(manager.config, unitName, View()) <==> |old(tasks)| < taskCount && load == A.Loaded)
    {
      if Registrable() {
        A.SetupAgrees(manager.config, unitName, View(), load, g, h, wild);
      }
      var number: nat;
      ok, number := SysRegisterUnit(g, h);
      if ok {
        ok := Proceed(number, load, wild);
      }
    }

    /** In agreement with a manager that can take one more unit. */
    ghost predicate Registrable()
      reads this, manager, manager.portList
    {
      A.Agree(manager.config, unitName, View()) && A.CanRegister(manager.config, unitName, manager.State())
    }

    /** `StackFlow::setup` behind the registration. */
    method Proceed(number: nat, load: A.Load, wild: int) returns (ok: bool)
      requires taskCount == A.TASK_COUNT
      requires A.Proceed(manager.config, unitName, View(), number, load, wild) != A.OutOfBounds
      modifies this`channels, this`tasks, manager`keySql, manager.portList
      ensures A.Proceed(manager.config, unitName, old(View()), number, load, wild) == Outcome(ok, View())
    {
      var workId := GetWorkId(number, unitName);
      var parsed := GetWorkIdNum(workId);
      if parsed.None? || parsed.value !in channels {
        return false;
      }
      var answer := NodeSetup(workId, load);
      ok := Conclude(workId, answer, wild);
    }

    /** The end of `StackFlow::setup`. */
    method Conclude(workId: string, answer: Answer, wild: int) returns (ok: bool)
      requires A.Conclude(manager.config, View(), workId, answer, wild) != A.OutOfBounds
      modifies this`channels, manager`keySql, manager.portList
      ensures A.Conclude(manager.config, old(View()), workId, answer, wild) == Outcome(ok, View())
    {
      match answer
      case Thrown => ok := false;
      case Returned(code) =>
        ok := true;
        if code != 0 {
          ok := SysReleaseUnit(workId, wild);
        }
    }

    /** The node's own `exit`. */
    method NodeExit(number: int) returns (answer: Answer)
      modifies this`tasks
      ensures var (expected, node) := A.NodeExit(old(View()).node, number);
              answer == expected && View() == old(View()).(node := node)
    {
      if number !in tasks {
        return SendThenReturn(Body(-6), -1);
      }
      if number !in channels {
        return Thrown;
      }
      tasks := tasks - {number};
      return SendThenReturn(Text(""), 0);
    }

    /** `StackFlow::exit`. From agreement it returns in agreement exactly when it names a task by its work id. */
    method Exit(workId: string, wild: int) returns (ok: bool)
      requires A.Exit(manager.config, View(), workId, wild) != A.OutOfBounds
      modifies this`channels, this`tasks, manager`keySql, manager.portList
      ensures A.Exit(manager.config, old(View()), workId, wild) == Outcome(ok, View())
      ensures old(A.Agree(manager.config, unitName, View())) ==>
                (ok && A.Agree(manager.config, unitName, View()) <==> A.NamesTask(unitName, old(View()).node, workId))
    {
      if A.Agree(manager.config, unitName, View()) {
        A.ExitAgrees(manager.config, unitName, View(), workId, wild);
      }
      var number := GetWorkIdNum(workId);
      if number.None? {
        return false;
      }
      var answer := NodeExit(number.value);
      match answer {
        case Thrown => ok := false;
        case Returned(code) =>
          ok := true;
          if code == 0 {
            ok := SysReleaseUnit(workId, wild);
          }
      }
    }

    /** How a method ended that says so by `ok`. */
    static function Outcome(ok: bool, after: A.System): A.Outcome { if ok then A.Ends(after) else A.Throws(after) }
  }
}
