/** The two-index byte buffer of network/include/network/Buffer.h and network/src/Buffer.cc.
    `Rep` is the concrete state as a value; the functions on it say exactly what each operation
    leaves in the storage. */
module BufferModel {
  import opened Common

  const CHEAP_PREPEND: nat := 8
  const INITIAL_SIZE: nat := 4096
  const EXTRA_SIZE: nat := 1024 * 1024

  datatype Rep = Rep(store: seq<Byte>, reader: nat, writer: nat)

  ghost predicate ValidRep(b: Rep) {
    CHEAP_PREPEND <= |b.store| && b.reader <= b.writer <= |b.store|
  }

  function Contents(b: Rep): seq<Byte>
    requires ValidRep(b)
  {
    b.store[b.reader..b.writer]
  }

  function Writable(b: Rep): nat
    requires ValidRep(b)
  {
    |b.store| - b.writer
  }

  function Zeros(n: nat): seq<Byte> { seq(n, _ => 0) }

  /** `makeSpace`: grow when even the prependable bytes would not do, else move the content down. */
  function MakeSpace(b: Rep, len: nat): (r: Rep)
    requires ValidRep(b) && Writable(b) < len
    ensures ValidRep(r) && Contents(r) == Contents(b) && Writable(r) >= len
  {
    if Writable(b) + b.reader < len + CHEAP_PREPEND then
      b.(store := b.store + Zeros(len - Writable(b)))
    else
      Rep(Overwrite(b.store, CHEAP_PREPEND, Contents(b)), CHEAP_PREPEND, CHEAP_PREPEND + b.writer - b.reader)
  }

  function EnsureWritable(b: Rep, len: nat): (r: Rep)
    requires ValidRep(b)
    ensures ValidRep(r) && Contents(r) == Contents(b) && Writable(r) >= len
  {
    if Writable(b) < len then MakeSpace(b, len) else b
  }

  /** Copy `data` behind the content and advance the write index. */
  function Fill(b: Rep, data: seq<Byte>): (r: Rep)
    requires ValidRep(b) && |data| <= Writable(b)
    ensures ValidRep(r) && Contents(r) == Contents(b) + data
  {
    var r := Rep(Overwrite(b.store, b.writer, data), b.reader, b.writer + |data|);
    assert r.store[..b.writer] == b.store[..b.writer];
    assert r.store[b.writer..r.writer] == data;
    assert Contents(r) == r.store[..b.writer][b.reader..] + r.store[b.writer..r.writer];
    r
  }

  function Append(b: Rep, data: seq<Byte>): (r: Rep)
    requires ValidRep(b)
    ensures ValidRep(r) && Contents(r) == Contents(b) + data
  {
    Fill(EnsureWritable(b, |data|), data)
  }

  function Retrieve(b: Rep, len: nat): (r: Rep)
    requires ValidRep(b) && len <= b.writer - b.reader
    ensures ValidRep(r) && Contents(r) == Contents(b)[len..]
  {
    if len < b.writer - b.reader then b.(reader := b.reader + len)
    else b.(reader := CHEAP_PREPEND, writer := CHEAP_PREPEND)
  }

  function Unwrite(b: Rep, len: nat): (r: Rep)
    requires ValidRep(b) && len <= b.writer - b.reader
    ensures ValidRep(r) && Contents(r) == Contents(b)[..|Contents(b)| - len]
  {
    SliceTake(b.store, b.reader, b.writer, b.writer - len - b.reader);
    b.(writer := b.writer - len)
  }

  function Prepend(b: Rep, data: seq<Byte>): (r: Rep)
    requires ValidRep(b) && |data| <= b.reader
    ensures ValidRep(r) && Contents(r) == data + Contents(b)
  {
    var r := Rep(Overwrite(b.store, b.reader - |data|, data), b.reader - |data|, b.writer);
    assert r.store[r.reader..b.reader] == data;
    assert r.store[b.reader..] == b.store[b.reader..];
    assert Contents(r) == r.store[r.reader..b.reader] + r.store[b.reader..][..b.writer - b.reader];
    r
  }

  /** How many bytes the vectors that `readFd` hands to `readv` can take. */
  function ReadCapacity(b: Rep): nat
    requires ValidRep(b)
  {
    if Writable(b) < EXTRA_SIZE then Writable(b) + EXTRA_SIZE else Writable(b)
  }

  /** `readFd` when `readv` delivers `incoming`: the tail of the storage is filled first, what is
      left over went to the extra block and is appended. */
  function ReadFd(b: Rep, incoming: seq<Byte>): (r: Rep)
    requires ValidRep(b)
    ensures ValidRep(r) && Contents(r) == Contents(b) + incoming
  {
    if |incoming| <= Writable(b) then
      Fill(b, incoming)
    else
      var w := Writable(b);
      assert incoming == incoming[..w] + incoming[w..];
      Append(Fill(b, incoming[..w]), incoming[w..])
  }

  // ---------------------------------------------------------------- refinement of a byte sequence

  datatype Op =
    | OpAppend(data: seq<Byte>)
    | OpPrepend(data: seq<Byte>)
    | OpRetrieve(len: nat)
    | OpUnwrite(len: nat)
    | OpReadFd(incoming: seq<Byte>)

  /** The assertions of `makeSpace` and `ensureWritableBytes`: what is moved down was not in front, and
      afterwards the content is as long as before and there is space. */
  ghost predicate SpaceAsserted(b: Rep, len: nat)
    requires ValidRep(b)
  {
    && (Writable(b) < len && Writable(b) + b.reader >= len + CHEAP_PREPEND ==> CHEAP_PREPEND < b.reader)
    && |Contents(EnsureWritable(b, len))| == |Contents(b)| && Writable(EnsureWritable(b, len)) >= len
  }

  /** The assertions that the operation meets. */
  ghost predicate Asserted(b: Rep, op: Op)
    requires ValidRep(b)
  {
    match op
    case OpAppend(data) => SpaceAsserted(b, |data|)
    case OpPrepend(data) => |data| <= b.reader
    case OpRetrieve(len) => len <= b.writer - b.reader
    case OpUnwrite(len) => len <= b.writer - b.reader
    case OpReadFd(incoming) =>
      |incoming| <= Writable(b) || SpaceAsserted(Fill(b, incoming[..Writable(b)]), |incoming| - Writable(b))
  }

  function Step(b: Rep, op: Op): Rep
    requires ValidRep(b) && Asserted(b, op)
  {
    match op
    case OpAppend(data) => Append(b, data)
    case OpPrepend(data) => Prepend(b, data)
    case OpRetrieve(len) => Retrieve(b, len)
    case OpUnwrite(len) => Unwrite(b, len)
    case OpReadFd(incoming) => ReadFd(b, incoming)
  }

  /** What the operation does to a byte sequence; `None` where it takes more bytes than there are. */
  function PlainStep(bytes: seq<Byte>, op: Op): Option<seq<Byte>> {
    match op
    case OpAppend(data) => Some(bytes + data)
    case OpPrepend(data) => Some(data + bytes)
    case OpRetrieve(len) => if len <= |bytes| then Some(bytes[len..]) else None
    case OpUnwrite(len) => if len <= |bytes| then Some(bytes[..|bytes| - len]) else None
    case OpReadFd(incoming) => Some(bytes + incoming)
  }

  /** An operation fails no assertion exactly when a byte sequence has the bytes it takes and, for a prepend,
      the prependable bytes are enough; then it does the same. */
  lemma StepRefines(b: Rep, op: Op)
    requires ValidRep(b)
    ensures Asserted(b, op) <==> PlainStep(Contents(b), op).Some? && (op.OpPrepend? ==> |op.data| <= b.reader)
    ensures Asserted(b, op) ==> ValidRep(Step(b, op)) && Some(Contents(Step(b, op))) == PlainStep(Contents(b), op)
  {
  }

  ghost function PlainRun(bytes: seq<Byte>, ops: seq<Op>): Option<seq<Byte>>
    decreases |ops|
  {
    if ops == [] then Some(bytes)
    else match PlainStep(bytes, ops[0]) case Some(next) => PlainRun(next, ops[1..]) case None => None
  }

  /** The concrete run; `None` when an assertion fails on the way. */
  ghost function Run(b: Rep, ops: seq<Op>): Option<Rep>
    decreases |ops|
  {
    if ops == [] then Some(b)
    else if ValidRep(b) && Asserted(b, ops[0]) then Run(Step(b, ops[0]), ops[1..])
    else None
  }

  /** Every run in which no assertion fails ends with the bytes a plain sequence ends with. */
  lemma {:induction false} RunRefines(b: Rep, ops: seq<Op>)
    requires ValidRep(b)
    ensures Run(b, ops).Some? ==> ValidRep(Run(b, ops).value) && PlainRun(Contents(b), ops) == Some(Contents(Run(b, ops).value))
    decreases |ops|
  {
    if ops != [] && Asserted(b, ops[0]) {
      StepRefines(b, ops[0]);
      RunRefines(Step(b, ops[0]), ops[1..]);
    }
  }

  /** How many bytes may be prepended for sure after an operation, whatever the storage's size. */
  function RoomAfter(room: nat, bytes: seq<Byte>, op: Op): nat {
    match op
    case OpPrepend(data) => if |data| <= room then room - |data| else 0
    case OpRetrieve(len) => if len < |bytes| then Min(CHEAP_PREPEND, room + len) else CHEAP_PREPEND
    case _ => room
  }

  /** A plain sequence has the bytes every operation takes, and prepends stay within that room. */
  ghost predicate Roomy(room: nat, bytes: seq<Byte>, ops: seq<Op>)
    decreases |ops|
  {
    ops == [] ||
    (PlainStep(bytes, ops[0]).Some? && (ops[0].OpPrepend? ==> |ops[0].data| <= room) &&
     Roomy(RoomAfter(room, bytes, ops[0]), PlainStep(bytes, ops[0]).value, ops[1..]))
  }

  /** In such a run no assertion fails, in particular in one without prepends. */
  lemma {:induction false} RoomyRuns(b: Rep, room: nat, ops: seq<Op>)
    requires ValidRep(b) && room <= b.reader && room <= CHEAP_PREPEND && Roomy(room, Contents(b), ops)
    ensures Run(b, ops).Some?
    decreases |ops|
  {
    if ops != [] {
      StepRefines(b, ops[0]);
      RoomStays(b, room, ops[0]);
      RoomyRuns(Step(b, ops[0]), RoomAfter(room, Contents(b), ops[0]), ops[1..]);
    }
  }

  lemma RoomStays(b: Rep, room: nat, op: Op)
    requires ValidRep(b) && room <= b.reader && room <= CHEAP_PREPEND && Asserted(b, op)
    requires op.OpPrepend? ==> |op.data| <= room
    ensures RoomAfter(room, Contents(b), op) <= Step(b, op).reader && RoomAfter(room, Contents(b), op) <= CHEAP_PREPEND
  {
  }

  // ---------------------------------------------------------------- storage bound

  /** A growing append leaves less than readable bytes + appended bytes + 8 in storage. */
  lemma GrowthBound(b: Rep, data: seq<Byte>)
    requires ValidRep(b)
    ensures |Append(b, data).store| > |b.store| ==>
              |Append(b, data).store| < |Contents(b)| + 2 * |data| + CHEAP_PREPEND
    ensures |Append(b, data).store| >= |b.store|
  {
  }

  function Appended(op: Op): nat {
    match op
    case OpAppend(data) => |data|
    case OpReadFd(incoming) => |incoming|
    case _ => 0
  }

  ghost function LargestAppend(ops: seq<Op>): nat {
    if ops == [] then 0 else Max(Appended(ops[0]), LargestAppend(ops[1..]))
  }

  /** The most bytes a plain sequence holds during the run. */
  ghost function PeakReadable(bytes: seq<Byte>, ops: seq<Op>): (peak: nat)
    ensures peak >= |bytes|
    decreases |ops|
  {
    if ops == [] || PlainStep(bytes, ops[0]).None? then |bytes|
    else Max(|bytes|, PeakReadable(PlainStep(bytes, ops[0]).value, ops[1..]))
  }

  lemma StepStorage(b: Rep, op: Op)
    requires ValidRep(b) && Asserted(b, op)
    ensures ValidRep(Step(b, op))
    ensures |Step(b, op).store| <= |b.store| || |Step(b, op).store| <= |Contents(Step(b, op))| + Appended(op) + CHEAP_PREPEND
  {
    match op
    case OpAppend(data) =>
      GrowthBound(b, data);
    case OpReadFd(incoming) =>
      if |incoming| > Writable(b) {
        GrowthBound(Fill(b, incoming[..Writable(b)]), incoming[Writable(b)..]);
      }
    case _ =>
  }

  /** Over any run in which no assertion fails, the storage stays within the larger of where it started and
      the peak content plus the largest append plus 8. */
  lemma {:induction false} StorageBound(b: Rep, ops: seq<Op>)
    requires ValidRep(b) && Run(b, ops).Some?
    ensures var size := |Run(b, ops).value.store|;
            size <= |b.store| || size <= PeakReadable(Contents(b), ops) + LargestAppend(ops) + CHEAP_PREPEND
    decreases |ops|
  {
    if ops != [] {
      StepRefines(b, ops[0]);
      StepStorage(b, ops[0]);
      StorageBound(Step(b, ops[0]), ops[1..]);
    }
  }
}

/** The buffer object: the same operations, in place on an array. */
module ByteBuffer {
  import opened Common
  import opened BufferModel
  import BigEndian

  /** Moving elements down from the front, the next one has not been written over. */
  lemma MovedOne(s: seq<Byte>, from: nat, at: nat, i: nat)
    requires at <= from && from + i < |s|
    ensures var t := Overwrite(s, at, s[from..from + i]);
            t[from + i] == s[from + i] && t[at + i := s[from + i]] == Overwrite(s, at, s[from..from + i + 1])
  {
    assert s[from..from + i + 1] == s[from..from + i] + [s[from + i]];
  }

  class Buffer {
    var store: array<Byte>
    var readerIndex: nat
    var writerIndex: nat

    ghost function State(): Rep
      reads this, store
    {
      Rep(store[..], readerIndex, writerIndex)
    }

    ghost predicate Valid()
      reads this, store
    {
      ValidRep(State())
    }

    constructor (initialSize: nat)
      ensures fresh(store) && State() == Rep(store[..], CHEAP_PREPEND, CHEAP_PREPEND)
      ensures Valid() && Contents(State()) == [] && Writable(State()) == initialSize
    {
      store := new Byte[CHEAP_PREPEND + initialSize];
      readerIndex := CHEAP_PREPEND;
      writerIndex := CHEAP_PREPEND;
    }

    method ReadableBytes() returns (n: nat)
      requires Valid()
      ensures n == |Contents(State())|
    {
      n := writerIndex - readerIndex;
    }

    method Peek() returns (bytes: seq<Byte>)
      requires Valid()
      ensures bytes == Contents(State())
    {
      bytes := store[readerIndex..writerIndex];
    }

    method Retrieve(len: nat)
      requires Valid() && len <= writerIndex - readerIndex
      modifies this`readerIndex, this`writerIndex
      ensures Valid() && State() == BufferModel.Retrieve(old(State()), len)
      ensures Contents(State()) == old(Contents(State()))[len..]
    {
      if len < writerIndex - readerIndex {
        readerIndex := readerIndex + len;
      } else {
        readerIndex := CHEAP_PREPEND;
        writerIndex := CHEAP_PREPEND;
      }
    }

    method RetrieveAsString(len: nat) returns (result: seq<Byte>)
      requires Valid() && len <= writerIndex - readerIndex
      modifies this`readerIndex, this`writerIndex
      ensures Valid() && State() == BufferModel.Retrieve(old(State()), len)
      ensures result + Contents(State()) == old(Contents(State())) && |result| == len
    {
      result := store[readerIndex..readerIndex + len];
      Retrieve(len);
    }

    method MakeSpace(len: nat)
      requires Valid() && Writable(State()) < len
      modifies this, store
      ensures Valid() && State() == BufferModel.MakeSpace(old(State()), len)
      ensures store == old(store) || fresh(store)
    {
      if store.Length - writerIndex + readerIndex < len + CHEAP_PREPEND {
        var bigger := new Byte[writerIndex + len];
        forall i | 0 <= i < writerIndex + len {
          bigger[i] := if i < store.Length then store[i] else 0;
        }
        assert bigger[..] == store[..] + Zeros(len - Writable(State()));
        store := bigger;
      } else {
        assert CHEAP_PREPEND < readerIndex;
        var readable := writerIndex - readerIndex;
        CopyDown(readerIndex, writerIndex, CHEAP_PREPEND);
        readerIndex := CHEAP_PREPEND;
        writerIndex := readerIndex + readable;
      }
    }

    /** `std::copy` within the storage, element by element from the front: where source and target overlap, no
        element is written over before it has been read. */
    method CopyDown(from: nat, to: nat, at: nat)
      requires at <= from <= to <= store.Length
      modifies store
      ensures store[..] == Overwrite(old(store[..]), at, old(store[from..to]))
    {
      ghost var was := store[..];
      var i := 0;
      while i < to - from
        invariant 0 <= i <= to - from
        invariant store[..] == Overwrite(was, at, was[from..from + i])
      {
        MovedOne(was, from, at, i);
        ghost var now := store[..];
        assert store[from + i] == now[from + i];
        store[at + i] := store[from + i];
        assert store[..] == now[at + i := now[from + i]];
        i := i + 1;
      }
    }

    method EnsureWritableBytes(len: nat)
      requires Valid()
      modifies this, store
      ensures Valid() && State() == EnsureWritable(old(State()), len)
      ensures store == old(store) || fresh(store)
    {
      if store.Length - writerIndex < len {
        MakeSpace(len);
      }
    }

    method Append(data: seq<Byte>)
      requires Valid()
      modifies this, store
      ensures Valid() && State() == BufferModel.Append(old(State()), data)
      ensures Contents(State()) == old(Contents(State())) + data
      ensures store == old(store) || fresh(store)
    {
      EnsureWritableBytes(|data|);
      CopyIn(writerIndex, data);
      writerIndex := writerIndex + |data|;
    }

    /** `std::copy` into the storage. */
    method CopyIn(at: nat, data: seq<Byte>)
      requires at + |data| <= store.Length
      modifies store
      ensures store[..] == Overwrite(old(store[..]), at, data)
    {
      forall i | 0 <= i < |data| {
        store[at + i] := data[i];
      }
    }

    method Unwrite(len: nat)
      requires Valid() && len <= writerIndex - readerIndex
      modifies this`writerIndex
      ensures Valid() && State() == BufferModel.Unwrite(old(State()), len)
    {
      writerIndex := writerIndex - len;
    }

    method Prepend(data: seq<Byte>)
      requires Valid() && |data| <= readerIndex
      modifies this`readerIndex, store
      ensures Valid() && State() == BufferModel.Prepend(old(State()), data)
    {
      readerIndex := readerIndex - |data|;
      CopyIn(readerIndex, data);
    }

    /** `appendInt8`, `appendInt16`, `appendInt32` and `appendInt64`, by width. */
    method AppendInt(x: int, width: nat)
      requires Valid() && width in {1, 2, 4, 8} && BigEndian.Fits(x, width)
      modifies this, store
      ensures Valid() && State() == BufferModel.Append(old(State()), BigEndian.Encode(x, width))
      ensures Contents(State()) == old(Contents(State())) + BigEndian.Encode(x, width)
      ensures store == old(store) || fresh(store)
    {
      var be := BigEndian.Encode(x, width);
      Append(be);
    }

    method PrependInt(x: int, width: nat)
      requires Valid() && width in {1, 2, 4, 8} && BigEndian.Fits(x, width) && width <= readerIndex
      modifies this`readerIndex, store
      ensures Valid() && State() == BufferModel.Prepend(old(State()), BigEndian.Encode(x, width))
    {
      var be := BigEndian.Encode(x, width);
      Prepend(be);
    }

    /** `peekIntN`: whatever integer of this width stands in front of the content, written by any
        append or prepend, is the one returned. */
    method PeekInt(width: nat) returns (x: int)
      requires Valid() && width in {1, 2, 4, 8} && width <= writerIndex - readerIndex
      ensures x == BigEndian.Decode(Contents(State())[..width])
      ensures forall y :: BigEndian.Fits(y, width) && BigEndian.Encode(y, width) <= Contents(State()) ==> x == y
    {
      x := BigEndian.Decode(store[readerIndex..readerIndex + width]);
      assert Contents(State()) == store[readerIndex..writerIndex];
      SliceTake(store[..], readerIndex, writerIndex, width);
      forall y | BigEndian.Fits(y, width) && BigEndian.Encode(y, width) <= Contents(State()) ensures x == y {
        var c, e := Contents(State()), BigEndian.Encode(y, width);
        assert |e| == width && e == c[..|e|];
        BigEndian.RoundTrip(y, width);
      }
    }

    method ReadInt(width: nat) returns (x: int)
      requires Valid() && width in {1, 2, 4, 8} && width <= writerIndex - readerIndex
      modifies this`readerIndex, this`writerIndex
      ensures x == BigEndian.Decode(old(Contents(State()))[..width])
      ensures Valid() && State() == BufferModel.Retrieve(old(State()), width)
    {
      x := PeekInt(width);
      Retrieve(width);
    }

    /** `readFd`; `incoming` is what the kernel has for the socket, `None` an errno. */
    method ReadFd(incoming: Option<seq<Byte>>) returns (n: int)
      requires Valid()
      requires incoming.Some? ==> |incoming.value| <= ReadCapacity(State())
      modifies this, store
      ensures Valid()
      ensures incoming.None? ==> n < 0 && State() == old(State())
      ensures incoming.Some? ==> n == |incoming.value| && State() == BufferModel.ReadFd(old(State()), incoming.value)
      ensures store == old(store) || fresh(store)
    {
      if incoming.None? {
        return -1;
      }
      var data := incoming.value;
      n := |data|;
      var writable := store.Length - writerIndex;
      if n <= writable {
        CopyIn(writerIndex, data);
        writerIndex := writerIndex + n;
      } else {
        CopyIn(writerIndex, data[..writable]);
        writerIndex := store.Length;
        Append(data[writable..]);
      }
    }
  }
}
