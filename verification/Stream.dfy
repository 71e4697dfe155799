/** Streamed text from node to node: the messages `task_output` of node/test/src/main.cpp sends, and what
    `task_user_data` on the receiving side rebuilds from them. */
module StreamModel {
  import opened Common
  import opened Text
  import opened JsonScan
  import opened JsonText
  import opened ChunkModel
  import opened MessageModel
  import opened Numbering

  // ---------------------------------------------------------------- deliveries

  datatype Message = Message(head: Header, chunk: Chunk)

  function Raw(m: Message): string { PrintMessage(m.head, Object(PrintChunk(m.chunk))) }

  /** The last of these replies left the receiver by an exception. */
  predicate Over(replies: seq<Reply>) { replies != [] && Crashes(replies[|replies| - 1]) }

  /** How a receiver takes a message: its reply and its buffer afterwards. */
  type Taking = (Buff, Message) -> (Reply, Buff)

  ghost function Take(buff: Buff, m: Message): (Reply, Buff) { Receive(buff, Raw(m)) }

  /** The replies to a sequence of messages, up to the first exception, and the buffer afterwards. */
  ghost function Feed(take: Taking, buff: Buff, msgs: seq<Message>): (seq<Reply>, Buff) {
    if msgs == [] then ([], buff)
    else
      var before := Feed(take, buff, msgs[..|msgs| - 1]);
      if Over(before.0) then before
      else
        var last := take(before.1, msgs[|msgs| - 1]);
        (before.0 + [last.0], last.1)
  }

  ghost function Deliver(buff: Buff, msgs: seq<Message>): (seq<Reply>, Buff) { Feed(Take, buff, msgs) }

  function Gather(msgs: seq<Message>): Buff {
    if msgs == [] then map[]
    else var c := msgs[|msgs| - 1].chunk; Gather(msgs[..|msgs| - 1])[c.index := ReadText(c.delta)]
  }

  /** The message layer and the chunk's own keys leave the chunk what it is. */
  ghost predicate Kept(m: Message) { Passes(m.head, m.chunk.delta) && KeyFree(m.chunk) }

  predicate KeyFree(c: Chunk) { !EndsLikeKey(c.delta, "index") && !EndsLikeKey(c.delta, "finish") }

  function Waits(n: nat): seq<Reply> { seq(n, i => Wait) }

  predicate Deliverable(msgs: seq<Message>) {
    forall j :: 0 <= j < |msgs| ==> Streams(msgs[j].head) && msgs[j].chunk.index <= INT_MAX
  }

  lemma {:induction false} StepWaits(buff: Buff, c: Chunk)
    requires !c.finish
    ensures Step(buff, c).0 == Wait <==> KeyFree(c)
    ensures KeyFree(c) ==> Step(buff, c).1 == buff[c.index := ReadText(c.delta)]
  {
  }

  lemma {:induction false} OneMoreWait(replies: seq<Reply>, last: Reply, n: nat)
    requires |replies| <= n
    ensures replies + [last] == Waits(n + 1) <==> replies == Waits(n) && last == Wait
    ensures Over(replies) ==> replies != Waits(n)
  {
    var w := Waits(n + 1);
    assert w == Waits(n) + [Wait];
    if |replies| == n {
      assert w[..n] == Waits(n) && w[n] == Wait;
      assert (replies + [last])[..n] == replies && (replies + [last])[n] == last;
    }
  }

  /** The last message and those before it. */
  predicate Splits(msgs: seq<Message>, most: seq<Message>, m: Message) {
    && msgs == most + [m] && most == msgs[..|msgs| - 1] && m == msgs[|msgs| - 1]
    && Deliverable(most) && Streams(m.head) && m.chunk.index <= INT_MAX
  }

  lemma {:induction false} DeliverableSplits(msgs: seq<Message>) returns (most: seq<Message>, m: Message)
    requires msgs != [] && Deliverable(msgs)
    ensures Splits(msgs, most, m)
  {
    most, m := msgs[..|msgs| - 1], msgs[|msgs| - 1];
    forall j | 0 <= j < |most| ensures Streams(most[j].head) && most[j].chunk.index <= INT_MAX {
      assert most[j] == msgs[j];
    }
  }

  predicate Unfinished(msgs: seq<Message>) { forall j :: 0 <= j < |msgs| ==> !msgs[j].chunk.finish }

  ghost predicate AllKept(msgs: seq<Message>) {
    msgs == [] || (AllKept(msgs[..|msgs| - 1]) && Kept(msgs[|msgs| - 1]))
  }

  /** One unfinished message is kept waiting exactly when both layers leave its chunk what it is. */
  ghost predicate WaitsIfKept(take: Taking, buff: Buff, m: Message) {
    (take(buff, m).0 == Wait <==> Kept(m)) && (Kept(m) ==> take(buff, m).1 == buff[m.chunk.index := ReadText(m.chunk.delta)])
  }

  ghost predicate TakesChunks(take: Taking) {
    forall buff: Buff, m: Message :: Streams(m.head) && m.chunk.index <= INT_MAX && !m.chunk.finish ==> WaitsIfKept(take, buff, m)
  }

  lemma {:induction false} TakeTakesChunks()
    ensures TakesChunks(Take)
  {
    forall buff: Buff, m: Message | Streams(m.head) && m.chunk.index <= INT_MAX && !m.chunk.finish ensures WaitsIfKept(Take, buff, m) {
      MessageStep(buff, m.head, m.chunk);
      StepWaits(buff, m.chunk);
    }
  }

  /** All were kept waiting exactly when both layers leave every chunk what it is; then the buffer holds what
      the deltas were read as. */
  ghost predicate Collected(msgs: seq<Message>, r: (seq<Reply>, Buff)) {
    && |r.0| <= |msgs| && (r.0 == Waits(|msgs|) <==> AllKept(msgs))
    && (r.0 == Waits(|msgs|) ==> r.1 == Gather(msgs))
  }

  /** So it is with unfinished messages. */
  lemma {:induction false} Collects(msgs: seq<Message>)
    requires Deliverable(msgs) && Unfinished(msgs)
    ensures Collected(msgs, Deliver(map[], msgs))
  {
    TakeTakesChunks();
    FeedCollects(Take, msgs);
  }

  lemma {:induction false} FeedCollects(take: Taking, msgs: seq<Message>)
    requires TakesChunks(take) && Deliverable(msgs) && Unfinished(msgs)
    ensures Collected(msgs, Feed(take, map[], msgs))
    decreases |msgs|
  {
    if msgs != [] {
      var m, before := msgs[|msgs| - 1], Feed(take, map[], msgs[..|msgs| - 1]);
      FeedCollects(take, msgs[..|msgs| - 1]);
      assert WaitsIfKept(take, before.1, m);
      CollectOne(msgs, before, m, take(before.1, m));
    }
  }

  lemma {:induction false} CollectOne(msgs: seq<Message>, before: (seq<Reply>, Buff), m: Message, last: (Reply, Buff))
    requires msgs != [] && m == msgs[|msgs| - 1] && Collected(msgs[..|msgs| - 1], before)
    requires (last.0 == Wait <==> Kept(m)) && (Kept(m) ==> last.1 == before.1[m.chunk.index := ReadText(m.chunk.delta)])
    ensures Collected(msgs, if Over(before.0) then before else (before.0 + [last.0], last.1))
  {
    OneMoreWait(before.0, last.0, |msgs| - 1);
  }

  // ---------------------------------------------------------------- numbered answers

  /** What the scanner reads for all parts, in order. */
  function ReadAll(parts: seq<string>): string {
    if parts == [] then "" else ReadAll(parts[..|parts| - 1]) + ReadText(parts[|parts| - 1])
  }

  predicate NoTrailingBackslash(parts: seq<string>) { forall k :: 0 <= k < |parts| ==> !EndsWith(parts[k], "\\") }

  /** Together the parts are read as the printed form of the whole text exactly when no part ends in a backslash. */
  lemma {:induction false} ReadsWhole(parts: seq<string>)
    ensures ReadAll(parts) == Escape(Concat(parts)) <==> NoTrailingBackslash(parts)
    ensures |ReadAll(parts)| >= |Escape(Concat(parts))|
    ensures |ReadAll(parts)| == |Escape(Concat(parts))| ==> NoTrailingBackslash(parts)
    decreases |parts|
  {
    if parts != [] {
      var most, last := parts[..|parts| - 1], parts[|parts| - 1];
      assert parts == most + [last];
      ReadsWhole(most);
      ConcatSnoc(most, last);
      EscapeSplits(Concat(most), last);
      assert NoTrailingBackslash(parts) <==> NoTrailingBackslash(most) && !EndsWith(last, "\\");
    }
  }

  /** Every message carries the header and the part that its chunk's index names. */
  ghost predicate Carry(msgs: seq<Message>, heads: seq<Header>, parts: seq<string>) {
    |heads| == |parts| && forall j :: 0 <= j < |msgs| ==> Carries(msgs[j], heads, parts)
  }

  predicate Carries(m: Message, heads: seq<Header>, parts: seq<string>)
    requires |heads| == |parts|
  {
    m.chunk.index < |parts| && m.chunk.delta == parts[m.chunk.index] && m.head == heads[m.chunk.index]
  }

  function Indices(msgs: seq<Message>): seq<int> { seq(|msgs|, j requires 0 <= j < |msgs| => msgs[j].chunk.index) }

  predicate Tells(m: Message, parts: seq<string>) { m.chunk.index < |parts| && m.chunk.delta == parts[m.chunk.index] }

  lemma {:induction false} GatherHolds(msgs: seq<Message>, parts: seq<string>)
    requires forall j :: 0 <= j < |msgs| ==> Tells(msgs[j], parts)
    ensures forall k :: k in Gather(msgs) ==> 0 <= k < |parts| && Gather(msgs)[k] == ReadText(parts[k])
    decreases |msgs|
  {
    if msgs != [] {
      GatherHolds(msgs[..|msgs| - 1], parts);
      assert Tells(msgs[|msgs| - 1], parts);
    }
  }

  lemma {:induction false} GatherIndices(msgs: seq<Message>)
    ensures forall k :: k in Gather(msgs) <==> k in Indices(msgs)
    decreases |msgs|
  {
    if msgs != [] {
      GatherIndices(msgs[..|msgs| - 1]);
      assert Indices(msgs) == Indices(msgs[..|msgs| - 1]) + [msgs[|msgs| - 1].chunk.index];
    }
  }

  lemma {:induction false} JoinedReads(buff: Buff, parts: seq<string>, n: nat)
    requires n <= |parts| && forall k :: 0 <= k < n ==> k in buff && buff[k] == ReadText(parts[k])
    ensures Joined(buff, n) == ReadAll(parts[..n])
  {
    if n > 0 {
      JoinedReads(buff, parts, n - 1);
      assert parts[..n][..n - 1] == parts[..n - 1];
    }
  }

  /** Every index once, the finishing chunk last. */
  ghost predicate FinishLast(msgs: seq<Message>, heads: seq<Header>, parts: seq<string>) {
    && msgs != [] && |msgs| == |parts| && Carry(msgs, heads, parts) && Permutation(Indices(msgs))
    && Unfinished(msgs[..|msgs| - 1]) && msgs[|msgs| - 1].chunk.finish
  }

  /** What a piece must be like to come through, in a message with this header: its text does not end like
      the quoted name of another field and not in a backslash, and its braces pass. */
  ghost predicate Receivable(h: Header, d: string) {
    && !EndsLikeKey(d, "object") && !EndsLikeKey(d, "index") && !EndsLikeKey(d, "finish") && !EndsWith(d, "\\")
    && BracesPass(h, d)
  }

  ghost predicate Receivables(heads: seq<Header>, parts: seq<string>)
    requires |heads| >= |parts|
  {
    forall k :: 0 <= k < |parts| ==> Receivable(heads[k], parts[k])
  }

  /** The last chunk completes the text in index order, whatever the order of arrival. */
  lemma {:induction false} LastCompletes(msgs: seq<Message>, heads: seq<Header>, parts: seq<string>)
    requires FinishLast(msgs, heads, parts) && KeyFree(msgs[|msgs| - 1].chunk)
    ensures Step(Gather(msgs[..|msgs| - 1]), msgs[|msgs| - 1].chunk) == (Infer(ReadAll(parts)), map[])
  {
    var n, buff := |msgs|, Gather(msgs);
    forall j | 0 <= j < |msgs| ensures Tells(msgs[j], parts) {
      assert Carries(msgs[j], heads, parts);
    }
    GatherHolds(msgs, parts);
    AllGathered(msgs);
    JoinedReads(buff, parts, n);
    assert parts[..n] == parts;
  }

  lemma {:induction false} AllGathered(msgs: seq<Message>)
    requires Permutation(Indices(msgs))
    ensures |Gather(msgs)| == |msgs| && forall k :: 0 <= k < |msgs| ==> k in Gather(msgs)
  {
    GatherIndices(msgs);
    assert Gather(msgs).Keys == Below(|msgs|);
  }

  /** For any order of arrival with the finishing chunk last, the receiver waits for it, then infers on the
      parts concatenated in index order, and its buffer is empty again: exactly when every part is receivable
      in its message. The last part, sent empty, is read for its marks only. */
  lemma {:induction false} Reassembly(msgs: seq<Message>, most: seq<Message>, m: Message, heads: seq<Header>, parts: seq<string>)
    requires Splits(msgs, most, m) && FinishLast(msgs, heads, parts) && Kept(m)
    ensures Deliver(map[], msgs) == (Waits(|msgs| - 1) + [Infer(Escape(Concat(parts)))], map[]) <==> Receivables(heads, parts)
  {
    ReadsWhole(parts);
    PartsKept(msgs, heads, parts);
    LastInfers(msgs, most, m, heads, parts);
    TakeTakesChunks();
    InfersOrNot(Take, msgs, most, m, ReadAll(parts), Escape(Concat(parts)));
  }

  lemma {:induction false} InfersOrNot(take: Taking, msgs: seq<Message>, most: seq<Message>, m: Message, text: string, expected: string)
    requires TakesChunks(take) && msgs == most + [m] && Deliverable(most) && Unfinished(most)
    requires take(Gather(most), m) == (Infer(text), map[])
    ensures Feed(take, map[], msgs) == (Waits(|most|) + [Infer(expected)], map[]) <==> AllKept(most) && text == expected
  {
    assert msgs[..|msgs| - 1] == most;
    var before := Feed(take, map[], most);
    FeedCollects(take, most);
    ExpectedIs(before, take(before.1, m), |most|, text, expected);
  }

  lemma {:induction false} LastInfers(msgs: seq<Message>, most: seq<Message>, m: Message, heads: seq<Header>, parts: seq<string>)
    requires Splits(msgs, most, m) && FinishLast(msgs, heads, parts) && Kept(m)
    ensures Take(Gather(most), m) == (Infer(ReadAll(parts)), map[])
  {
    MessageStep(Gather(most), m.head, m.chunk);
    LastCompletes(msgs, heads, parts);
  }

  lemma {:induction false} ExpectedIs(before: (seq<Reply>, Buff), last: (Reply, Buff), n: nat, text: string, expected: string)
    requires |before.0| <= n && (before.0 == Waits(n) ==> last == (Infer(text), map[]))
    ensures (if Over(before.0) then before else (before.0 + [last.0], last.1)) == (Waits(n) + [Infer(expected)], map[])
       <==> before.0 == Waits(n) && text == expected
  {
    OneMoreWait(before.0, Wait, n);
    if before.0 == Waits(n) {
      LastReply(before.0, Infer(text), Infer(expected));
    } else {
      NotExpected(before.0, last.0, Infer(expected), n);
    }
  }

  lemma {:induction false} NotExpected(replies: seq<Reply>, a: Reply, b: Reply, n: nat)
    requires |replies| <= n && replies != Waits(n)
    ensures replies != Waits(n) + [b] && replies + [a] != Waits(n) + [b]
  {
    if |replies| == n {
      assert (replies + [a])[..n] == replies && (Waits(n) + [b])[..n] == Waits(n);
    }
  }

  lemma {:induction false} LastReply(replies: seq<Reply>, a: Reply, b: Reply)
    ensures replies + [a] == replies + [b] <==> a == b
  {
    assert (replies + [a])[|replies|] == a && (replies + [b])[|replies|] == b;
  }

  lemma {:induction false} PartsKept(msgs: seq<Message>, heads: seq<Header>, parts: seq<string>)
    requires FinishLast(msgs, heads, parts) && Kept(msgs[|msgs| - 1])
    ensures Receivables(heads, parts) <==> AllKept(msgs[..|msgs| - 1]) && NoTrailingBackslash(parts)
  {
    var most := msgs[..|msgs| - 1];
    if AllKept(most) && NoTrailingBackslash(parts) {
      forall k | 0 <= k < |parts| ensures Receivable(heads[k], parts[k]) {
        PartReceivable(msgs, heads, parts, k);
      }
    }
    if Receivables(heads, parts) {
      MostKept(msgs, heads, parts, |most|);
      assert msgs[..|most|] == most;
    }
  }

  lemma {:induction false} PartReceivable(msgs: seq<Message>, heads: seq<Header>, parts: seq<string>, k: nat)
    requires FinishLast(msgs, heads, parts) && Kept(msgs[|msgs| - 1]) && k < |parts|
    requires AllKept(msgs[..|msgs| - 1]) && !EndsWith(parts[k], "\\")
    ensures Receivable(heads[k], parts[k])
  {
    assert k in Indices(msgs);
    var j :| 0 <= j < |msgs| && msgs[j].chunk.index == k;
    if j < |msgs| - 1 {
      KeptAt(msgs[..|msgs| - 1], j);
    }
    PartKept(msgs, heads, parts, j);
  }

  lemma {:induction false} KeptAt(msgs: seq<Message>, j: nat)
    requires AllKept(msgs) && j < |msgs|
    ensures Kept(msgs[j])
    decreases |msgs|
  {
    if j < |msgs| - 1 {
      KeptAt(msgs[..|msgs| - 1], j);
    }
  }

  lemma {:induction false} MostKept(msgs: seq<Message>, heads: seq<Header>, parts: seq<string>, n: nat)
    requires Carry(msgs, heads, parts) && n <= |msgs| && Receivables(heads, parts)
    ensures AllKept(msgs[..n])
  {
    if n > 0 {
      MostKept(msgs, heads, parts, n - 1);
      MessageKept(msgs, heads, parts, n - 1);
      OneMoreKept(msgs, n);
    }
  }

  lemma {:induction false} OneMoreKept(msgs: seq<Message>, n: nat)
    requires 0 < n <= |msgs| && AllKept(msgs[..n - 1]) && Kept(msgs[n - 1])
    ensures AllKept(msgs[..n])
  {
    assert msgs[..n][..n - 1] == msgs[..n - 1];
  }

  lemma {:induction false} MessageKept(msgs: seq<Message>, heads: seq<Header>, parts: seq<string>, j: nat)
    requires Carry(msgs, heads, parts) && j < |msgs| && Receivables(heads, parts)
    ensures Kept(msgs[j])
  {
    PartKept(msgs, heads, parts, j);
  }

  lemma {:induction false} PartKept(msgs: seq<Message>, heads: seq<Header>, parts: seq<string>, j: nat)
    requires Carry(msgs, heads, parts) && j < |msgs|
    ensures msgs[j].chunk.index < |parts|
    ensures var k := msgs[j].chunk.index; Receivable(heads[k], parts[k]) <==> Kept(msgs[j]) && !EndsWith(parts[k], "\\")
  {
    assert Carries(msgs[j], heads, parts);
    KeptIs(msgs[j]);
  }

  lemma {:induction false} KeptIs(m: Message)
    ensures Receivable(m.head, m.chunk.delta) <==> Kept(m) && !EndsWith(m.chunk.delta, "\\")
  {
  }

  // ---------------------------------------------------------------- the sender

  /** One call of `task_output` with streaming on, and `count` afterwards. */
  function SendOne(count: nat, data: string, finish: bool): (Chunk, nat) {
    (Chunk(count, if finish then "" else data, finish), if finish then 0 else count + 1)
  }

  /** Calls of any tasks of a process: `count` is one for all of them. */
  function SendRun(count: nat, calls: seq<Call>): (seq<Chunk>, nat) {
    if calls == [] then ([], count)
    else
      var before, last := SendRun(count, calls[..|calls| - 1]), calls[|calls| - 1];
      var sent := SendOne(before.1, last.data, last.slot.finish);
      (before.0 + [sent.0], sent.1)
  }

  function PieceCalls(task: int, pieces: seq<string>): seq<Call> {
    if pieces == [] then []
    else PieceCalls(task, pieces[..|pieces| - 1]) + [Call(Slot(task, false), pieces[|pieces| - 1])]
  }

  /** The calls that stream one answer: its pieces, then the finishing call. */
  function AnswerCalls(task: int, pieces: seq<string>, final: string): seq<Call> {
    PieceCalls(task, pieces) + [Call(Slot(task, true), final)]
  }

  function NumberedFrom(count: nat, pieces: seq<string>): (chunks: seq<Chunk>)
    ensures |chunks| == |pieces| && forall i :: 0 <= i < |pieces| ==> chunks[i] == Chunk(count + i, pieces[i], false)
  {
    var n := |pieces| - 1;
    if pieces == [] then [] else NumberedFrom(count, pieces[..n]) + [Chunk(count + n, pieces[n], false)]
  }

  lemma {:induction false} PiecesNumbered(count: nat, task: int, pieces: seq<string>)
    ensures SendRun(count, PieceCalls(task, pieces)) == (NumberedFrom(count, pieces), count + |pieces|)
    decreases |pieces|
  {
    if pieces != [] {
      var most, calls := pieces[..|pieces| - 1], PieceCalls(task, pieces);
      PiecesNumbered(count, task, most);
      assert calls[..|calls| - 1] == PieceCalls(task, most);
    }
  }

  /** The chunks of an answer sent in a row carry consecutive numbers, the last one marked and empty, and `count`
      starts over. */
  lemma {:induction false} AnswerNumbered(count: nat, task: int, pieces: seq<string>, final: string)
    ensures SendRun(count, AnswerCalls(task, pieces, final))
         == (NumberedFrom(count, pieces) + [Chunk(count + |pieces|, "", true)], 0)
  {
    PiecesNumbered(count, task, pieces);
    var calls := AnswerCalls(task, pieces, final);
    assert calls[..|calls| - 1] == PieceCalls(task, pieces);
  }

  // ---------------------------------------------------------------- an answer under any numbers

  /** The chunks of an answer, the finishing one last, as the counter numbered them. */
  function Numbered(numbers: seq<nat>, pieces: seq<string>): (chunks: seq<Chunk>)
    requires |numbers| == |pieces| + 1
    ensures |chunks| == |numbers|
    ensures forall k :: 0 <= k < |numbers| ==> chunks[k] == Chunk(numbers[k], (pieces + [""])[k], k == |pieces|)
  {
    seq(|numbers|, k requires 0 <= k < |numbers| => Chunk(numbers[k], (pieces + [""])[k], k == |pieces|))
  }

  /** The chunks in their messages, in order of arrival. */
  function Arrived(chunks: seq<Chunk>, heads: seq<Header>, order: seq<int>): (arrived: seq<Message>)
    requires |heads| == |chunks| && forall j :: 0 <= j < |order| ==> 0 <= order[j] < |chunks|
    ensures |arrived| == |order|
    ensures forall j :: 0 <= j < |order| ==> arrived[j] == Message(heads[order[j]], chunks[order[j]])
  {
    if order == [] then []
    else
      var k := order[|order| - 1];
      Arrived(chunks, heads, order[..|order| - 1]) + [Message(heads[k], chunks[k])]
  }

  predicate AllStream(heads: seq<Header>) { forall k :: 0 <= k < |heads| ==> Streams(heads[k]) }

  /** An answer of `n` pieces: its numbers fit an `int` and its messages arrive in this order. */
  ghost predicate Setting(numbers: seq<nat>, heads: seq<Header>, order: seq<int>, n: nat) {
    && |numbers| == |heads| == n + 1 && ArrivalOrder(order, n)
    && forall k :: 0 <= k <= n ==> numbers[k] <= INT_MAX
  }

  /** The message carries call `k` of the answer. */
  predicate IsCall(m: Message, numbers: seq<nat>, parts: seq<string>, heads: seq<Header>, k: int) {
    && 0 <= k < |numbers| == |parts| == |heads|
    && m.head == heads[k] && m.chunk.index == numbers[k] && m.chunk.delta == parts[k]
    && (m.chunk.finish <==> k == |numbers| - 1)
  }

  /** The messages of an answer, in order of arrival; the last of its parts is sent empty. */
  ghost predicate Inbox(msgs: seq<Message>, numbers: seq<nat>, parts: seq<string>, heads: seq<Header>, order: seq<int>) {
    && parts != [] && parts[|parts| - 1] == "" && Setting(numbers, heads, order, |parts| - 1)
    && |msgs| == |order| && forall j :: 0 <= j < |msgs| ==> IsCall(msgs[j], numbers, parts, heads, order[j])
  }

  lemma {:induction false} ArrivedInbox(numbers: seq<nat>, pieces: seq<string>, heads: seq<Header>, order: seq<int>)
    requires Setting(numbers, heads, order, |pieces|)
    ensures Inbox(Arrived(Numbered(numbers, pieces), heads, order), numbers, pieces + [""], heads, order)
  {
  }

  lemma {:induction false} InboxSplits(msgs: seq<Message>, numbers: seq<nat>, parts: seq<string>, heads: seq<Header>, order: seq<int>)
    returns (most: seq<Message>, m: Message)
    requires AllStream(heads) && Inbox(msgs, numbers, parts, heads, order)
    ensures Splits(msgs, most, m) && Unfinished(most) && m.chunk.finish && m.chunk.delta == ""
  {
    InboxHolds(msgs, numbers, parts, heads, order);
    most, m := DeliverableSplits(msgs);
  }

  lemma {:induction false} InboxHolds(msgs: seq<Message>, numbers: seq<nat>, parts: seq<string>, heads: seq<Header>, order: seq<int>)
    requires AllStream(heads) && Inbox(msgs, numbers, parts, heads, order)
    ensures Deliverable(msgs) && Unfinished(msgs[..|msgs| - 1])
    ensures var m := msgs[|msgs| - 1].chunk; m.finish && m.delta == ""
  {
    forall j | 0 <= j < |msgs| ensures Streams(msgs[j].head) && msgs[j].chunk.index <= INT_MAX {
      assert IsCall(msgs[j], numbers, parts, heads, order[j]);
    }
    forall j | 0 <= j < |msgs| ensures msgs[j].chunk.finish == (order[j] == |parts| - 1) {
      assert IsCall(msgs[j], numbers, parts, heads, order[j]);
    }
    LastIsFinish(msgs, order, |parts| - 1);
    assert IsCall(msgs[|msgs| - 1], numbers, parts, heads, order[|msgs| - 1]);
  }

  lemma {:induction false} LastIsFinish(msgs: seq<Message>, order: seq<int>, n: nat)
    requires ArrivalOrder(order, n) && |msgs| == n + 1
    requires forall j :: 0 <= j <= n ==> msgs[j].chunk.finish == (order[j] == n)
    ensures Unfinished(msgs[..n]) && msgs[n].chunk.finish
  {
    forall j | 0 <= j < n ensures !msgs[..n][j].chunk.finish {
      LastOnlyOnce(order, n, j);
    }
  }

  lemma {:induction false} EmptyPasses(h: Header)
    ensures Receivable(h, "") && ReadText("") == ""
  {
    LowestIs(Tail(h));
    assert Tail(h)[..0] == "";
  }

  /** What the finishing chunk comes to, once it is in the buffer. */
  ghost function Verdict(buff: Buff): Reply {
    if Complete(buff) then Infer(Joined(buff, |buff|)) else IndexError()
  }

  lemma {:induction false} FinishStep(buff: Buff, c: Chunk)
    requires c.finish && KeyFree(c)
    ensures Step(buff, c) == (Verdict(buff[c.index := ReadText(c.delta)]), map[])
  {
  }

  /** When every message but the last is kept waiting, the buffer decides. */
  lemma {:induction false} WhatComes(msgs: seq<Message>, most: seq<Message>, m: Message)
    requires Splits(msgs, most, m) && Unfinished(most) && AllKept(most) && m.chunk.finish && m.chunk.delta == ""
    ensures Deliver(map[], msgs) == (Waits(|most|) + [Verdict(Gather(msgs))], map[])
  {
    LastVerdict(Gather(most), m);
    DeliverDecides(msgs, most, m, Verdict(Gather(msgs)));
  }

  /** With receivable parts it does. */
  lemma {:induction false} BufferDecides(msgs: seq<Message>, numbers: seq<nat>, parts: seq<string>, heads: seq<Header>, order: seq<int>)
    requires AllStream(heads) && Inbox(msgs, numbers, parts, heads, order) && Receivables(heads, parts)
    ensures Deliver(map[], msgs) == (Waits(|msgs| - 1) + [Verdict(Gather(msgs))], map[])
  {
    var most, m := InboxSplits(msgs, numbers, parts, heads, order);
    PartsWait(msgs, numbers, parts, heads, order, |msgs| - 1);
    WhatComes(msgs, most, m);
  }

  lemma {:induction false} DeliverDecides(msgs: seq<Message>, most: seq<Message>, m: Message, verdict: Reply)
    requires msgs == most + [m] && Deliverable(most) && Unfinished(most) && AllKept(most)
    requires Take(Gather(most), m) == (verdict, map[])
    ensures Deliver(map[], msgs) == (Waits(|most|) + [verdict], map[])
  {
    TakeTakesChunks();
    LastDecides(Take, msgs, most, m, verdict);
  }

  lemma {:induction false} LastGathered(msgs: seq<Message>, most: seq<Message>, m: Message)
    requires msgs == most + [m]
    requires Streams(m.head) && m.chunk.index <= INT_MAX && m.chunk.finish && m.chunk.delta == ""
    ensures Take(Gather(most), m) == (Verdict(Gather(msgs)), map[])
  {
    assert msgs[..|msgs| - 1] == most;
    LastVerdict(Gather(most), m);
  }

  lemma {:induction false} LastDecides(take: Taking, msgs: seq<Message>, most: seq<Message>, m: Message, verdict: Reply)
    requires TakesChunks(take) && msgs == most + [m] && Deliverable(most) && Unfinished(most) && AllKept(most)
    requires take(Gather(most), m) == (verdict, map[])
    ensures Feed(take, map[], msgs) == (Waits(|most|) + [verdict], map[])
  {
    assert msgs[..|msgs| - 1] == most;
    FeedCollects(take, most);
    OneMoreWait(Waits(|most|), Wait, |most|);
  }

  lemma {:induction false} LastVerdict(buff: Buff, m: Message)
    requires Streams(m.head) && m.chunk.index <= INT_MAX && m.chunk.finish && m.chunk.delta == ""
    ensures Take(buff, m) == (Verdict(buff[m.chunk.index := ReadText(m.chunk.delta)]), map[])
  {
    EmptyPasses(m.head);
    MessageStep(buff, m.head, m.chunk);
    FinishStep(buff, m.chunk);
  }

  lemma {:induction false} PartsWait(msgs: seq<Message>, numbers: seq<nat>, parts: seq<string>, heads: seq<Header>, order: seq<int>, m: nat)
    requires Inbox(msgs, numbers, parts, heads, order) && Receivables(heads, parts) && m <= |msgs|
    ensures AllKept(msgs[..m])
  {
    if m > 0 {
      PartsWait(msgs, numbers, parts, heads, order, m - 1);
      PartWaits(msgs[m - 1], numbers, parts, heads, order[m - 1]);
      OneMoreKept(msgs, m);
    }
  }

  lemma {:induction false} PartWaits(m: Message, numbers: seq<nat>, parts: seq<string>, heads: seq<Header>, k: int)
    requires IsCall(m, numbers, parts, heads, k) && Receivables(heads, parts)
    ensures Kept(m)
  {
    KeptIs(m);
  }

  // ---------------------------------------------------------------- when it ends in an error

  /** The buffer is complete exactly when its numbers have no gap. */
  lemma {:induction false} CompleteIs(buff: Buff, numbers: seq<nat>)
    requires forall v :: v in buff <==> v in numbers
    ensures Complete(buff) <==> NoGap(numbers)
  {
    FullIs(buff.Keys, numbers);
    assert |buff.Keys| == |buff|;
    assert Complete(buff) <==> Below(|buff|) <= buff.Keys;
  }

  lemma {:induction false} NumbersGathered(msgs: seq<Message>, numbers: seq<nat>, parts: seq<string>, heads: seq<Header>, order: seq<int>)
    requires Inbox(msgs, numbers, parts, heads, order)
    ensures forall v :: v in Gather(msgs) <==> v in numbers
  {
    GatherIndices(msgs);
    forall v ensures v in Indices(msgs) <==> v in numbers {
      NumberArrives(msgs, numbers, parts, heads, order, v);
    }
  }

  lemma {:induction false} NumberArrives(msgs: seq<Message>, numbers: seq<nat>, parts: seq<string>, heads: seq<Header>, order: seq<int>, v: int)
    requires Inbox(msgs, numbers, parts, heads, order)
    ensures v in Indices(msgs) <==> v in numbers
  {
    if v in Indices(msgs) {
      var j :| 0 <= j < |msgs| && Indices(msgs)[j] == v;
      assert IsCall(msgs[j], numbers, parts, heads, order[j]);
    }
    if v in numbers {
      var k :| 0 <= k < |numbers| && numbers[k] == v;
      assert k in order;
      var j :| 0 <= j < |order| && order[j] == k;
      assert IsCall(msgs[j], numbers, parts, heads, order[j]);
      assert Indices(msgs)[j] == v;
    }
  }

  /** With receivable parts, an answer ends in an index error exactly when its numbers have a gap. */
  lemma {:induction false} GapIsError(msgs: seq<Message>, numbers: seq<nat>, parts: seq<string>, heads: seq<Header>, order: seq<int>)
    requires AllStream(heads) && Inbox(msgs, numbers, parts, heads, order) && Receivables(heads, parts)
    ensures Deliver(map[], msgs) == (Waits(|msgs| - 1) + [IndexError()], map[]) <==> !NoGap(numbers)
  {
    BufferDecides(msgs, numbers, parts, heads, order);
    NumbersGathered(msgs, numbers, parts, heads, order);
    CompleteIs(Gather(msgs), numbers);
    LastReply(Waits(|msgs| - 1), Verdict(Gather(msgs)), IndexError());
  }

  lemma {:induction false} NumberedError(numbers: seq<nat>, pieces: seq<string>, heads: seq<Header>, order: seq<int>)
    requires AllStream(heads) && Setting(numbers, heads, order, |pieces|) && Receivables(heads, pieces)
    ensures Deliver(map[], Arrived(Numbered(numbers, pieces), heads, order)) == (Waits(|pieces|) + [IndexError()], map[])
       <==> !NoGap(numbers)
  {
    ArrivedInbox(numbers, pieces, heads, order);
    EndsReceivable(heads, pieces);
    GapIsError(Arrived(Numbered(numbers, pieces), heads, order), numbers, pieces + [""], heads, order);
  }

  // ---------------------------------------------------------------- when it is rebuilt

  lemma {:induction false} SortedAnswer(msgs: seq<Message>, numbers: seq<nat>, parts: seq<string>, heads: seq<Header>, order: seq<int>)
    requires AllStream(heads) && Inbox(msgs, numbers, parts, heads, order) && InTurn(numbers)
    ensures FinishLast(msgs, Sorted(heads, numbers), Sorted(parts, numbers))
    ensures Kept(msgs[|msgs| - 1])
  {
    InboxHolds(msgs, numbers, parts, heads, order);
    SortedCarry(msgs, numbers, parts, heads, order);
    SortedIndices(msgs, numbers, parts, heads, order);
    EmptyPasses(msgs[|msgs| - 1].head);
    KeptIs(msgs[|msgs| - 1]);
  }

  lemma {:induction false} SortedCarry(msgs: seq<Message>, numbers: seq<nat>, parts: seq<string>, heads: seq<Header>, order: seq<int>)
    requires Inbox(msgs, numbers, parts, heads, order) && InTurn(numbers)
    ensures Carry(msgs, Sorted(heads, numbers), Sorted(parts, numbers))
  {
    var hs, ps := Sorted(heads, numbers), Sorted(parts, numbers);
    forall j | 0 <= j < |msgs| ensures Carries(msgs[j], hs, ps) {
      assert IsCall(msgs[j], numbers, parts, heads, order[j]);
      OwnCarrier(numbers, order[j]);
    }
  }

  lemma {:induction false} SortedIndices(msgs: seq<Message>, numbers: seq<nat>, parts: seq<string>, heads: seq<Header>, order: seq<int>)
    requires Inbox(msgs, numbers, parts, heads, order) && InTurn(numbers)
    ensures Permutation(Indices(msgs))
  {
    InTurnPermutes(numbers);
    forall v ensures v in Indices(msgs) <==> 0 <= v < |msgs| {
      NumberArrives(msgs, numbers, parts, heads, order, v);
    }
    SamePermutes(Indices(msgs));
  }

  lemma {:induction false} SortedReceivable(parts: seq<string>, numbers: seq<nat>, heads: seq<Header>)
    requires |numbers| == |heads| == |parts| && InTurn(numbers)
    ensures Receivables(Sorted(heads, numbers), Sorted(parts, numbers)) <==> Receivables(heads, parts)
  {
    var hs, ps := Sorted(heads, numbers), Sorted(parts, numbers);
    if Receivables(hs, ps) {
      forall k | 0 <= k < |parts| ensures Receivable(heads[k], parts[k]) {
        assert Carrier(numbers, numbers[k]) == k;
        assert Receivable(hs[numbers[k]], ps[numbers[k]]);
      }
    }
    if Receivables(heads, parts) {
      forall v | 0 <= v < |ps| ensures Receivable(hs[v], ps[v]) {
        assert Receivable(heads[Carrier(numbers, v)], parts[Carrier(numbers, v)]);
      }
    }
  }

  /** The empty last part asks for nothing. */
  lemma {:induction false} EndsReceivable(heads: seq<Header>, pieces: seq<string>)
    requires |heads| == |pieces| + 1
    ensures Receivables(heads, pieces + [""]) <==> Receivables(heads, pieces)
  {
    var parts := pieces + [""];
    EmptyPasses(heads[|pieces|]);
    if Receivables(heads, pieces) {
      forall k | 0 <= k < |parts| ensures Receivable(heads[k], parts[k]) {
        assert k < |pieces| ==> Receivable(heads[k], pieces[k]);
      }
    }
    if Receivables(heads, parts) {
      forall k | 0 <= k < |pieces| ensures Receivable(heads[k], pieces[k]) {
        assert Receivable(heads[k], parts[k]);
      }
    }
  }

  /** What the receiver should make of an answer. */
  function Expected(pieces: seq<string>): seq<Reply> { Waits(|pieces|) + [Infer(Escape(Concat(pieces)))] }

  /** Numbered in turn, an answer is rebuilt exactly when its pieces are receivable. */
  lemma {:induction false} InTurnRebuilt(numbers: seq<nat>, pieces: seq<string>, heads: seq<Header>, order: seq<int>)
    requires AllStream(heads) && Setting(numbers, heads, order, |pieces|) && InTurn(numbers)
    ensures Rebuilt(numbers, pieces, heads, order) <==> Receivables(heads, pieces)
  {
    ArrivedInbox(numbers, pieces, heads, order);
    InboxRebuilt(Arrived(Numbered(numbers, pieces), heads, order), numbers, pieces + [""], heads, order);
    SortedText(pieces, numbers);
    EndsReceivable(heads, pieces);
  }

  lemma {:induction false} InboxRebuilt(msgs: seq<Message>, numbers: seq<nat>, parts: seq<string>, heads: seq<Header>, order: seq<int>)
    requires AllStream(heads) && Inbox(msgs, numbers, parts, heads, order) && InTurn(numbers)
    ensures Deliver(map[], msgs) == (Waits(|msgs| - 1) + [Infer(Escape(Concat(Sorted(parts, numbers))))], map[])
       <==> Receivables(heads, parts)
  {
    var most, m := InboxSplits(msgs, numbers, parts, heads, order);
    SortedAnswer(msgs, numbers, parts, heads, order);
    Reassembly(msgs, most, m, Sorted(heads, numbers), Sorted(parts, numbers));
    SortedReceivable(parts, numbers, heads);
  }

  /** These numbers rebuild every answer of that many receivable pieces. */
  ghost predicate AlwaysRebuilt(numbers: seq<nat>, heads: seq<Header>, order: seq<int>, n: nat)
    requires Setting(numbers, heads, order, n)
  {
    forall pieces: seq<string> :: |pieces| == n && Receivables(heads, pieces) ==> Rebuilt(numbers, pieces, heads, order)
  }

  ghost predicate Rebuilt(numbers: seq<nat>, pieces: seq<string>, heads: seq<Header>, order: seq<int>)
    requires Setting(numbers, heads, order, |pieces|)
  {
    Deliver(map[], Arrived(Numbered(numbers, pieces), heads, order)) == (Expected(pieces), map[])
  }

  /** The numbers rebuild every answer exactly when they are in turn. */
  lemma {:induction false} NumbersDecide(numbers: seq<nat>, heads: seq<Header>, order: seq<int>, n: nat)
    requires AllStream(heads) && Setting(numbers, heads, order, n)
    ensures AlwaysRebuilt(numbers, heads, order, n) <==> InTurn(numbers)
  {
    if InTurn(numbers) {
      forall pieces: seq<string> | |pieces| == n && Receivables(heads, pieces) ensures Rebuilt(numbers, pieces, heads, order) {
        InTurnRebuilt(numbers, pieces, heads, order);
      }
    }
    if AlwaysRebuilt(numbers, heads, order, n) {
      OnlyInTurn(numbers, heads, order, n);
    }
  }

  lemma {:induction false} OnlyInTurn(numbers: seq<nat>, heads: seq<Header>, order: seq<int>, n: nat)
    requires AllStream(heads) && Setting(numbers, heads, order, n) && AlwaysRebuilt(numbers, heads, order, n)
    ensures InTurn(numbers)
  {
    var ones := seq(n, _ => "a");
    var texts := Placing(numbers, heads, order, ones);
    OnesPlaced(numbers, ones, texts);
    forall i | 0 <= i < n - 1 ensures numbers[i] < numbers[i + 1] {
      var swapped := Placing(numbers, heads, order, Two(n, i, i + 1, "a", "b"));
      TwoPlaced(numbers, n, i, swapped);
    }
    RisingIsInTurn(numbers, n);
  }

  predicate Letter(d: string) { |d| <= 1 && (d != "" ==> d[0] == 'a' || d[0] == 'b') }

  predicate Letters(texts: seq<string>) { forall k :: 0 <= k < |texts| ==> Letter(texts[k]) }

  lemma {:induction false} LetterPasses(h: Header, d: string)
    requires Letter(d)
    ensures Receivable(h, d) && !EndsWith(d, "\\") && ReadText(d) == d
  {
    if d != "" {
      NotLikeKey(d, "object");
      NotLikeKey(d, "index");
      NotLikeKey(d, "finish");
      FlatIsBalanced(d);
      EmptyPasses(h);
      LetterEscaped(d);
    } else {
      EmptyPasses(h);
    }
  }

  lemma {:induction false} NotLikeKey(d: string, k: string)
    requires |d| < |k|
    ensures !EndsLikeKey(d, k)
  {
  }

  lemma {:induction false} LetterEscaped(d: string)
    requires Letter(d) && d != ""
    ensures ReadText(d) == d && !EndsWith(d, "\\")
  {
    NoBackslash(d);
    EscapeOne(d, d[0]);
  }

  lemma {:induction false} NoBackslash(d: string)
    requires Letter(d)
    ensures !EndsWith(d, "\\")
  {
    LastIsBackslash(d);
  }

  lemma {:induction false} EscapeOne(d: string, c: char)
    requires d == [c] && EscapeChar(c) == d
    ensures Escape(d) == d
  {
    assert d[..0] == "" && Escape("") == "" && "" + d == d;
  }

  lemma {:induction false} LettersReceivable(heads: seq<Header>, pieces: seq<string>)
    requires |heads| >= |pieces| && Letters(pieces)
    ensures Receivables(heads, pieces)
  {
    forall k | 0 <= k < |pieces| ensures Receivable(heads[k], pieces[k]) {
      LetterPasses(heads[k], pieces[k]);
    }
  }

  /** Where the receiver puts letters that it rebuilds. */
  lemma {:induction false} Placing(numbers: seq<nat>, heads: seq<Header>, order: seq<int>, pieces: seq<string>) returns (texts: seq<string>)
    requires AllStream(heads) && Setting(numbers, heads, order, |pieces|) && Letters(pieces) && AlwaysRebuilt(numbers, heads, order, |pieces|)
    ensures Placed(numbers, pieces, texts)
  {
    var msgs, buff := RebuiltBuffer(numbers, pieces, heads, order);
    texts := Contents(buff);
    BufferPlaced(msgs, buff, numbers, pieces, heads, order);
  }

  lemma {:induction false} BufferPlaced(msgs: seq<Message>, buff: Buff, numbers: seq<nat>, pieces: seq<string>, heads: seq<Header>, order: seq<int>)
    requires Inbox(msgs, numbers, pieces + [""], heads, order) && buff == Gather(msgs) && Complete(buff) && Letters(pieces)
    requires Row(Contents(buff)) == Row(pieces)
    ensures Placed(numbers, pieces, Contents(buff))
  {
    BufferPlaces(msgs, buff, numbers, pieces + [""], heads, order);
    PlacedFrom(buff, numbers, pieces, Contents(buff));
  }

  lemma {:induction false} PlacedFrom(buff: Buff, numbers: seq<nat>, pieces: seq<string>, texts: seq<string>)
    requires Complete(buff) && texts == Contents(buff) && Row(texts) == Row(pieces) && |numbers| == |pieces| + 1
    requires |buff| <= |numbers| && (forall v :: 0 <= v < |buff| <==> v in numbers)
    requires forall v :: 0 <= v < |buff| ==> |buff[v]| <= if v == numbers[|pieces|] then 0 else 1
    requires Permutation(numbers) ==> forall k :: 0 <= k < |numbers| && numbers[k] < |buff| ==> buff[numbers[k]] == (pieces + [""])[k]
    ensures Placed(numbers, pieces, texts)
  {
  }

  function Contents(buff: Buff): (texts: seq<string>)
    requires forall v :: 0 <= v < |buff| ==> v in buff
    ensures |texts| == |buff| && forall v :: 0 <= v < |texts| ==> texts[v] == buff[v]
  {
    seq(|buff|, v requires 0 <= v < |buff| => buff[v])
  }

  /** In a rebuilt answer the buffer was complete and held its printed text. */
  lemma {:induction false} RebuiltBuffer(numbers: seq<nat>, pieces: seq<string>, heads: seq<Header>, order: seq<int>)
    returns (msgs: seq<Message>, buff: Buff)
    requires AllStream(heads) && Setting(numbers, heads, order, |pieces|) && Letters(pieces) && AlwaysRebuilt(numbers, heads, order, |pieces|)
    ensures Inbox(msgs, numbers, pieces + [""], heads, order) && buff == Gather(msgs)
    ensures Complete(buff) && Row(Contents(buff)) == Row(pieces)
  {
    msgs := Arrived(Numbered(numbers, pieces), heads, order);
    buff := Gather(msgs);
    LettersReceivable(heads, pieces);
    assert Rebuilt(numbers, pieces, heads, order);
    ArrivedInbox(numbers, pieces, heads, order);
    EndsReceivable(heads, pieces);
    BufferRead(msgs, numbers, pieces + [""], heads, order, Escape(Concat(pieces)));
    LettersRead(heads, pieces);
  }

  lemma {:induction false} BufferRead(msgs: seq<Message>, numbers: seq<nat>, parts: seq<string>, heads: seq<Header>, order: seq<int>, text: string)
    requires AllStream(heads) && Inbox(msgs, numbers, parts, heads, order) && Receivables(heads, parts)
    requires Deliver(map[], msgs) == (Waits(|msgs| - 1) + [Infer(text)], map[])
    ensures Complete(Gather(msgs)) && Row(Contents(Gather(msgs))) == text
  {
    BufferDecides(msgs, numbers, parts, heads, order);
    LastReply(Waits(|msgs| - 1), Verdict(Gather(msgs)), Infer(text));
    JoinedWhole(Gather(msgs), Contents(Gather(msgs)));
  }

  lemma {:induction false} JoinedWhole(buff: Buff, texts: seq<string>)
    requires forall k :: 0 <= k < |texts| ==> k in buff && buff[k] == texts[k]
    ensures Joined(buff, |texts|) == Row(texts)
  {
    JoinedRow(buff, texts, |texts|);
    assert texts[..|texts|] == texts;
  }

  lemma {:induction false} JoinedRow(buff: Buff, texts: seq<string>, n: nat)
    requires n <= |texts| && forall k :: 0 <= k < n ==> k in buff && buff[k] == texts[k]
    ensures Joined(buff, n) == Row(texts[..n])
  {
    if n > 0 {
      JoinedRow(buff, texts, n - 1);
      assert texts[..n][..n - 1] == texts[..n - 1];
    }
  }

  lemma {:induction false} BufferPlaces(msgs: seq<Message>, buff: Buff, numbers: seq<nat>, parts: seq<string>, heads: seq<Header>, order: seq<int>)
    requires Inbox(msgs, numbers, parts, heads, order) && buff == Gather(msgs) && Complete(buff) && Letters(parts)
    ensures |buff| <= |numbers| && (forall v :: 0 <= v < |buff| <==> v in numbers)
    ensures forall v :: 0 <= v < |buff| ==> |buff[v]| <= if v == numbers[|parts| - 1] then 0 else 1
    ensures Permutation(numbers) ==> forall k :: 0 <= k < |numbers| && numbers[k] < |buff| ==> buff[numbers[k]] == parts[k]
  {
    InboxLetters(msgs, numbers, parts, heads, order);
    NumbersGathered(msgs, numbers, parts, heads, order);
    SubsetSize(Below(|buff|), buff.Keys);
    if Permutation(numbers) {
      forall k | 0 <= k < |numbers| ensures numbers[k] in buff && buff[numbers[k]] == parts[k] {
        NumberHolds(msgs, numbers, parts, heads, order, k);
      }
    }
  }

  lemma {:induction false} InboxLetters(msgs: seq<Message>, numbers: seq<nat>, parts: seq<string>, heads: seq<Header>, order: seq<int>)
    requires Inbox(msgs, numbers, parts, heads, order) && Letters(parts)
    ensures |Gather(msgs)| <= |numbers| && forall k :: k in Gather(msgs) ==> |Gather(msgs)[k]| <= 1
    ensures numbers[|parts| - 1] in Gather(msgs) && Gather(msgs)[numbers[|parts| - 1]] == ""
  {
    forall j | 0 <= j < |msgs| ensures Letter(msgs[j].chunk.delta) {
      CallLetter(msgs[j], numbers, parts, heads, order[j]);
    }
    CallLetter(msgs[|msgs| - 1], numbers, parts, heads, order[|msgs| - 1]);
    LettersGathered(msgs);
  }

  lemma {:induction false} CallLetter(m: Message, numbers: seq<nat>, parts: seq<string>, heads: seq<Header>, k: int)
    requires IsCall(m, numbers, parts, heads, k) && Letters(parts)
    ensures Letter(m.chunk.delta) && m.chunk.index == numbers[k] && m.chunk.delta == parts[k]
  {
  }

  lemma {:induction false} NumberHolds(msgs: seq<Message>, numbers: seq<nat>, parts: seq<string>, heads: seq<Header>, order: seq<int>, k: nat)
    requires Inbox(msgs, numbers, parts, heads, order) && Permutation(numbers) && k < |numbers| && Letter(parts[k])
    ensures numbers[k] in Gather(msgs) && Gather(msgs)[numbers[k]] == parts[k]
  {
    assert k in order;
    var j :| 0 <= j < |order| && order[j] == k;
    forall i | j < i < |msgs| ensures msgs[i].chunk.index != msgs[j].chunk.index {
      OnceOnly(order, j, i);
      OnceOnly(numbers, if k < order[i] then k else order[i], if k < order[i] then order[i] else k);
      assert IsCall(msgs[i], numbers, parts, heads, order[i]) && IsCall(msgs[j], numbers, parts, heads, order[j]);
    }
    assert IsCall(msgs[j], numbers, parts, heads, order[j]);
    GatherLast(msgs, j);
    LetterPasses(heads[k], parts[k]);
  }

  /** The last message with a number decides what it holds. */
  lemma {:induction false} GatherLast(msgs: seq<Message>, j: nat)
    requires j < |msgs| && forall i :: j < i < |msgs| ==> msgs[i].chunk.index != msgs[j].chunk.index
    ensures msgs[j].chunk.index in Gather(msgs) && Gather(msgs)[msgs[j].chunk.index] == ReadText(msgs[j].chunk.delta)
    decreases |msgs|
  {
    if j < |msgs| - 1 {
      GatherLast(msgs[..|msgs| - 1], j);
    }
  }

  lemma {:induction false} LettersRead(heads: seq<Header>, pieces: seq<string>)
    requires |heads| >= |pieces| && Letters(pieces)
    ensures Row(pieces) == Escape(Concat(pieces))
  {
    ReadsWhole(pieces);
    forall k | 0 <= k < |pieces| ensures !EndsWith(pieces[k], "\\") && ReadText(pieces[k]) == pieces[k] {
      LetterPasses(heads[k], pieces[k]);
    }
    ReadsRow(pieces);
  }

  lemma {:induction false} ReadsRow(pieces: seq<string>)
    requires forall k :: 0 <= k < |pieces| ==> ReadText(pieces[k]) == pieces[k]
    ensures ReadAll(pieces) == Row(pieces)
    decreases |pieces|
  {
    if pieces != [] {
      ReadsRow(pieces[..|pieces| - 1]);
    }
  }

  lemma {:induction false} LettersGathered(msgs: seq<Message>)
    requires forall j :: 0 <= j < |msgs| ==> Letter(msgs[j].chunk.delta)
    ensures |Gather(msgs)| <= |msgs| && forall k :: k in Gather(msgs) ==> |Gather(msgs)[k]| <= 1
    ensures msgs != [] && msgs[|msgs| - 1].chunk.delta == "" ==>
              msgs[|msgs| - 1].chunk.index in Gather(msgs) && Gather(msgs)[msgs[|msgs| - 1].chunk.index] == ""
    decreases |msgs|
  {
    if msgs != [] {
      var c := msgs[|msgs| - 1].chunk;
      LettersGathered(msgs[..|msgs| - 1]);
      LetterLength(c.delta);
    }
  }

  lemma {:induction false} LetterLength(d: string)
    requires Letter(d)
    ensures |ReadText(d)| == |d|
  {
    if d != "" {
      LetterEscaped(d);
    }
  }

  // ---------------------------------------------------------------- one counter for all tasks

  /** The chunks that go out for a task. */
  function TaskChunks(count: nat, calls: seq<Call>, task: int): seq<Chunk> {
    if calls == [] then []
    else
      var most, last := calls[..|calls| - 1], calls[|calls| - 1];
      TaskChunks(count, most, task)
      + if last.slot.task == task then [SendOne(SendRun(count, most).1, last.data, last.slot.finish).0] else []
  }

  lemma {:induction false} RunCounts(count: nat, calls: seq<Call>)
    ensures SendRun(count, calls).1 == Counter(count, Slots(calls))
    decreases |calls|
  {
    if calls != [] {
      SlotsMost(calls);
      RunCounts(count, calls[..|calls| - 1]);
    }
  }

  lemma {:induction false} TaskChunksAre(count: nat, calls: seq<Call>, task: int)
    ensures var chunks, numbers, f, texts :=
              TaskChunks(count, calls, task), Numbers(count, Slots(calls), task), Finishes(Slots(calls), task), Said(calls, task);
            && |chunks| == |numbers| == |f| == |texts|
            && forall k :: 0 <= k < |chunks| ==> chunks[k] == Chunk(numbers[k], if f[k] then "" else texts[k], f[k])
    decreases |calls|
  {
    if calls != [] {
      SlotsMost(calls);
      RunCounts(count, calls[..|calls| - 1]);
      TaskChunksAre(count, calls[..|calls| - 1], task);
    }
  }

  lemma {:induction false} TaskNumbered(count: nat, calls: seq<Call>, task: int)
    requires OneAnswer(Slots(calls), task)
    ensures |Said(calls, task)| == |Numbers(count, Slots(calls), task)| == |Pieces(calls, task)| + 1
    ensures TaskChunks(count, calls, task) == Numbered(Numbers(count, Slots(calls), task), Pieces(calls, task))
  {
    TaskChunksAre(count, calls, task);
  }

  /** One task's answer among the calls of all tasks, its chunks in messages that arrive in this order. */
  ghost predicate Answering(count: nat, slots: seq<Slot>, task: int, heads: seq<Header>, order: seq<int>) {
    heads != [] && AllStream(heads) && OneAnswer(slots, task) && Setting(Numbers(count, slots, task), heads, order, |heads| - 1)
  }

  ghost function TaskDelivered(count: nat, calls: seq<Call>, task: int, heads: seq<Header>, order: seq<int>): (seq<Reply>, Buff)
    requires Answering(count, Slots(calls), task, heads, order)
  {
    TaskNumbered(count, calls, task);
    Deliver(map[], Arrived(TaskChunks(count, calls, task), heads, order))
  }

  ghost predicate TaskRebuilt(count: nat, calls: seq<Call>, task: int, heads: seq<Header>, order: seq<int>)
    requires Answering(count, Slots(calls), task, heads, order)
  {
    TaskNumbered(count, calls, task);
    Receivables(heads, Pieces(calls, task)) ==>
      TaskDelivered(count, calls, task, heads, order) == (Expected(Pieces(calls, task)), map[])
  }

  ghost predicate AllRebuilt(count: nat, slots: seq<Slot>, task: int, heads: seq<Header>, order: seq<int>)
    requires Answering(count, slots, task, heads, order)
  {
    forall calls :: Slots(calls) == slots ==> TaskRebuilt(count, calls, task, heads, order)
  }

  /** However the calls of other tasks fall between those of one task: its answer is rebuilt, for all receivable
      pieces, exactly when the counter numbers its calls in turn. */
  lemma {:induction false} InterleavedRebuilt(count: nat, slots: seq<Slot>, task: int, heads: seq<Header>, order: seq<int>)
    requires Answering(count, slots, task, heads, order)
    ensures AllRebuilt(count, slots, task, heads, order) <==> InTurn(Numbers(count, slots, task))
  {
    NumbersDecide(Numbers(count, slots, task), heads, order, |heads| - 1);
    if InTurn(Numbers(count, slots, task)) {
      AllCalls(count, slots, task, heads, order);
    } else if AllRebuilt(count, slots, task, heads, order) {
      AllPieces(count, slots, task, heads, order);
    }
  }

  lemma {:induction false} AllCalls(count: nat, slots: seq<Slot>, task: int, heads: seq<Header>, order: seq<int>)
    requires Answering(count, slots, task, heads, order)
    requires AlwaysRebuilt(Numbers(count, slots, task), heads, order, |heads| - 1)
    ensures AllRebuilt(count, slots, task, heads, order)
  {
    forall calls | Slots(calls) == slots ensures TaskRebuilt(count, calls, task, heads, order) {
      TaskIsNumbered(count, calls, task, heads, order);
    }
  }

  lemma {:induction false} AllPieces(count: nat, slots: seq<Slot>, task: int, heads: seq<Header>, order: seq<int>)
    requires Answering(count, slots, task, heads, order) && AllRebuilt(count, slots, task, heads, order)
    ensures AlwaysRebuilt(Numbers(count, slots, task), heads, order, |heads| - 1)
  {
    forall pieces: seq<string> | |pieces| == |heads| - 1 && Receivables(heads, pieces)
      ensures Rebuilt(Numbers(count, slots, task), pieces, heads, order)
    {
      SpokenRebuilt(count, slots, task, heads, order, pieces);
    }
  }

  lemma {:induction false} SpokenRebuilt(count: nat, slots: seq<Slot>, task: int, heads: seq<Header>, order: seq<int>, pieces: seq<string>)
    requires Answering(count, slots, task, heads, order) && AllRebuilt(count, slots, task, heads, order)
    requires |pieces| + 1 == |heads| && Receivables(heads, pieces)
    ensures Rebuilt(Numbers(count, slots, task), pieces, heads, order)
  {
    var calls := Speaking(count, slots, task, pieces);
    assert TaskRebuilt(count, calls, task, heads, order);
    TaskIsNumbered(count, calls, task, heads, order);
  }

  lemma {:induction false} TaskIsNumbered(count: nat, calls: seq<Call>, task: int, heads: seq<Header>, order: seq<int>)
    requires Answering(count, Slots(calls), task, heads, order)
    ensures var numbers := Numbers(count, Slots(calls), task);
            && |Pieces(calls, task)| + 1 == |numbers|
            && TaskDelivered(count, calls, task, heads, order)
                 == Deliver(map[], Arrived(Numbered(numbers, Pieces(calls, task)), heads, order))
            && (TaskRebuilt(count, calls, task, heads, order) <==>
                  (Receivables(heads, Pieces(calls, task)) ==> Rebuilt(numbers, Pieces(calls, task), heads, order)))
  {
    TaskNumbered(count, calls, task);
  }

  /** It ends in an index error exactly when the numbers have a gap. Out of turn without a gap it is damaged and
      no error tells. */
  lemma {:induction false} InterleavedError(count: nat, calls: seq<Call>, task: int, heads: seq<Header>, order: seq<int>)
    requires Answering(count, Slots(calls), task, heads, order)
    requires |heads| >= |Pieces(calls, task)| && Receivables(heads, Pieces(calls, task))
    ensures TaskDelivered(count, calls, task, heads, order) == (Waits(|Pieces(calls, task)|) + [IndexError()], map[])
       <==> !NoGap(Numbers(count, Slots(calls), task))
  {
    var numbers, pieces := Numbers(count, Slots(calls), task), Pieces(calls, task);
    TaskIsNumbered(count, calls, task, heads, order);
    NumberedError(numbers, pieces, heads, order);
  }

  /** Without a gap and out of turn: numbered as in `SilentLoss`, an answer loses its first piece, and no error
      tells. */
  lemma {:induction false} FirstPieceLost(numbers: seq<nat>, pieces: seq<string>, heads: seq<Header>, order: seq<int>)
    requires AllStream(heads) && Setting(numbers, heads, order, |pieces|) && Receivables(heads, pieces) && |pieces| == 2
    requires numbers[0] == 1 && numbers[1] == 0 && numbers[2] == 1 && order[0] == 0 && order[1] == 1 && order[2] == 2
    ensures Deliver(map[], Arrived(Numbered(numbers, pieces), heads, order)) == (Waits(2) + [Infer(ReadText(pieces[1]))], map[])
  {
    var msgs := Arrived(Numbered(numbers, pieces), heads, order);
    EmptyPasses(heads[0]);
    EndsReceivable(heads, pieces);
    ArrivedInbox(numbers, pieces, heads, order);
    BufferDecides(msgs, numbers, pieces + [""], heads, order);
    FirstOverwritten(msgs, pieces[1]);
  }

  lemma {:induction false} FirstOverwritten(msgs: seq<Message>, b: string)
    requires |msgs| == 3 && msgs[0].chunk.index == msgs[2].chunk.index == 1 && msgs[1].chunk.index == 0
    requires msgs[1].chunk.delta == b && msgs[2].chunk.delta == "" && ReadText("") == ""
    ensures Verdict(Gather(msgs)) == Infer(ReadText(b))
  {
    var q := Indices(msgs);
    GatherLast(msgs, 1);
    GatherLast(msgs, 2);
    GatherIndices(msgs);
    assert q[0] == 1 && q[1] == 0 && q[2] == 1;
    TwoJoined(Gather(msgs), ReadText(b));
  }

  lemma {:induction false} TwoJoined(buff: Buff, text: string)
    requires (forall k :: k in buff <==> k == 0 || k == 1) && buff[0] == text && buff[1] == ""
    ensures Verdict(buff) == Infer(text)
  {
    assert buff.Keys == Below(2) && |buff| == |buff.Keys|;
    assert Joined(buff, 0) == "" && Joined(buff, 1) == "" + text && Joined(buff, 2) == ("" + text) + "";
  }

  // ---------------------------------------------------------------- answers sent in a row

  function From(count: nat, n: nat): (numbers: seq<nat>)
    ensures |numbers| == n && forall k :: 0 <= k < n ==> numbers[k] == count + k
  {
    seq(n, k => count + k)
  }

  /** An answer streamed in a row has consecutive numbers. */
  lemma {:induction false} RowNumbered(count: nat, task: int, pieces: seq<string>, final: string)
    ensures SendRun(count, AnswerCalls(task, pieces, final)) == (Numbered(From(count, |pieces| + 1), pieces), 0)
  {
    AnswerNumbered(count, task, pieces, final);
    assert NumberedFrom(count, pieces) + [Chunk(count + |pieces|, "", true)] == Numbered(From(count, |pieces| + 1), pieces);
  }

  /** The chunks of an answer streamed in a row from a counter of 0. */
  function Sent(pieces: seq<string>, final: string): (chunks: seq<Chunk>)
    ensures chunks == Numbered(From(0, |pieces| + 1), pieces)
  {
    RowNumbered(0, 0, pieces, final);
    SendRun(0, AnswerCalls(0, pieces, final)).0
  }

  /** A streamed answer, sent in messages and received in any order with the finishing one last, is rebuilt as
      printed, and the buffer is empty again: exactly when every piece is receivable in its message. */
  lemma {:induction false} AnswerRebuilt(pieces: seq<string>, final: string, heads: seq<Header>, order: seq<int>)
    requires |pieces| <= INT_MAX && ArrivalOrder(order, |pieces|) && |heads| == |pieces| + 1 && AllStream(heads)
    ensures Deliver(map[], Arrived(Sent(pieces, final), heads, order)) == (Expected(pieces), map[])
       <==> Receivables(heads, pieces)
  {
    var numbers := From(0, |pieces| + 1);
    InTurnRebuilt(numbers, pieces, heads, order);
  }

  /** Started while the counter is not 0, because another task's answer is under way, it ends in an index error. */
  lemma {:induction false} LateAnswerFails(count: nat, task: int, pieces: seq<string>, final: string, heads: seq<Header>, order: seq<int>)
    requires 0 < count && count + |pieces| <= INT_MAX && ArrivalOrder(order, |pieces|) && |heads| == |pieces| + 1
    requires AllStream(heads) && Receivables(heads, pieces)
    ensures |SendRun(count, AnswerCalls(task, pieces, final)).0| == |heads|
    ensures Deliver(map[], Arrived(SendRun(count, AnswerCalls(task, pieces, final)).0, heads, order))
         == (Waits(|pieces|) + [IndexError()], map[])
  {
    RowNumbered(count, task, pieces, final);
    LateNumbersFail(From(count, |pieces| + 1), pieces, heads, order);
  }

  lemma {:induction false} LateNumbersFail(numbers: seq<nat>, pieces: seq<string>, heads: seq<Header>, order: seq<int>)
    requires AllStream(heads) && Setting(numbers, heads, order, |pieces|) && Receivables(heads, pieces)
    requires forall k :: 0 <= k < |numbers| ==> numbers[k] > 0
    ensures Deliver(map[], Arrived(Numbered(numbers, pieces), heads, order)) == (Waits(|pieces|) + [IndexError()], map[])
  {
    assert numbers[0] in numbers && 0 !in numbers;
    NumberedError(numbers, pieces, heads, order);
  }

  /** With balanced ids and response format in the headers, a piece comes through exactly when its text does
      not end like a quoted name or in a backslash, never closes a brace it has not opened, and leaves at most
      one open. */
  lemma {:induction false} UsualAnswerRebuilt(pieces: seq<string>, final: string, heads: seq<Header>, order: seq<int>)
    requires |pieces| <= INT_MAX && ArrivalOrder(order, |pieces|) && |heads| == |pieces| + 1 && AllStream(heads)
    requires forall k :: 0 <= k < |heads| ==> Balanced(heads[k].object_) && Balanced(heads[k].requestId) && Balanced(heads[k].workId)
    ensures Deliver(map[], Arrived(Sent(pieces, final), heads, order)) == (Expected(pieces), map[])
       <==> forall k :: 0 <= k < |pieces| ==> UsualPiece(pieces[k])
  {
    AnswerRebuilt(pieces, final, heads, order);
    UsualPieces(heads, pieces);
  }

  lemma {:induction false} UsualPieces(heads: seq<Header>, pieces: seq<string>)
    requires |heads| >= |pieces|
    requires forall k :: 0 <= k < |heads| ==> Balanced(heads[k].object_) && Balanced(heads[k].requestId) && Balanced(heads[k].workId)
    ensures Receivables(heads, pieces) <==> forall k :: 0 <= k < |pieces| ==> UsualPiece(pieces[k])
  {
    if Receivables(heads, pieces) {
      forall k | 0 <= k < |pieces| ensures UsualPiece(pieces[k]) {
        UsualIs(heads[k], pieces[k]);
      }
    }
    if forall k :: 0 <= k < |pieces| ==> UsualPiece(pieces[k]) {
      forall k | 0 <= k < |pieces| ensures Receivable(heads[k], pieces[k]) {
        UsualIs(heads[k], pieces[k]);
      }
    }
  }

  lemma {:induction false} UsualIs(h: Header, d: string)
    requires Balanced(h.object_) && Balanced(h.requestId) && Balanced(h.workId)
    ensures Receivable(h, d) <==> UsualPiece(d)
  {
    UsualHeader(h);
  }

  ghost predicate UsualPiece(d: string) {
    && !EndsLikeKey(d, "object") && !EndsLikeKey(d, "index") && !EndsLikeKey(d, "finish") && !EndsWith(d, "\\")
    && NeverClosed(d) && Depth(d) <= 1
  }

  /** A piece may open one brace; closing one, or being a field's name, loses the answer. */
  lemma {:induction false} BracePieces()
    ensures UsualPiece("{") && !UsualPiece("}") && !UsualPiece("object")
  {
    BraceDepths();
    assert "{"[..0] == "" && "{"[..1] == "{" && "}"[..1] == "}";
  }

  datatype Answer = Answer(task: int, pieces: seq<string>, final: string, heads: seq<Header>, order: seq<int>)

  ghost predicate Sendable(a: Answer)
    requires |a.heads| == |a.pieces| + 1
  {
    |a.pieces| <= INT_MAX && AllStream(a.heads) && Receivables(a.heads, a.pieces)
  }

  ghost predicate Orderly(a: Answer) { |a.heads| == |a.pieces| + 1 && ArrivalOrder(a.order, |a.pieces|) }

  ghost predicate Ordered(answers: seq<Answer>) { forall i :: 0 <= i < |answers| ==> Orderly(answers[i]) }

  /** One answer sent and received, starting from a counter and a buffer. */
  ghost function Exchange(count: nat, buff: Buff, a: Answer): (seq<Reply>, nat, Buff)
    requires Orderly(a)
  {
    RowNumbered(count, a.task, a.pieces, a.final);
    var sent := SendRun(count, AnswerCalls(a.task, a.pieces, a.final));
    var got := Deliver(buff, Arrived(sent.0, a.heads, a.order));
    (got.0, sent.1, got.1)
  }

  /** Answers streamed one after another over the same counter and buffer. */
  ghost function Converse(answers: seq<Answer>): (seq<Reply>, nat, Buff)
    requires Ordered(answers)
  {
    if answers == [] then ([], 0, map[])
    else
      assert Orderly(answers[|answers| - 1]);
      var before := Converse(answers[..|answers| - 1]);
      if Over(before.0) then before
      else
        var last := Exchange(before.1, before.2, answers[|answers| - 1]);
        (before.0 + last.0, last.1, last.2)
  }

  function AllExpected(answers: seq<Answer>): seq<Reply> {
    if answers == [] then [] else AllExpected(answers[..|answers| - 1]) + Expected(answers[|answers| - 1].pieces)
  }

  lemma {:induction false} NotOver(answers: seq<Answer>)
    ensures !Over(AllExpected(answers))
  {
    if answers != [] {
      assert AllExpected(answers)[|AllExpected(answers)| - 1] == Infer(Escape(Concat(answers[|answers| - 1].pieces)));
    }
  }

  lemma {:induction false} Exchanged(count: nat, buff: Buff, a: Answer)
    requires Orderly(a) && Sendable(a) && count == 0 && buff == map[]
    ensures Exchange(count, buff, a) == (Expected(a.pieces), 0, map[])
  {
    RowNumbered(count, a.task, a.pieces, a.final);
    RowDelivered(From(count, |a.pieces| + 1), buff, a.pieces, a.heads, a.order);
  }

  lemma {:induction false} RowDelivered(numbers: seq<nat>, buff: Buff, pieces: seq<string>, heads: seq<Header>, order: seq<int>)
    requires AllStream(heads) && Setting(numbers, heads, order, |pieces|) && InTurn(numbers) && Receivables(heads, pieces) && buff == map[]
    ensures Deliver(buff, Arrived(Numbered(numbers, pieces), heads, order)) == (Expected(pieces), map[])
  {
    InTurnRebuilt(numbers, pieces, heads, order);
  }

  /** Every one of a sequence of answers is rebuilt. */
  lemma {:induction false} EveryAnswerRebuilt(answers: seq<Answer>)
    requires Ordered(answers) && forall i :: 0 <= i < |answers| ==> Sendable(answers[i])
    ensures Converse(answers) == (AllExpected(answers), 0, map[])
    decreases |answers|
  {
    if answers != [] {
      var most, a := answers[..|answers| - 1], answers[|answers| - 1];
      EveryAnswerRebuilt(most);
      NotOver(most);
      assert Orderly(a) && Sendable(a);
      Exchanged(0, map[], a);
      OneMoreAnswer(answers, most, a, AllExpected(most), Expected(a.pieces));
    }
  }

  lemma {:induction false} OneMoreAnswer(answers: seq<Answer>, most: seq<Answer>, a: Answer, before: seq<Reply>, last: seq<Reply>)
    requires answers != [] && most == answers[..|answers| - 1] && a == answers[|answers| - 1] && Ordered(answers) && Orderly(a)
    requires Converse(most) == (before, 0, map[]) && !Over(before) && Exchange(0, map[], a) == (last, 0, map[])
    ensures Converse(answers) == (before + last, 0, map[])
  {
  }
}

/** The two objects that keep the static variables: the sending node's counter, the receiving node's buffer. */
module Streams {
  import opened Common
  import opened Text
  import opened JsonScan
  import C = ChunkModel
  import P = MessageModel
  import J = JsonText
  import S = StreamModel

  class Sender {
    var count: nat

    constructor ()
      ensures count == 0
    {
      count := 0;
    }

    /** `task_output`: a streamed piece in its message, a whole answer in one, or nothing yet. */
    method TaskOutput(head: P.Header, enstream: bool, data: string, finish: bool) returns (text: Option<string>)
      modifies this
      ensures var sent := S.SendOne(old(count), data, finish);
              if enstream then text == Some(S.Raw(S.Message(head, sent.0))) && count == sent.1
              else text == (if finish then Some(P.WholeAnswer(head, data)) else None) && count == old(count)
    {
      if enstream {
        var index := count;
        count := count + 1;
        var delta := data;
        if finish {
          delta := "";
        }
        var body := C.PrintChunk(C.Chunk(index, delta, finish));
        if finish {
          count := 0;
        }
        return Some(P.PrintMessage(head, Object(body)));
      } else if finish {
        return Some(P.PrintMessage(head, Quoted(J.Escape(data))));
      }
      return None;
    }
  }

  class Receiver {
    var buff: map<int, string>

    constructor ()
      ensures buff == map[]
    {
      buff := map[];
    }

    /** `decode_stream`. */
    method DecodeStream(input: string) returns (r: C.Decoded)
      modifies this
      ensures (r, buff) == C.Decode(old(buff), input)
    {
      var index := Stoi(JsonGet(input, "index"));
      if index.None? {
        return C.Thrown;
      }
      var finish := JsonGet(input, "finish");
      buff := buff[index.value := JsonGet(input, "delta")];
      var flag := Find(finish, "f", 0);
      if flag.Some? {
        return C.More;
      }
      var out := Concatenate();
      if out.None? {
        return C.Thrown;
      }
      buff := map[];
      return C.Finished(out.value);
    }

    /** Its loop; `None` stands for the exception of `at`. */
    method Concatenate() returns (out: Option<string>)
      ensures out == if C.Complete(buff) then Some(C.Joined(buff, |buff|)) else None
    {
      var text, i := "", 0;
      while i < |buff|
        invariant 0 <= i <= |buff|
        invariant forall k :: 0 <= k < i ==> k in buff
        invariant text == C.Joined(buff, i)
      {
        if i !in buff {
          return None;
        }
        text := text + buff[i];
        i := i + 1;
      }
      return Some(text);
    }

    /** `task_user_data`, up to the call of the inference. */
    method TaskUserData(object_: string, data: string) returns (r: C.Reply)
      modifies this
      ensures (r, buff) == C.UserData(old(buff), object_, data)
      ensures data != "" && data != "None" && Find(object_, "stream", 0).None? ==> r == C.Infer(data) && buff == old(buff)
    {
      if data == "" || data == "None" {
        return C.NoData();
      }
      var streamed := Find(object_, "stream", 0);
      if streamed.None? {
        return C.Infer(data);
      }
      var decoded := DecodeStream(data);
      match decoded
      case More => r := C.Wait;
      case Finished(text) => r := C.Infer(text);
      case Thrown =>
        buff := map[];
        r := C.IndexError();
    }

    /** A message as `subscriber_event_call` hands it on. */
    method ReceiveMessage(raw: string) returns (r: C.Reply)
      modifies this
      ensures (r, buff) == P.Receive(old(buff), raw)
    {
      r := TaskUserData(JsonGet(raw, "object"), JsonGet(raw, "data"));
    }
  }
}
