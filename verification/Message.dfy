/** The message that `llm_channel_obj::send` of infra-controller/include/channel.h prints around its data, and
    what `subscriber_event_call` of infra-controller/src/channel.cpp hands to a receiving node. */
module MessageModel {
  import opened Common
  import opened Text
  import opened JsonScan
  import opened JsonText
  import opened ChunkModel

  /** The fields beside the data: the clock, and the sending channel's ids and response format. */
  datatype Header = Header(created: nat, object_: string, requestId: string, workId: string)

  function CreatedField(h: Header): Field { Field("created", Bare(ToString(h.created))) }

  /** The error field when there is no error. */
  function NoError(): seq<Field> { [Field("code", Bare("0")), Field("message", Quoted(""))] }

  function HeaderRest(h: Header): seq<Field> {
    [Field("error", Object(PrintObject(COMPACT, NoError()))), Field("object", Quoted(Escape(h.object_))),
     Field("request_id", Quoted(Escape(h.requestId))), Field("work_id", Quoted(Escape(h.workId)))]
  }

  function MessageFields(h: Header, data: Value): seq<Field> { [CreatedField(h), Field("data", data)] + HeaderRest(h) }

  /** `send`: the printed message and a line feed; the printer orders the keys. */
  function PrintMessage(h: Header, data: Value): string { PrintObject(COMPACT, MessageFields(h, data)) + "\n" }

  /** What `subscriber_event_call` passes on, into `task_user_data`. */
  ghost function Receive(buff: Buff, raw: string): (Reply, Buff) {
    UserData(buff, JsonGet(raw, "object"), JsonGet(raw, "data"))
  }

  // ---------------------------------------------------------------- the data field

  function Head(h: Header): string { "{" + (PrintField(COMPACT, CreatedField(h)) + ",") }

  /** Everything behind the data. */
  function Tail(h: Header): string { "," + PrintFields(COMPACT, HeaderRest(h)) + "\n" }

  lemma MessageText(h: Header, data: Value)
    ensures PrintMessage(h, data) == Head(h) + Quote("data") + (":" + (Printed(data) + Tail(h)))
  {
    var fs := MessageFields(h, data);
    assert fs[1..] == [Field("data", data)] + HeaderRest(h);
    assert fs[1..][1..] == HeaderRest(h);
    assert PrintFields(COMPACT, fs[1..]) == PrintField(COMPACT, fs[1]) + ("," + "") + PrintFields(COMPACT, HeaderRest(h));
    assert PrintFields(COMPACT, fs) == PrintField(COMPACT, fs[0]) + ("," + "") + PrintFields(COMPACT, fs[1..]);
    JoinMessage(PrintField(COMPACT, fs[0]), Quote("data"), Printed(data), PrintFields(COMPACT, HeaderRest(h)));
  }

  lemma JoinMessage(first: string, name: string, data: string, rest: string)
    ensures "{" + (first + ("," + "") + (name + (":" + "" + data) + ("," + "") + rest)) + "\n"
         == "{" + (first + ",") + name + (":" + (data + ("," + rest + "\n")))
  {
  }

  lemma CreatedLacks(h: Header, k: string)
    requires QuoteFree(k) && k != "created"
    ensures FieldLacks(CreatedField(h), k)
  {
    OtherQuote("created", k);
    NumberReadable(h.created);
    TokenLacks(ToString(h.created), k);
  }

  lemma HeadLacks(h: Header, k: string)
    requires QuoteFree(k) && SeparatorFree(k) && k != "created"
    ensures !Contains(Head(h), Quote(k)) && Head(h)[|Head(h)| - 1] == ','
  {
    CreatedLacks(h, k);
    FieldClean(COMPACT, CreatedField(h), k);
    assert !Contains("", Quote(k));
    var f := PrintField(COMPACT, CreatedField(h));
    SplitClean(f, ',', "", k);
    assert f + [','] + "" == f + ",";
    SplitClean("", '{', f + ",", k);
    assert "" + ['{'] + (f + ",") == Head(h);
  }

  lemma {:induction false} DataIsFirst(h: Header, data: Value)
    ensures Find(PrintMessage(h, data), Quote("data"), 0) == Some(|Head(h)|)
    ensures PrintMessage(h, data)[|Head(h)| + |Quote("data")|..] == ":" + (Printed(data) + Tail(h))
  {
    MessageText(h, data);
    HeadLacks(h, "data");
    FirstAfterClean(Head(h), "data", ":" + (Printed(data) + Tail(h)));
    DropTwo(Head(h), Quote("data"), ":" + (Printed(data) + Tail(h)));
  }

  lemma DropTwo(a: string, b: string, c: string)
    ensures (a + b + c)[|a| + |b|..] == c
  {
  }

  /** An object is read up to where its braces balance, which may lie inside it, behind it, or nowhere. */
  lemma ReadsData(h: Header, body: string)
    requires body != "" && body[0] == '{'
    ensures JsonGet(PrintMessage(h, Object(body)), "data") == DataText(body + Tail(h))
  {
    DataIsFirst(h, Object(body));
    ScanBraces(PrintMessage(h, Object(body)), "data", |Head(h)|, body + Tail(h));
  }

  function DataText(t: string): string
    requires t != ""
  {
    match Closing(t, 1) case Some(n) => t[..n] case None => ""
  }

  // ---------------------------------------------------------------- a chunk as data

  /** The printed chunk up to where its delta's text ends. */
  function DeltaHead(c: Chunk): string { ("{" + Quote("delta")) + [':'] + ("\"" + Escape(c.delta)) }

  /** The depth after `i` characters of a printed chunk and what follows it, where the delta `e` ends at `n`
      and the chunk at `m`. */
  function SpineDepth(e: string, more: string, n: nat, m: nat, i: nat): int
    requires |e| <= n < m && i <= m + |more|
  {
    if i < n - |e| then 1
    else if i <= n then 1 + Depth(e[..i - (n - |e|)])
    else if i < m then 1 + Depth(e)
    else Depth(e) + Depth(more[..i - m])
  }

  ghost predicate Spine(t: string, e: string, more: string, n: nat, m: nat) {
    && |e| < n < m && |t| == m + |more| && t[0] == '{'
    && forall i :: 0 < i <= |t| ==> Depth(t[..i]) == SpineDepth(e, more, n, m, i)
  }

  lemma ChunkSpine(c: Chunk, more: string)
    ensures var t, n, m := PrintChunk(c) + more, |DeltaHead(c)|, |PrintChunk(c)|;
            Spine(t, Escape(c.delta), more, n, m) && DeltaHead(c) == t[..n] && PrintChunk(c) == t[..m]
  {
    ChunkWrapped(c);
    WrappedWhole(PrintChunk(c), Quote("delta"), Escape(c.delta), FlatRest(c), more);
  }

  lemma WrappedWhole(chunk: string, name: string, e: string, r: string, more: string)
    requires chunk == "{" + ((name + [':', '"']) + e + (['"', ','] + r)) + "}"
    requires BraceFree(name + [':', '"']) && BraceFree(['"', ','] + r)
    ensures var t, head := chunk + more, ("{" + name) + [':'] + ("\"" + e);
            Spine(t, e, more, |head|, |chunk|) && |head| < |chunk| && head == t[..|head|] && chunk == t[..|chunk|]
  {
    WrappedSpine(name + [':', '"'], e, ['"', ','] + r, more);
    WrappedHead(name, e, r, more);
  }

  lemma WrappedSpine(a: string, e: string, b: string, more: string)
    requires BraceFree(a) && BraceFree(b) && b != ""
    ensures Spine(("{" + (a + e + b) + "}") + more, e, more, |a| + 1 + |e|, |a + e + b| + 2)
  {
    var t, n, m := ("{" + (a + e + b) + "}") + more, |a| + 1 + |e|, |a + e + b| + 2;
    forall i | 0 < i <= |t| ensures Depth(t[..i]) == SpineDepth(e, more, n, m, i) {
      WrappedDepth(a, e, b, more, i);
    }
  }

  lemma WrappedDepth(a: string, e: string, b: string, more: string, i: nat)
    requires BraceFree(a) && BraceFree(b) && 0 < i <= |("{" + (a + e + b) + "}") + more|
    ensures var t, m := ("{" + (a + e + b) + "}") + more, |a + e + b| + 2;
            Depth(t[..i]) == if i < |a| + 1 then 1 else if i <= |a| + 1 + |e| then 1 + Depth(e[..i - |a| - 1])
                             else if i < m then 1 + Depth(e) else Depth(e) + Depth(more[..i - m])
  {
    var x := a + e + b;
    var t := ("{" + x + "}") + more;
    BraceDepths();
    if i <= |x| + 1 {
      assert t[..i] == "{" + x[..i - 1];
      DepthSplits("{", x[..i - 1]);
      FlatPrefix(a, e, b, i - 1);
    } else {
      assert t[..i] == ("{" + x + "}") + more[..i - |x| - 2];
      DepthSplits("{" + x + "}", more[..i - |x| - 2]);
      DepthSplits("{" + x, "}");
      DepthSplits("{", x);
      FlatPrefix(a, e, b, |x|);
      assert x[..|x|] == x && e[..|e|] == e;
    }
  }

  lemma BraceDepths()
    ensures Depth("{") == 1 && Depth("}") == -1
  {
    assert "{"[..0] == "" && "}"[..0] == "";
  }

  lemma WrappedHead(name: string, e: string, r: string, more: string)
    ensures var t, head := ("{" + ((name + [':', '"']) + e + (['"', ','] + r)) + "}") + more, ("{" + name) + [':'] + ("\"" + e);
            |head| < |t| - |more| && head == t[..|head|]
  {
  }

  /** The braces of the delta stay closed enough for the data to be read to the end of the chunk or beyond:
      they never close before they open, and the text behind the chunk closes what they leave open. */
  ghost predicate BracesPass(h: Header, d: string) { NeverClosed(d) && Depth(d) + Lowest(Tail(h)) <= 0 }

  /** What the receiver gets as data for a printed chunk: a text cut inside the delta, the chunk with or
      without more behind it, or nothing. */
  lemma ChunkData(h: Header, c: Chunk)
    ensures var d, m := JsonGet(PrintMessage(h, Object(PrintChunk(c))), "data"), PrintChunk(c);
            if !NeverClosed(c.delta) then d != "" && d <= DeltaHead(c)
            else if BracesPass(h, c.delta) then m <= d else d == ""
    ensures JsonGet(PrintMessage(h, Object(PrintChunk(c))), "data") == PrintChunk(c) <==> Balanced(c.delta)
  {
    ChunkSpine(c, Tail(h));
    ReadsData(h, PrintChunk(c));
    EscapeKeepsDepth(c.delta);
    SpineCloses(PrintChunk(c) + Tail(h), Escape(c.delta), Tail(h), |DeltaHead(c)|, |PrintChunk(c)|);
  }

  lemma SpineCloses(t: string, e: string, more: string, n: nat, m: nat)
    requires Spine(t, e, more, n, m)
    ensures var d := DataText(t);
            if !NeverClosed(e) then d != "" && d <= t[..n]
            else if Depth(e) + Lowest(more) <= 0 then t[..m] <= d else d == ""
    ensures DataText(t) == t[..m] <==> Depth(e) == 0 && NeverClosed(e)
  {
    if NeverClosed(e) {
      ClosesBehind(t, e, more, n, m);
    } else {
      ClosesInside(t, e, more, n, m);
    }
  }

  lemma ClosesInside(t: string, e: string, more: string, n: nat, m: nat)
    requires Spine(t, e, more, n, m) && !NeverClosed(e)
    ensures DataText(t) != "" && DataText(t) <= t[..n] && DataText(t) != t[..m]
  {
    var i :| 0 <= i <= |e| && Depth(e[..i]) < 0;
    PositiveBefore(t, 1);
    assert Depth(t[..n - |e| + i]) == SpineDepth(e, more, n, m, n - |e| + i) <= 0;
    var x := Closing(t, 1).value;
    assert x <= n && t[..x] == t[..n][..x];
  }

  lemma ClosesBehind(t: string, e: string, more: string, n: nat, m: nat)
    requires Spine(t, e, more, n, m) && NeverClosed(e)
    ensures if Depth(e) + Lowest(more) <= 0 then t[..m] <= DataText(t) else DataText(t) == ""
    ensures DataText(t) == t[..m] <==> Depth(e) == 0
  {
    PositiveBefore(t, 1);
    LowestIs(more);
    assert e[..|e|] == e && more[..0] == "";
    assert forall i :: 0 < i < m ==> SpineDepth(e, more, n, m, i) > 0;
    var r := Closing(t, 1);
    assert Depth(t[..m]) == Depth(e);
    if r.Some? {
      assert r.value >= m && Depth(e) + Depth(more[..r.value - m]) == 0;
      assert t[..m] == t[..r.value][..m];
    } else {
      var j :| 0 <= j <= |more| && Depth(more[..j]) == Lowest(more);
      assert Depth(t[..m + j]) == SpineDepth(e, more, n, m, m + j);
    }
  }

  /** A text cut inside the delta names no index. */
  lemma CutHasNoIndex(c: Chunk, d: string)
    requires d <= DeltaHead(c)
    ensures JsonGet(d, "index") == ""
  {
    HeadHasNoKey(c, "index");
    CutLacks(DeltaHead(c), d, Quote("index"));
    FindIsFirst(d, Quote("index"), 0);
  }

  lemma HeadHasNoKey(c: Chunk, k: string)
    requires SeparatorFree(k) && Plain(k) && k != "" && k != "delta"
    ensures !Contains(DeltaHead(c), Quote(k))
  {
    EscapeProtects(c.delta);
    DeltaHeadLacks(k);
    OpenTextLacks(Escape(c.delta), k);
    SplitClean("{" + Quote("delta"), ':', "\"" + Escape(c.delta), k);
  }

  lemma CutLacks(s: string, d: string, pat: string)
    requires d <= s && !Contains(s, pat)
    ensures !Contains(d, pat)
  {
    forall i: nat | OccursAt(d, pat, i) ensures false {
      assert d[i..i + |pat|] == s[i..i + |pat|];
      assert OccursAt(s, pat, i);
    }
  }

  // ---------------------------------------------------------------- the object field

  lemma ChunkLacks(c: Chunk, k: string)
    requires SeparatorFree(k) && Plain(k) && QuoteFree(k) && k != "" && k !in ["delta", "finish", "index"] && !EndsLikeKey(c.delta, k)
    ensures !Contains(PrintChunk(c), Quote(k))
  {
    PrintedHoldsKey(c.delta, k);
    OtherQuote("delta", k);
    OtherQuote("finish", k);
    OtherQuote("index", k);
    BareLacks(k, c.finish);
    NumberReadable(c.index);
    TokenLacks(ToString(c.index), k);
    assert FieldLacks(DeltaField(c), k) && FieldLacks(FinishField(c), k) && FieldLacks(IndexField(c), k);
    ObjectClean(COMPACT, ChunkFields(c), k);
  }

  lemma NoErrorLacks(k: string)
    requires SeparatorFree(k) && QuoteFree(k) && k !in ["code", "message", ""]
    ensures !Contains(PrintObject(COMPACT, NoError()), Quote(k))
  {
    OtherQuote("code", k);
    OtherQuote("message", k);
    OtherQuote("", k);
    TokenLacks("0", k);
    assert FieldLacks(NoError()[0], k) && FieldLacks(NoError()[1], k);
    ObjectClean(COMPACT, NoError(), k);
  }

  /** The object field is read back exactly when the delta does not end like its quoted key. */
  lemma ReadsObject(h: Header, c: Chunk)
    ensures JsonGet(PrintMessage(h, Object(PrintChunk(c))), "object")
         == if EndsLikeKey(c.delta, "object") then "" else ReadText(h.object_)
  {
    if EndsLikeKey(c.delta, "object") {
      KeyInMessageDelta(h, c, "object");
    } else {
      ScanObject(h, c);
    }
  }

  lemma ScanObject(h: Header, c: Chunk)
    requires !EndsLikeKey(c.delta, "object")
    ensures JsonGet(PrintMessage(h, Object(PrintChunk(c))), "object") == ReadText(h.object_)
  {
    var fs := MessageFields(h, Object(PrintChunk(c)));
    BeforeObjectLacks(h, c);
    ReadsQuotedField(fs, 3, "object", h.object_);
    SettledExtends(PrintObject(COMPACT, fs), "\n", "object");
  }

  lemma BeforeObjectLacks(h: Header, c: Chunk)
    requires !EndsLikeKey(c.delta, "object")
    ensures Absent(MessageFields(h, Object(PrintChunk(c)))[..3], "object")
  {
    var fs := MessageFields(h, Object(PrintChunk(c)));
    CreatedLacks(h, "object");
    DataFieldLacks(c);
    ErrorFieldLacks(h);
    assert fs[..3] == [fs[0], fs[1], fs[2]];
  }

  lemma DataFieldLacks(c: Chunk)
    requires !EndsLikeKey(c.delta, "object")
    ensures FieldLacks(Field("data", Object(PrintChunk(c))), "object")
  {
    OtherQuote("data", "object");
    ChunkLacks(c, "object");
  }

  lemma ErrorFieldLacks(h: Header)
    ensures FieldLacks(HeaderRest(h)[0], "object")
  {
    OtherQuote("error", "object");
    NoErrorLacks("object");
  }

  /** A key that the delta ends like is found there, before any later field of that name. */
  lemma KeyInMessageDelta(h: Header, c: Chunk, k: string)
    requires SeparatorFree(k) && Plain(k) && QuoteFree(k) && k != "" && EndsLikeKey(c.delta, k)
    requires k != "created" && k != "data" && k != "delta"
    ensures JsonGet(PrintMessage(h, Object(PrintChunk(c))), k) == ""
  {
    EndsLikeKeyPrinted(c.delta, k);
    EscapeProtects(c.delta);
    var raw, a, x, rest := DeltaInMessage(h, c, k);
    TextStops(raw, a, Escape(c.delta), x, rest, k, Quote(k));
  }

  lemma TextStops(raw: string, a: string, e: string, x: string, rest: string, k: string, quoted: string)
    requires SeparatorFree(k) && Plain(k) && k != "" && QuotesEscaped(e) && EndsLikeKey(e, k)
    requires x == Quote(e) && quoted == Quote(k) && !Contains(a, quoted) && raw == a + [':'] + (x + [','] + rest)
    ensures JsonGet(raw, k) == ""
  {
    var p := TextPlace(raw, a, e, x, rest, k, quoted);
    KeyStopsInside(raw, p, e, x, k, quoted);
  }

  lemma TextPlace(raw: string, a: string, e: string, x: string, rest: string, k: string, quoted: string) returns (p: nat)
    requires SeparatorFree(k) && Plain(k) && k != "" && QuotesEscaped(e)
    requires x == Quote(e) && quoted == Quote(k) && !Contains(a, quoted) && raw == a + [':'] + (x + [','] + rest)
    ensures p + |x| < |raw| && raw[p + |x|] == ',' && raw[p..p + |x|] == x
    ensures NoneUpTo(raw, quoted, p + |e| - |k|)
  {
    TextStands(raw, a, e, x, rest, k, quoted);
    p := |a| + 1;
  }

  lemma BeforeDeltaLacks(h: Header, k: string)
    requires SeparatorFree(k) && Plain(k) && QuoteFree(k) && k != "created" && k != "data" && k != "delta"
    ensures !Contains(Head(h) + Quote("data") + [':'] + ("{" + Quote("delta")), Quote(k))
  {
    HeadLacks(h, k);
    OtherQuote("data", k);
    DeltaHeadLacks(k);
    JoinClean(Head(h), Quote("data"), k);
    SplitClean(Head(h) + Quote("data"), ':', "{" + Quote("delta"), k);
  }

  lemma DeltaInMessage(h: Header, c: Chunk, k: string) returns (raw: string, a: string, x: string, rest: string)
    requires SeparatorFree(k) && Plain(k) && QuoteFree(k) && k != "created" && k != "data" && k != "delta"
    ensures raw == PrintMessage(h, Object(PrintChunk(c))) && x == Quote(Escape(c.delta))
    ensures raw == a + [':'] + (x + [','] + rest) && !Contains(a, Quote(k))
  {
    raw, x := PrintMessage(h, Object(PrintChunk(c))), Quote(Escape(c.delta));
    a, rest := Head(h) + Quote("data") + [':'] + ("{" + Quote("delta")), PrintFields(COMPACT, ChunkRest(c)) + Tail(h);
    BeforeDeltaLacks(h, k);
    MessageText(h, Object(PrintChunk(c)));
    ChunkText(c);
    JoinDelta(Head(h), Quote("data"), "{" + Quote("delta"), x, PrintFields(COMPACT, ChunkRest(c)), Tail(h));
  }

  lemma JoinDelta(head: string, name: string, open: string, e: string, rest: string, tail: string)
    ensures head + name + (":" + ((open + [':'] + (e + [','] + rest)) + tail))
         == (head + name + [':'] + open) + [':'] + (e + [','] + (rest + tail))
  {
  }

  // ---------------------------------------------------------------- one message received

  /** The receiver takes the message for streamed data. */
  predicate Streams(h: Header) { Find(ReadText(h.object_), "stream", 0).Some? }

  /** The message layer leaves the chunk to `decode_stream` as it was sent: the delta does not end like the
      quoted name of the object field, and its braces pass. */
  ghost predicate Passes(h: Header, d: string) { !EndsLikeKey(d, "object") && BracesPass(h, d) }

  ghost function Step(buff: Buff, c: Chunk): (Reply, Buff) {
    var r := Accept(buff, c);
    match r.0
    case More => (Wait, r.1)
    case Finished(text) => (Infer(text), r.1)
    case Thrown => (IndexError(), map[])
  }

  /** What a message with a chunk comes to: what the chunk does, if the message layer lets it pass, and
      never a wait if it does not. */
  lemma MessageStep(buff: Buff, h: Header, c: Chunk)
    requires c.index <= INT_MAX && Streams(h)
    ensures var r := Receive(buff, PrintMessage(h, Object(PrintChunk(c))));
            if Passes(h, c.delta) then r == Step(buff, c) else r.0 != Wait
  {
    var raw := PrintMessage(h, Object(PrintChunk(c)));
    ReadsObject(h, c);
    ChunkData(h, c);
    var data := JsonGet(raw, "data");
    if EndsLikeKey(c.delta, "object") {
      FindsNothing();
    } else if !NeverClosed(c.delta) {
      CutStep(buff, ReadText(h.object_), c, data);
    } else if BracesPass(h, c.delta) {
      WholeStep(buff, ReadText(h.object_), c, data);
    }
  }

  lemma CutStep(buff: Buff, object_: string, c: Chunk, data: string)
    requires data <= DeltaHead(c) && Find(object_, "stream", 0).Some?
    ensures UserData(buff, object_, data).0 != Wait
  {
    CutHasNoIndex(c, data);
    EmptyIsNoIndex();
  }

  lemma WholeStep(buff: Buff, object_: string, c: Chunk, data: string)
    requires c.index <= INT_MAX && PrintChunk(c) <= data && Find(object_, "stream", 0).Some?
    ensures UserData(buff, object_, data) == Step(buff, c)
  {
    var more := data[|PrintChunk(c)|..];
    assert data == PrintChunk(c) + more;
    ChunkDecodes(buff, c, more);
    ChunkIsData(c, more);
  }

  lemma EmptyIsNoIndex()
    ensures Stoi("").None?
  {
  }

  lemma FindsNothing()
    ensures Find("", "stream", 0).None?
  {
  }

  lemma ChunkIsData(c: Chunk, more: string)
    ensures PrintChunk(c) + more != "" && PrintChunk(c) + more != "None"
  {
    assert (PrintChunk(c) + more)[0] == '{' && "None"[0] == 'N';
  }

  /** When the braces of the response format and the ids balance, the delta may leave one brace open: the
      message's own last brace closes it. */
  lemma UsualHeader(h: Header)
    requires Balanced(h.object_) && Balanced(h.requestId) && Balanced(h.workId)
    ensures Lowest(Tail(h)) == -1
    ensures forall d :: BracesPass(h, d) <==> NeverClosed(d) && Depth(d) <= 1
  {
    var x := TailSplits(h);
    LastCloses(x);
  }

  lemma TailSplits(h: Header) returns (x: string)
    requires Balanced(h.object_) && Balanced(h.requestId) && Balanced(h.workId)
    ensures Balanced(x) && Tail(h) == x + "}" + "\n"
  {
    var rest, inner := HeaderBalances(h);
    FlatIsBalanced(",");
    BalancedJoin(",", inner);
    x := "," + inner;
    Associative(",", inner, "}");
  }

  lemma HeaderBalances(h: Header) returns (rest: string, inner: string)
    requires Balanced(h.object_) && Balanced(h.requestId) && Balanced(h.workId)
    ensures rest == PrintFields(COMPACT, HeaderRest(h)) && Balanced(inner) && rest == inner + "}"
  {
    EachBalances(h);
    rest := PrintFields(COMPACT, HeaderRest(h));
    inner := BalancedFields(HeaderRest(h));
  }

  lemma {:induction false} EachBalances(h: Header)
    requires Balanced(h.object_) && Balanced(h.requestId) && Balanced(h.workId)
    ensures forall i :: 0 <= i < |HeaderRest(h)| ==> BalancedValue(HeaderRest(h)[i])
  {
    ErrorBalances(HeaderRest(h)[0]);
    PlainKeys();
    TextsBalance(h, HeaderRest(h));
  }

  lemma {:induction false} PlainKeys()
    ensures BraceFree("object") && BraceFree("request_id") && BraceFree("work_id")
  {
  }

  lemma {:induction false} TextsBalance(h: Header, fs: seq<Field>)
    requires Balanced(h.object_) && Balanced(h.requestId) && Balanced(h.workId)
    requires |fs| == 4 && BalancedValue(fs[0]) && BraceFree(fs[1].key) && BraceFree(fs[2].key) && BraceFree(fs[3].key)
    requires fs[1].value == Quoted(Escape(h.object_)) && fs[2].value == Quoted(Escape(h.requestId))
    requires fs[3].value == Quoted(Escape(h.workId))
    ensures forall i :: 0 <= i < |fs| ==> BalancedValue(fs[i])
  {
    TextBalances(fs[1], h.object_);
    TextBalances(fs[2], h.requestId);
    TextBalances(fs[3], h.workId);
    FourBalance(fs);
  }

  lemma {:induction false} FourBalance(fs: seq<Field>)
    requires |fs| == 4 && BalancedValue(fs[0]) && BalancedValue(fs[1]) && BalancedValue(fs[2]) && BalancedValue(fs[3])
    ensures forall i :: 0 <= i < |fs| ==> BalancedValue(fs[i])
  {
  }

  lemma {:induction false} ErrorBalances(f: Field)
    requires f == Field("error", Object(PrintObject(COMPACT, NoError())))
    ensures BalancedValue(f)
  {
    var inner := NoErrorText();
    BracedIsBalanced(inner);
  }

  lemma {:induction false} TextBalances(f: Field, text: string)
    requires Balanced(text) && BraceFree(f.key) && f.value == Quoted(Escape(text))
    ensures BalancedValue(f)
  {
    EscapeKeepsDepth(text);
  }

  lemma LastCloses(x: string)
    requires Balanced(x)
    ensures Lowest(x + "}" + "\n") == -1
  {
    var s := x + "}" + "\n";
    LowestIs(s);
    forall i | 0 <= i <= |s| ensures Depth(s[..i]) >= -1 {
      ClosingDepth(x, i);
    }
    ClosingDepth(x, |x| + 1);
  }

  lemma ClosingDepth(x: string, i: nat)
    requires Balanced(x) && i <= |x| + 2
    ensures Depth((x + "}" + "\n")[..i]) == if i <= |x| then Depth(x[..i]) else -1
    ensures i <= |x| ==> Depth(x[..i]) >= 0
  {
    var s := x + "}" + "\n";
    BraceDepths();
    DepthSplits(x, "}");
    if i <= |x| {
      assert s[..i] == x[..i];
    } else if i == |x| + 1 {
      assert s[..i] == x + "}";
    } else {
      assert s[..i] == x + "}" + "\n";
      DepthSplits(x + "}", "\n");
      FlatDepth("\n");
    }
  }

  lemma FlatIsBalanced(s: string)
    requires BraceFree(s)
    ensures Balanced(s)
  {
    forall i | 0 <= i <= |s| ensures Depth(s[..i]) == 0 {
      FlatDepth(s[..i]);
    }
    assert s[..|s|] == s;
  }

  lemma BalancedJoin(a: string, b: string)
    requires Balanced(a) && Balanced(b)
    ensures Balanced(a + b)
  {
    var s := a + b;
    DepthSplits(a, b);
    forall i | 0 <= i <= |s| ensures Depth(s[..i]) >= 0 {
      if i <= |a| {
        assert s[..i] == a[..i];
      } else {
        assert s[..i] == a + b[..i - |a|];
        DepthSplits(a, b[..i - |a|]);
      }
    }
  }

  ghost predicate BalancedValue(f: Field) {
    BraceFree(f.key)
    && match f.value case Quoted(text) => Balanced(text) case Bare(token) => Balanced(token) case Object(body) => Balanced(body)
  }

  lemma BalancedField(f: Field)
    requires BalancedValue(f)
    ensures Balanced(PrintField(COMPACT, f))
  {
    match f.value
    case Quoted(text) =>
      BalancedBetween(Quote(f.key) + [':', '"'], text, ['"']);
      FieldSplits(Quote(f.key), Quote(text), text);
    case Bare(token) =>
      BalancedBetween(Quote(f.key) + ":", token, "");
      PlainSplits(Quote(f.key), token);
    case Object(body) =>
      BalancedBetween(Quote(f.key) + ":", body, "");
      PlainSplits(Quote(f.key), body);
  }

  lemma FieldSplits(name: string, quoted: string, e: string)
    requires quoted == Quote(e)
    ensures name + (":" + "" + quoted) == (name + [':', '"']) + e + ['"']
  {
  }

  lemma PlainSplits(name: string, value: string)
    ensures name + (":" + "" + value) == (name + ":") + value + ""
  {
  }

  lemma BalancedBetween(a: string, e: string, b: string)
    requires BraceFree(a) && Balanced(e) && BraceFree(b)
    ensures Balanced(a + e + b)
  {
    FlatIsBalanced(a);
    FlatIsBalanced(b);
    BalancedJoin(a, e);
    BalancedJoin(a + e, b);
  }

  lemma NoErrorText() returns (inner: string)
    ensures BraceFree(inner) && PrintObject(COMPACT, NoError()) == "{" + inner + "}"
  {
    var f, g := NoError()[0], NoError()[1];
    TwoFields(f, g);
    FieldFlat("code", "0");
    assert PrintField(COMPACT, g) == Quote("message") + (":" + "" + Quote(""));
    inner := PrintField(COMPACT, f) + ("," + "") + PrintField(COMPACT, g);
    assert "{" + (inner + "}") == "{" + inner + "}";
  }

  lemma BracedIsBalanced(t: string)
    requires BraceFree(t)
    ensures Balanced("{" + t + "}")
  {
    FlatIsBalanced(t);
    Braced(t);
    var s := "{" + t + "}";
    assert s[..|s|] == s && s[..0] == "";
  }

  /** The fields between the braces balance if each does. */
  lemma {:induction false} BalancedFields(fs: seq<Field>) returns (s: string)
    requires fs != [] && forall i :: 0 <= i < |fs| ==> BalancedValue(fs[i])
    ensures Balanced(s) && PrintFields(COMPACT, fs) == s + "}"
    decreases |fs|
  {
    var f := PrintField(COMPACT, fs[0]);
    BalancedField(fs[0]);
    if |fs| == 1 {
      s := f;
    } else {
      var rest := BalancedFields(fs[1..]);
      FlatIsBalanced("," + "");
      BalancedJoin(f, "," + "");
      BalancedJoin(f + ("," + ""), rest);
      s := f + ("," + "") + rest;
      Associative(f + ("," + ""), rest, "}");
    }
  }

  // ---------------------------------------------------------------- single messages

  /** The data field gives back the chunk and nothing else exactly when the braces of its delta balance. */
  lemma MessageCarriesChunk(h: Header, c: Chunk)
    ensures JsonGet(PrintMessage(h, Object(PrintChunk(c))), "data") == PrintChunk(c) <==> Balanced(c.delta)
  {
    ChunkData(h, c);
  }

  /** An answer that is not streamed goes out in one message, as a text. */
  function WholeAnswer(h: Header, text: string): string { PrintMessage(h, Quoted(Escape(text))) }

  /** It is read back as printed exactly when it does not end in a backslash. */
  lemma WholeAnswerRead(h: Header, text: string)
    ensures JsonGet(WholeAnswer(h, text), "data") == ReadText(text)
    ensures ReadText(text) == Escape(text) <==> !EndsWith(text, "\\")
  {
    ScanWhole(h, text);
  }

  lemma ScanWhole(h: Header, text: string)
    ensures JsonGet(WholeAnswer(h, text), "data") == ReadText(text)
  {
    var fs := MessageFields(h, Quoted(Escape(text)));
    CreatedIsAbsent(h, Quoted(Escape(text)));
    ReadsQuotedField(fs, 1, "data", text);
    SettledExtends(PrintObject(COMPACT, fs), "\n", "data");
  }

  /** The object of such a message is read back exactly when the text does not end like the quoted name. */
  lemma {:induction false} ReadsWholeObject(h: Header, text: string)
    ensures JsonGet(WholeAnswer(h, text), "object") == if EndsLikeKey(text, "object") then "" else ReadText(h.object_)
  {
    if EndsLikeKey(text, "object") {
      KeyInText(h, text, "object");
    } else {
      PrintedHoldsKey(text, "object");
      FirstThreeLack(h, Quoted(Escape(text)), "object");
      ReadsHeaderText(h, Quoted(Escape(text)), 3, "object", h.object_);
    }
  }

  /** A name that an earlier field or the data could hold is not before these fields. */
  predicate LaterName(k: string) {
    SeparatorFree(k) && QuoteFree(k) && Plain(k) && k !in ["", "created", "data", "error", "code", "message"]
  }

  lemma {:induction false} FirstThreeLack(h: Header, data: Value, k: string)
    requires LaterName(k) && !Contains(Printed(data), Quote(k))
    ensures Absent(MessageFields(h, data)[..3], k)
  {
    var fs := MessageFields(h, data);
    CreatedLacks(h, k);
    OtherQuote("data", k);
    OtherQuote("error", k);
    NoErrorLacks(k);
    assert fs[..3] == [fs[0], fs[1], fs[2]];
  }

  lemma {:induction false} ReadsHeaderText(h: Header, data: Value, i: nat, k: string, d: string)
    requires i < 5 && MessageFields(h, data)[i] == Field(k, Quoted(Escape(d))) && SeparatorFree(k)
    requires Absent(MessageFields(h, data)[..i], k)
    ensures JsonGet(PrintMessage(h, data), k) == ReadText(d)
  {
    ReadsQuotedField(MessageFields(h, data), i, k, d);
    SettledExtends(PrintObject(COMPACT, MessageFields(h, data)), "\n", k);
  }

  lemma {:induction false} KeyInText(h: Header, text: string, k: string)
    requires LaterName(k) && EndsLikeKey(text, k)
    ensures JsonGet(WholeAnswer(h, text), k) == ""
  {
    var a, x, rest := Head(h) + Quote("data"), Quote(Escape(text)), PrintFields(COMPACT, HeaderRest(h)) + "\n";
    EndsLikeKeyPrinted(text, k);
    EscapeProtects(text);
    HeadLacks(h, k);
    OtherQuote("data", k);
    JoinClean(Head(h), Quote("data"), k);
    TextInMessage(h, text, a, x, rest);
    TextStops(WholeAnswer(h, text), a, Escape(text), x, rest, k, Quote(k));
  }

  lemma {:induction false} TextInMessage(h: Header, text: string, a: string, x: string, rest: string)
    requires a == Head(h) + Quote("data") && x == Quote(Escape(text)) && rest == PrintFields(COMPACT, HeaderRest(h)) + "\n"
    ensures WholeAnswer(h, text) == a + [':'] + (x + [','] + rest)
  {
    MessageText(h, Quoted(Escape(text)));
    JoinWhole(a, x, PrintFields(COMPACT, HeaderRest(h)));
  }

  lemma {:induction false} JoinWhole(a: string, x: string, rest: string)
    ensures a + (":" + (x + ("," + rest + "\n"))) == a + [':'] + (x + [','] + (rest + "\n"))
  {
  }

  /** What a whole answer comes to at the receiver: an error if there is no text, else an inference on the text as
      printed, unless the object names a stream. */
  lemma {:induction false} WholeAnswerReceived(buff: Buff, h: Header, text: string)
    requires !Streams(h) || EndsLikeKey(text, "object")
    ensures var r := Receive(buff, WholeAnswer(h, text));
            && r.1 == buff
            && (text != "" && text != "None" ==> r.0 == Infer(ReadText(text)))
            && (text == "" || text == "None" ==> r.0.Failed? && r.0.error == -24)
  {
    WholeAnswerRead(h, text);
    ReadsWholeObject(h, text);
    ReadTextMeans(text);
    FindsNothing();
    if text == "" || text == "None" {
      EmptyRequest(buff, JsonGet(WholeAnswer(h, text), "object"), ReadText(text));
    } else {
      NoStream(JsonGet(WholeAnswer(h, text), "object"));
      PlainRequest(buff, JsonGet(WholeAnswer(h, text), "object"), ReadText(text));
    }
  }

  lemma {:induction false} NoStream(object_: string)
    requires Find(object_, "stream", 0).None?
    ensures !Contains(object_, "stream")
  {
    FindIsFirst(object_, "stream", 0);
  }

  // ---------------------------------------------------------------- the other header fields

  /** The clock is read back from every message. */
  lemma {:induction false} ReadsCreated(h: Header, data: Value)
    ensures JsonGet(PrintMessage(h, data), "created") == ToString(h.created)
  {
    var fs := MessageFields(h, data);
    NumberReadable(h.created);
    assert fs[..0] == [];
    ScanField(fs, 0, "created");
    SettledExtends(PrintObject(COMPACT, fs), "\n", "created");
  }

  /** The request id is read back from a message whose data and object do not hold its quoted name. */
  lemma {:induction false} ReadsRequestId(h: Header, data: Value)
    requires !Contains(Printed(data), Quote("request_id")) && !EndsLikeKey(h.object_, "request_id")
    ensures JsonGet(PrintMessage(h, data), "request_id") == ReadText(h.requestId)
  {
    FirstThreeLack(h, data, "request_id");
    OtherQuote("object", "request_id");
    FourthLacks(h, data, "request_id");
    ReadsHeaderText(h, data, 4, "request_id", h.requestId);
  }

  /** The error field of a message whose data does not hold the quoted name is read back, and says code 0 with an empty
      text. */
  lemma {:induction false} ReadsError(h: Header, data: Value) returns (error: string)
    requires !Contains(Printed(data), Quote("error"))
    ensures error == JsonGet(PrintMessage(h, data), "error") && error == PrintObject(COMPACT, NoError())
    ensures JsonGet(error, "code") == "0" && JsonGet(error, "message") == ""
  {
    error := PrintObject(COMPACT, NoError());
    ErrorReadable(error);
    ErrorFields();
    HeldErrorRead(h, data, "error", error);
    ErrorRead(error);
  }

  lemma {:induction false} ErrorReadable(error: string)
    requires error == PrintObject(COMPACT, NoError())
    ensures Readable(Object(error))
  {
    var inner := NoErrorText();
    FlatIsBalanced(inner);
    Braced(inner);
  }

  lemma {:induction false} HeldErrorRead(h: Header, data: Value, k: string, error: string)
    requires MessageFields(h, data)[2] == Field(k, Object(error)) && Readable(Object(error))
    requires SeparatorFree(k) && QuoteFree(k) && k != "created" && k != "data" && !Contains(Printed(data), Quote(k))
    ensures JsonGet(PrintMessage(h, data), k) == error
  {
    var fs := MessageFields(h, data);
    CreatedLacks(h, k);
    OtherQuote("data", k);
    assert fs[..2] == [fs[0], fs[1]];
    ScanField(fs, 2, k);
    SettledExtends(PrintObject(COMPACT, fs), "\n", k);
  }

  lemma {:induction false} ErrorRead(error: string)
    requires error == PrintObject(COMPACT, NoError())
    ensures JsonGet(error, "code") == "0" && JsonGet(error, "message") == ""
  {
    ErrorFields();
    ReadTwo(NoError(), "code", "0", "message", "");
  }

  lemma {:induction false} ErrorFields()
    ensures SeparatorFree("code") && SeparatorFree("message") && QuoteFree("code") && QuoteFree("message") && "code" != "message"
    ensures Readable(Bare("0")) && Readable(Quoted("")) && SeparatorFree("error") && QuoteFree("error")
  {
  }

  /** A plain token and a text behind it. */
  lemma {:induction false} ReadTwo(fs: seq<Field>, k: string, token: string, k': string, text: string)
    requires fs == [Field(k, Bare(token)), Field(k', Quoted(text))] && Readable(fs[0].value) && Readable(fs[1].value)
    requires SeparatorFree(k) && SeparatorFree(k') && QuoteFree(k) && QuoteFree(k') && k != k'
    ensures JsonGet(PrintObject(COMPACT, fs), k) == token && JsonGet(PrintObject(COMPACT, fs), k') == text
  {
    ScanField(fs, 0, k);
    OtherQuote(k, k');
    TokenLacks(token, k');
    assert fs[..1] == [fs[0]];
    ScanField(fs, 1, k');
  }

  lemma {:induction false} FourthLacks(h: Header, data: Value, k: string)
    requires Plain(k) && k != "" && !EndsLikeKey(h.object_, k) && !Contains(Quote("object"), Quote(k))
    requires Absent(MessageFields(h, data)[..3], k)
    ensures Absent(MessageFields(h, data)[..4], k)
  {
    var fs := MessageFields(h, data);
    PrintedHoldsKey(h.object_, k);
    assert FieldLacks(fs[3], k) && fs[..4] == fs[..3] + [fs[3]];
    assert forall i :: 0 <= i < 3 ==> fs[..4][i] == fs[..3][i];
  }

  /** And so is the work id, if the request id does not hold its name either and it does not end in a backslash. */
  lemma {:induction false} ReadsWorkId(h: Header, data: Value)
    requires !Contains(Printed(data), Quote("work_id")) && !EndsLikeKey(h.object_, "work_id")
    requires !EndsLikeKey(h.requestId, "work_id") && !EndsWith(h.workId, "\\")
    ensures JsonGet(PrintMessage(h, data), "work_id") == Escape(h.workId)
  {
    FirstThreeLack(h, data, "work_id");
    OtherQuote("object", "work_id");
    OtherQuote("request_id", "work_id");
    FourthLacks(h, data, "work_id");
    FifthLacks(h, data, "work_id");
    ReadsPlainText(MessageFields(h, data), 5, "work_id", h.workId);
  }

  lemma {:induction false} FifthLacks(h: Header, data: Value, k: string)
    requires Plain(k) && k != "" && !EndsLikeKey(h.requestId, k) && !Contains(Quote("request_id"), Quote(k))
    requires Absent(MessageFields(h, data)[..4], k)
    ensures Absent(MessageFields(h, data)[..5], k)
  {
    var fs := MessageFields(h, data);
    PrintedHoldsKey(h.requestId, k);
    assert FieldLacks(fs[4], k) && fs[..5] == fs[..4] + [fs[4]];
    assert forall i :: 0 <= i < 4 ==> fs[..5][i] == fs[..4][i];
  }

  lemma {:induction false} ReadsPlainText(fs: seq<Field>, i: nat, k: string, d: string)
    requires i < |fs| && fs[i] == Field(k, Quoted(Escape(d))) && SeparatorFree(k) && Absent(fs[..i], k) && !EndsWith(d, "\\")
    ensures JsonGet(PrintObject(COMPACT, fs) + "\n", k) == Escape(d)
  {
    EscapeProtects(d);
    ScanField(fs, i, k);
    SettledExtends(PrintObject(COMPACT, fs), "\n", k);
  }

  lemma CreatedIsAbsent(h: Header, data: Value)
    ensures Absent(MessageFields(h, data)[..1], "data")
  {
    CreatedLacks(h, "data");
    assert MessageFields(h, data)[..1] == [CreatedField(h)];
  }
}
