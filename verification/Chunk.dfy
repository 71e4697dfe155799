/** One numbered chunk of a streamed text as `task_output` of node/test/src/main.cpp prints it, and what
    `decode_stream` in infra-controller/src/StackFlowUtil.cpp makes of it. */
module ChunkModel {
  import opened Common
  import opened Text
  import opened JsonScan
  import opened JsonText
  import E = SendModel

  // ---------------------------------------------------------------- reassembly

  /** `decode_stream` returns true, returns false with the text, or throws. */
  datatype Decoded = More | Finished(text: string) | Thrown

  type Buff = map<int, string>

  function Joined(buff: Buff, n: nat): string
    requires forall i :: 0 <= i < n ==> i in buff
  {
    if n == 0 then "" else Joined(buff, n - 1) + buff[n - 1]
  }

  ghost predicate Complete(buff: Buff) { forall i :: 0 <= i < |buff| ==> i in buff }

  /** `decode_stream`: a thrown `at` leaves the new entry in the buffer. */
  ghost function Decode(buff: Buff, input: string): (Decoded, Buff) {
    var index, finish, delta := Stoi(JsonGet(input, "index")), JsonGet(input, "finish"), JsonGet(input, "delta");
    if index.None? then (Thrown, buff)
    else
      var next := buff[index.value := delta];
      if Find(finish, "f", 0).Some? then (More, next)
      else if Complete(next) then (Finished(Joined(next, |next|)), map[])
      else (Thrown, next)
  }

  /** What `task_user_data` does with its data: nothing yet, an inference, or an error, with how it ends when it
      reports that. */
  datatype Reply = Wait | Infer(text: string) | Failed(error: int, answer: E.Answer)

  function NoData(): Reply { Failed(-24, E.SendThenReturn(E.Body(-24), 0)) }

  function IndexError(): Reply { Failed(-25, E.SendThenReturn(E.Body(-25), 0)) }

  /** An exception leaves it. Nothing on the receiving thread catches that, so it ends the node. */
  predicate Crashes(r: Reply) { r.Failed? && r.answer == E.Thrown }

  /** Both errors end so. */
  lemma ErrorsCrash()
    ensures Crashes(NoData()) && Crashes(IndexError())
  {
  }

  ghost function UserData(buff: Buff, object_: string, data: string): (Reply, Buff) {
    if data == "" || data == "None" then (NoData(), buff)
    else if Find(object_, "stream", 0).None? then (Infer(data), buff)
    else
      var r := Decode(buff, data);
      match r.0
      case More => (Wait, r.1)
      case Finished(text) => (Infer(text), r.1)
      case Thrown => (IndexError(), map[])
  }

  /** Data for an object that does not name a stream is inferred on as it is, and the buffer is left alone. */
  lemma {:induction false} PlainRequest(buff: Buff, object_: string, data: string)
    requires !Contains(object_, "stream") && data != "" && data != "None"
    ensures UserData(buff, object_, data) == (Infer(data), buff)
  {
    FindIsFirst(object_, "stream", 0);
  }

  /** No data is error -24, whatever the object, and the buffer is left alone. */
  lemma {:induction false} EmptyRequest(buff: Buff, object_: string, data: string)
    requires data == "" || data == "None"
    ensures var r := UserData(buff, object_, data); r.0.Failed? && r.0.error == -24 && Crashes(r.0) && r.1 == buff
  {
  }

  /** Streamed data that cannot be put together is error -25, and the buffer is emptied. */
  lemma {:induction false} BrokenStream(buff: Buff, object_: string, data: string)
    requires Contains(object_, "stream") && data != "" && data != "None" && Decode(buff, data).0.Thrown?
    ensures var r := UserData(buff, object_, data); r.0.Failed? && r.0.error == -25 && Crashes(r.0) && r.1 == map[]
  {
    FindIsFirst(object_, "stream", 0);
    var i: nat :| OccursAt(object_, "stream", i);
  }

  // ---------------------------------------------------------------- chunks

  datatype Chunk = Chunk(index: nat, delta: string, finish: bool)

  function Truth(b: bool): string { if b then "true" else "false" }

  function DeltaField(c: Chunk): Field { Field("delta", Quoted(Escape(c.delta))) }

  function FinishField(c: Chunk): Field { Field("finish", Bare(Truth(c.finish))) }

  function IndexField(c: Chunk): Field { Field("index", Bare(ToString(c.index))) }

  function ChunkRest(c: Chunk): seq<Field> { [FinishField(c), IndexField(c)] }

  function ChunkFields(c: Chunk): seq<Field> { [DeltaField(c)] + ChunkRest(c) }

  const COMPACT := Style("", "")

  /** The printed chunk; the printer orders the keys. */
  function PrintChunk(c: Chunk): string { PrintObject(COMPACT, ChunkFields(c)) }

  /** The chunk's text from the delta's value on, and the text behind the comma. */
  lemma ChunkText(c: Chunk)
    ensures var e, rest := Quote(Escape(c.delta)), PrintFields(COMPACT, ChunkRest(c));
            PrintChunk(c) == ("{" + Quote("delta")) + [':'] + (e + [','] + rest) && rest != "" && rest[0] == '"'
  {
    var f, rest := Field("delta", Quoted(Escape(c.delta))), PrintFields(COMPACT, ChunkRest(c));
    assert ChunkFields(c)[1..] == ChunkRest(c);
    assert PrintFields(COMPACT, ChunkFields(c)) == PrintField(COMPACT, f) + ("," + "") + rest;
    FieldJoins("delta", Quote(Escape(c.delta)), rest);
    assert rest == PrintField(COMPACT, ChunkRest(c)[0]) + ("," + "") + PrintFields(COMPACT, ChunkRest(c)[1..]);
    assert rest[0] == Quote("finish")[0];
  }

  lemma FieldJoins(key: string, e: string, rest: string)
    ensures "{" + (Quote(key) + (":" + "" + e) + ("," + "") + rest) == ("{" + Quote(key)) + [':'] + (e + [','] + rest)
  {
  }

  /** What the scanner reads for a printed text with a comma behind it. */
  function ReadText(d: string): string {
    if EndsWith(d, "\\") then Escape(d) + "\"," else Escape(d)
  }

  /** The scanner reads nothing only for the empty text, and `None` only for `None`. */
  lemma {:induction false} ReadTextMeans(d: string)
    ensures ReadText(d) == "" <==> d == ""
    ensures ReadText(d) == "None" <==> d == "None"
  {
    EscapePlain("None");
    ReadTextIs(d, "None");
    EscapePlain("");
    ReadTextIs(d, "");
  }

  lemma {:induction false} ReadTextIs(d: string, t: string)
    requires Escape(t) == t && (t != "" ==> t[|t| - 1] != ',') && !EndsWith(t, "\\")
    ensures ReadText(d) == t <==> d == t
  {
    if EndsWith(d, "\\") {
      assert ReadText(d)[|ReadText(d)| - 1] == ',';
    } else if ReadText(d) == t {
      EscapeInjective(d, t);
    }
  }

  lemma NumberReadable(n: nat)
    ensures Readable(Bare(ToString(n)))
  {
    forall i | 0 <= i < |ToString(n)| ensures ToString(n)[i] !in "\"{}:, " {
      assert IsDigit(ToString(n)[i]);
    }
  }

  lemma TextStands(json: string, a: string, e: string, x: string, rest: string, k: string, quoted: string)
    requires SeparatorFree(k) && Plain(k) && k != "" && QuotesEscaped(e)
    requires x == Quote(e) && quoted == Quote(k) && !Contains(a, quoted) && json == a + [':'] + (x + [','] + rest)
    ensures var p := |a| + 1;
            && p + |x| < |json| && json[p + |x|] == ',' && json[p..p + |x|] == x
            && NoneUpTo(json, quoted, p + |e| - |k|)
  {
    NoneBefore(json, a, e, x, rest, k, quoted);
    MiddleIs(json, a, x, rest);
  }

  ghost predicate NoneUpTo(s: string, pat: string, n: int) { forall j: nat :: j < n ==> !OccursAt(s, pat, j) }

  /** A printed text that ends like the quoted key is where `find` stops; the comma behind it ends the scan. */
  lemma KeyStopsInside(json: string, p: nat, e: string, x: string, k: string, quoted: string)
    requires EndsLikeKey(e, k) && x == Quote(e) && quoted == Quote(k)
    requires p + |x| < |json| && json[p + |x|] == ',' && json[p..p + |x|] == x
    requires NoneUpTo(json, quoted, p + |e| - |k|)
    ensures JsonGet(json, k) == "" && Settled(json, k)
  {
    EndOccurs(e, k);
    Shifted(json, p, x, quoted, |e| - |k|);
    FindIs(json, quoted, p + |e| - |k|);
    StopsAtOnce(json, k, p + |e| - |k|);
  }

  lemma NoneBefore(json: string, a: string, e: string, x: string, rest: string, k: string, quoted: string)
    requires SeparatorFree(k) && Plain(k) && k != "" && QuotesEscaped(e)
    requires x == Quote(e) && quoted == Quote(k) && !Contains(a, quoted) && json == a + [':'] + (x + [','] + rest)
    ensures NoneUpTo(json, quoted, |a| + 1 + |e| - |k|)
  {
    forall j: nat | OccursAt(json, quoted, j) ensures j >= |a| + 1 + |e| - |k| {
      OnlyAtEnd(a, e, rest, k, j);
    }
  }

  lemma MiddleIs(json: string, a: string, x: string, rest: string)
    requires json == a + [':'] + (x + [','] + rest)
    ensures |a| + 1 + |x| < |json| && json[|a| + 1 + |x|] == ','
    ensures json[|a| + 1..|a| + 1 + |x|] == x
  {
  }

  lemma Shifted(json: string, p: nat, x: string, pat: string, i: nat)
    requires p + |x| <= |json| && json[p..p + |x|] == x && OccursAt(x, pat, i)
    ensures OccursAt(json, pat, p + i)
  {
    assert forall j :: 0 <= j < |x| ==> json[p + j] == json[p..p + |x|][j] == x[j];
    assert json[p + i..p + i + |pat|] == x[i..i + |pat|];
  }

  lemma OnlyAtEnd(a: string, e: string, rest: string, k: string, j: nat)
    requires SeparatorFree(k) && Plain(k) && k != "" && QuotesEscaped(e) && !Contains(a, Quote(k))
    requires OccursAt(a + [':'] + (Quote(e) + [','] + rest), Quote(k), j)
    ensures j >= |a| + 1 + |e| - |k|
  {
    QuoteLacks(k, ':');
    QuoteLacks(k, ',');
    OccurrenceSplits(a, ':', Quote(e) + [','] + rest, Quote(k), j);
    OccurrenceSplits(Quote(e), ',', rest, Quote(k), j - |a| - 1);
    if OccursAt(Quote(e), Quote(k), j - |a| - 1) {
      OccursAtEnd(e, k, j - |a| - 1);
    }
  }

  lemma KeyInDelta(c: Chunk, k: string)
    requires SeparatorFree(k) && Plain(k) && k != "" && k != "delta"
    requires EndsLikeKey(c.delta, k)
    ensures JsonGet(PrintChunk(c), k) == "" && Settled(PrintChunk(c), k)
  {
    EndsLikeKeyPrinted(c.delta, k);
    DeltaStands(c, k, PrintChunk(c), Quote(Escape(c.delta)), Quote(k));
    KeyStopsInside(PrintChunk(c), |Quote("delta")| + 2, Escape(c.delta), Quote(Escape(c.delta)), k, Quote(k));
  }

  /** The printed delta in the printed chunk, with no quoted key before its end. */
  lemma DeltaStands(c: Chunk, k: string, json: string, x: string, quoted: string)
    requires SeparatorFree(k) && Plain(k) && k != "" && k != "delta"
    requires json == PrintChunk(c) && x == Quote(Escape(c.delta)) && quoted == Quote(k)
    ensures var p := |Quote("delta")| + 2;
            && p + |x| < |json| && json[p + |x|] == ',' && json[p..p + |x|] == x
            && NoneUpTo(json, quoted, p + |Escape(c.delta)| - |k|)
  {
    EscapeProtects(c.delta);
    DeltaHeadLacks(k);
    ChunkText(c);
    TextStands(json, "{" + Quote("delta"), Escape(c.delta), x, PrintFields(COMPACT, ChunkRest(c)), k, quoted);
  }

  lemma DeltaHeadLacks(k: string)
    requires SeparatorFree(k) && Plain(k) && k != "delta"
    ensures !Contains("{" + Quote("delta"), Quote(k))
  {
    OtherQuote("delta", k);
    assert !Contains("", Quote(k));
    SplitClean("", '{', Quote("delta"), k);
    assert "" + ['{'] + Quote("delta") == "{" + Quote("delta");
  }

  lemma BareLacks(k: string, b: bool)
    ensures !Contains(Printed(Bare(Truth(b))), Quote(k))
  {
    TokenLacks(Truth(b), k);
  }

  /** The index is read back exactly when the delta does not end like the quoted key; otherwise nothing is read. */
  lemma ReadsIndex(c: Chunk)
    ensures JsonGet(PrintChunk(c), "index") == if EndsLikeKey(c.delta, "index") then "" else ToString(c.index)
    ensures Settled(PrintChunk(c), "index")
  {
    PrintedHoldsKey(c.delta, "index");
    if EndsLikeKey(c.delta, "index") {
      KeyInDelta(c, "index");
    } else {
      ScanIndex(c);
    }
  }

  lemma ScanField(fs: seq<Field>, i: nat, k: string)
    requires i < |fs| && SeparatorFree(k) && Absent(fs[..i], k) && fs[i].key == k && Readable(fs[i].value)
    ensures JsonGet(PrintObject(COMPACT, fs), k) == Payload(fs[i].value) && Settled(PrintObject(COMPACT, fs), k)
  {
    ScanInvertsPrinting(COMPACT, fs, i, k);
  }

  lemma ScanIndex(c: Chunk)
    requires !Contains(Quote(Escape(c.delta)), Quote("index"))
    ensures JsonGet(PrintChunk(c), "index") == ToString(c.index) && Settled(PrintChunk(c), "index")
  {
    DeltaFieldLacks(c, "index");
    FinishFieldLacks(c);
    IndexReadable(c);
    ScanThird(c, "index");
  }

  lemma FinishFieldLacks(c: Chunk)
    ensures FieldLacks(FinishField(c), "index")
  {
    OtherQuote("finish", "index");
    BareLacks("index", c.finish);
  }

  lemma IndexReadable(c: Chunk)
    ensures SeparatorFree("index") && IndexField(c).key == "index" && Readable(IndexField(c).value)
  {
    NumberReadable(c.index);
  }

  lemma FinishReadable(c: Chunk)
    ensures SeparatorFree("finish") && FinishField(c).key == "finish" && Readable(FinishField(c).value)
  {
  }

  lemma ScanSecond(c: Chunk, k: string)
    requires SeparatorFree(k) && FieldLacks(DeltaField(c), k) && FinishField(c).key == k && Readable(FinishField(c).value)
    ensures JsonGet(PrintChunk(c), k) == Payload(FinishField(c).value) && Settled(PrintChunk(c), k)
  {
    assert ChunkFields(c)[..1] == [DeltaField(c)];
    ScanField(ChunkFields(c), 1, k);
  }

  lemma ScanThird(c: Chunk, k: string)
    requires SeparatorFree(k) && FieldLacks(DeltaField(c), k) && FieldLacks(FinishField(c), k)
    requires IndexField(c).key == k && Readable(IndexField(c).value)
    ensures JsonGet(PrintChunk(c), k) == Payload(IndexField(c).value) && Settled(PrintChunk(c), k)
  {
    assert ChunkFields(c)[..2] == [DeltaField(c), FinishField(c)];
    ScanField(ChunkFields(c), 2, k);
  }

  lemma DeltaFieldLacks(c: Chunk, k: string)
    requires Plain(k) && k != "delta" && !Contains(Quote(Escape(c.delta)), Quote(k))
    ensures FieldLacks(DeltaField(c), k)
  {
    OtherQuote("delta", k);
  }

  /** Likewise for the finishing mark; reading nothing counts as finished. */
  lemma ReadsFinish(c: Chunk)
    ensures JsonGet(PrintChunk(c), "finish") == if EndsLikeKey(c.delta, "finish") then "" else Truth(c.finish)
    ensures Settled(PrintChunk(c), "finish")
  {
    PrintedHoldsKey(c.delta, "finish");
    if EndsLikeKey(c.delta, "finish") {
      KeyInDelta(c, "finish");
    } else {
      ScanFinish(c);
    }
  }

  lemma ScanFinish(c: Chunk)
    requires !Contains(Quote(Escape(c.delta)), Quote("finish"))
    ensures JsonGet(PrintChunk(c), "finish") == Truth(c.finish) && Settled(PrintChunk(c), "finish")
  {
    DeltaFieldLacks(c, "finish");
    FinishReadable(c);
    ScanSecond(c, "finish");
  }

  /** A text field with a field behind it is read back as printed exactly when the text does not end in a
      backslash; otherwise the closing quote is taken for an escaped one and two more characters are read. */
  lemma ReadsQuotedField(fs: seq<Field>, i: nat, k: string, d: string)
    requires i + 1 < |fs| && fs[i] == Field(k, Quoted(Escape(d))) && SeparatorFree(k) && Absent(fs[..i], k)
    ensures JsonGet(PrintObject(COMPACT, fs), k) == ReadText(d) && Settled(PrintObject(COMPACT, fs), k)
  {
    EscapeProtects(d);
    LastIsBackslash(Escape(d));
    if EndsWith(d, "\\") {
      var head := PlacedText(fs, i, k, Quote(Escape(d)));
      QuoteOpens(fs[i + 1..]);
      SwallowsQuote(PrintObject(COMPACT, fs), head, k, Escape(d), PrintFields(COMPACT, fs[i + 1..]));
    } else {
      ScanField(fs, i, k);
    }
  }

  /** Where a text field stands in the printed object. */
  lemma PlacedText(fs: seq<Field>, i: nat, k: string, quoted: string) returns (head: string)
    requires i + 1 < |fs| && fs[i].key == k && Printed(fs[i].value) == quoted && SeparatorFree(k) && Absent(fs[..i], k)
    ensures PrintObject(COMPACT, fs) == head + [':'] + (quoted + [','] + PrintFields(COMPACT, fs[i + 1..]))
    ensures |head| >= |Quote(k)| && Find(PrintObject(COMPACT, fs), Quote(k), 0) == Some(|head| - |Quote(k)|)
  {
    FirstKeyIs(COMPACT, fs, i, k);
    head := "{" + Before(COMPACT, fs, i) + Quote(k);
    FieldThenRest("{" + Before(COMPACT, fs, i), Quote(k), quoted, PrintFields(COMPACT, fs[i + 1..]));
  }

  lemma QuoteOpens(fs: seq<Field>)
    requires fs != []
    ensures PrintFields(COMPACT, fs) != "" && PrintFields(COMPACT, fs)[0] == '"'
  {
    assert PrintField(COMPACT, fs[0])[0] == Quote(fs[0].key)[0];
  }

  lemma FieldThenRest(head: string, name: string, e: string, rest: string)
    ensures head + name + (":" + "" + e + ("," + "" + rest)) == (head + name) + [':'] + (e + [','] + rest)
  {
  }

  /** The delta is read back as printed exactly when it does not end in a backslash. */
  lemma ReadsDelta(c: Chunk)
    ensures JsonGet(PrintChunk(c), "delta") == ReadText(c.delta) && Settled(PrintChunk(c), "delta")
  {
    ReadsQuotedField(ChunkFields(c), 0, "delta", c.delta);
  }

  lemma LastIsBackslash(e: string)
    ensures EndsWith(e, "\\") <==> e != "" && e[|e| - 1] == '\\'
  {
    assert e != "" ==> e[|e| - 1..] == [e[|e| - 1]];
  }

  lemma SwallowsQuote(json: string, head: string, k: string, e: string, rest: string)
    requires QuotesEscaped(e) && e != "" && e[|e| - 1] == '\\' && rest != "" && rest[0] == '"'
    requires json == head + [':'] + (Quote(e) + [','] + rest)
    requires |head| >= |Quote(k)| && Find(json, Quote(k), 0) == Some(|head| - |Quote(k)|)
    ensures JsonGet(json, k) == e + "\"," && Settled(json, k)
  {
    var tail := json[|head|..];
    assert tail == [':'] + (Quote(e) + [','] + rest);
    SwallowedText(e, rest);
    FirstKeyGives(json, k, |head| - |Quote(k)|, Quoted(e + "\","), "", rest[1..]);
  }

  lemma SwallowedText(e: string, rest: string)
    requires QuotesEscaped(e) && e != "" && e[|e| - 1] == '\\' && rest != "" && rest[0] == '"'
    ensures Readable(Quoted(e + "\","))
    ensures Follows([':'] + (Quote(e) + [','] + rest), Quoted(e + "\","), "", rest[1..])
  {
    var t := e + "\",";
    assert forall i :: 0 <= i < |e| ==> t[i] == e[i];
    assert [':'] + (Quote(e) + [','] + rest) == ":" + "" + Quote(t) + rest[1..];
  }

  // ---------------------------------------------------------------- chunks as objects

  /** The printed chunk can be read back as the object it is, out of the message that carries it, exactly
      when the braces of its delta balance: the scanner counts those too. */
  lemma ChunkIsObject(c: Chunk)
    ensures Readable(Object(PrintChunk(c))) <==> Balanced(c.delta)
  {
    ChunkWrapped(c);
    Framed(Quote("delta") + [':', '"'], Escape(c.delta), ['"', ','] + FlatRest(c));
    EscapeKeepsDepth(c.delta);
  }

  /** The printed chunk as braces around the delta between two texts without any. */
  lemma ChunkWrapped(c: Chunk)
    ensures PrintChunk(c) == "{" + ((Quote("delta") + [':', '"']) + Escape(c.delta) + (['"', ','] + FlatRest(c))) + "}"
    ensures BraceFree(Quote("delta") + [':', '"']) && BraceFree(['"', ','] + FlatRest(c))
  {
    ChunkText(c);
    RestIsFlat(c);
    Regroup(Quote("delta"), Escape(c.delta), FlatRest(c));
  }

  lemma Regroup(name: string, e: string, r: string)
    ensures ("{" + name) + [':'] + (Quote(e) + [','] + (r + "}"))
         == "{" + ((name + [':', '"']) + e + (['"', ','] + r)) + "}"
  {
  }

  /** What follows the delta, up to the closing brace. */
  function FlatRest(c: Chunk): string {
    PrintField(COMPACT, ChunkRest(c)[0]) + ("," + "") + PrintField(COMPACT, ChunkRest(c)[1])
  }

  lemma RestIsFlat(c: Chunk)
    ensures PrintFields(COMPACT, ChunkRest(c)) == FlatRest(c) + "}" && BraceFree(FlatRest(c))
  {
    var f, g := ChunkRest(c)[0], ChunkRest(c)[1];
    assert ChunkRest(c)[1..] == [g];
    TwoFields(f, g);
    NumberFlat(c.index);
    FieldFlat("finish", Truth(c.finish));
    FieldFlat("index", ToString(c.index));
  }

  lemma TwoFields(f: Field, g: Field)
    ensures PrintFields(COMPACT, [f, g]) == PrintField(COMPACT, f) + ("," + "") + PrintField(COMPACT, g) + "}"
  {
    assert [f, g][1..] == [g];
    var a, b := PrintField(COMPACT, f) + ("," + ""), PrintField(COMPACT, g);
    assert PrintFields(COMPACT, [g]) == b + "}";
    assert a + (b + "}") == a + b + "}";
  }

  lemma NumberFlat(n: nat)
    ensures BraceFree(ToString(n))
  {
    assert forall i :: 0 <= i < |ToString(n)| ==> IsDigit(ToString(n)[i]);
  }

  lemma FieldFlat(key: string, token: string)
    requires BraceFree(key) && BraceFree(token)
    ensures BraceFree(PrintField(COMPACT, Field(key, Bare(token))))
  {
  }

  // ---------------------------------------------------------------- what a chunk does to the buffer

  ghost function Accept(buff: Buff, c: Chunk): (Decoded, Buff) {
    if EndsLikeKey(c.delta, "index") then (Thrown, buff)
    else
      var next := buff[c.index := ReadText(c.delta)];
      if !c.finish && !EndsLikeKey(c.delta, "finish") then (More, next)
      else if Complete(next) then (Finished(Joined(next, |next|)), map[])
      else (Thrown, next)
  }

  /** Decoding a printed chunk, whatever stands behind it. */
  lemma ChunkDecodes(buff: Buff, c: Chunk, more: string)
    requires c.index <= INT_MAX
    ensures Decode(buff, PrintChunk(c) + more) == Accept(buff, c)
  {
    ReadsIndex(c);
    ReadsFinish(c);
    ReadsDelta(c);
    SettledExtends(PrintChunk(c), more, "index");
    SettledExtends(PrintChunk(c), more, "finish");
    SettledExtends(PrintChunk(c), more, "delta");
    StoiOfIndex(c.index);
    FindsF();
  }

  lemma StoiOfIndex(n: nat)
    requires n <= INT_MAX
    ensures Stoi(ToString(n)) == Some(n) && Stoi("").None?
  {
    assert ToString(n) + "" == ToString(n);
    StoiOfToString(n, "");
  }

  lemma FindsChar(s: string, c: char)
    ensures Find(s, [c], 0).Some? <==> c in s
  {
    var r := Find(s, [c], 0);
    FindIsFirst(s, [c], 0);
    if r.Some? {
      assert s[r.value] == s[r.value..r.value + 1][0];
    }
    if c in s {
      var i :| 0 <= i < |s| && s[i] == c;
      assert OccursAt(s, [c], i);
    }
  }

  lemma FindsF()
    ensures Find("false", "f", 0).Some? && Find("true", "f", 0).None? && Find("", "f", 0).None?
  {
    FindsChar("false", 'f');
    FindsChar("true", 'f');
    FindsChar("", 'f');
    assert "false"[0] == 'f';
  }
}
