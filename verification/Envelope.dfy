/** The inference envelope: the reply URL that `unit_action_match` of unit-manager/src/remote_server.cpp
    splices in front of a request, and what `subscriber_event_call` of infra-controller/src/channel.cpp
    reads back. */
module EnvelopeModel {
  import opened Common
  import opened Text
  import opened JsonScan

  const ZMQ_COM := "zmq_com"

  /** What stands in front of the request once its first character is dropped. */
  function Prefix(url: string): string { "{" + Quote(ZMQ_COM) + ":" + Quote(url) + "," }

  function Splice(url: string, json: string): string
    requires json != ""
  {
    Prefix(url) + json[1..]
  }

  // ---------------------------------------------------------------- scanning past the prefix

  /** Searching behind a stretch in which the pattern cannot start is searching the rest. */
  lemma {:induction false} FindShifts(head: string, tail: string, pat: string, from: nat)
    requires from <= |tail|
    ensures Find(head + tail, pat, |head| + from)
         == match Find(tail, pat, from) case None => None case Some(i) => Some(|head| + i)
    decreases |tail| as int - from as int
  {
    var s := head + tail;
    if from + |pat| <= |tail| {
      assert s[|head| + from..|head| + from + |pat|] == tail[from..from + |pat|];
      if tail[from..from + |pat|] != pat && from < |tail| {
        FindShifts(head, tail, pat, from + 1);
      }
    }
  }

  /** Nothing is found before `stop` when the pattern does not occur there. */
  lemma {:induction false} FindSkips(s: string, pat: string, from: nat, stop: nat)
    requires from <= stop <= |s| && forall j: nat :: from <= j < stop ==> !OccursAt(s, pat, j)
    ensures Find(s, pat, from) == Find(s, pat, stop)
    decreases stop as int - from as int
  {
    if from < stop {
      assert !OccursAt(s, pat, from);
      FindSkips(s, pat, from + 1, stop);
      if from + |pat| > |s| {
        assert stop + |pat| > |s|;
      }
    }
  }

  /** Behind a text that lacks the quoted key and ends in a separator, the key is found where the rest has it. */
  lemma FindBehind(head: string, tail: string, key: string)
    requires SeparatorFree(key) && head != "" && head[|head| - 1] in ":,{} " && !Contains(head, Quote(key))
    ensures Find(head + tail, Quote(key), 0)
         == match Find(tail, Quote(key), 0) case None => None case Some(i) => Some(|head| + i)
  {
    SkipHead(head + tail, head, tail, key);
    FindShifts(head, tail, Quote(key), 0);
  }

  lemma SkipHead(s: string, head: string, tail: string, key: string)
    requires s == head + tail
    requires SeparatorFree(key) && head != "" && head[|head| - 1] in ":,{} " && !Contains(head, Quote(key))
    ensures Find(s, Quote(key), 0) == Find(s, Quote(key), |head|)
  {
    HeadHidesNothing(s, head, tail, key);
    FindSkips(s, Quote(key), 0, |head|);
  }

  lemma HeadHidesNothing(s: string, head: string, tail: string, key: string)
    requires s == head + tail
    requires SeparatorFree(key) && head != "" && head[|head| - 1] in ":,{} " && !Contains(head, Quote(key))
    ensures forall j: nat :: j < |head| ==> !OccursAt(s, Quote(key), j)
  {
    var a, c := head[..|head| - 1], head[|head| - 1];
    QuoteLacks(key, c);
    assert s == a + [c] + tail;
    forall j: nat | OccursAt(s, Quote(key), j) ensures j >= |head| {
      OccurrenceSplits(a, c, tail, Quote(key), j);
      if OccursAt(a, Quote(key), j) {
        assert a[j..j + |Quote(key)|] == head[j..j + |Quote(key)|];
        assert OccursAt(head, Quote(key), j);
      }
    }
  }

  /** The scanner's answer depends only on what follows such a head. */
  lemma GetBehind(head: string, tail: string, key: string)
    requires SeparatorFree(key) && head != "" && head[|head| - 1] in ":,{} " && !Contains(head, Quote(key))
    ensures JsonGet(head + tail, key) == JsonGet(tail, key)
  {
    FindBehind(head, tail, key);
    var i := Find(tail, Quote(key), 0);
    if i.Some? {
      DropHead(head, tail, i.value + |Quote(key)|);
      assert |head| + i.value + |Quote(key)| == |head| + (i.value + |Quote(key)|);
    }
  }

  lemma DropHead(head: string, tail: string, n: nat)
    requires n <= |tail|
    ensures (head + tail)[|head| + n..] == tail[n..]
  {
  }

  /** The prefix holds the quoted key exactly when the key is `zmq_com` or the URL itself. */
  lemma PrefixHolds(url: string, key: string)
    requires QuoteFree(url) && QuoteFree(key) && SeparatorFree(key)
    ensures Contains(Prefix(url), Quote(key)) <==> key == ZMQ_COM || key == url
  {
    var name, value := Quote(ZMQ_COM), Quote(url);
    assert Prefix(url) == "" + ['{'] + (name + [':'] + (value + [','] + ""));
    if key == ZMQ_COM {
      assert Prefix(url)[1..1 + |name|] == name;
      assert OccursAt(Prefix(url), Quote(key), 1);
    } else if key == url {
      var at := |name| + 2;
      assert Prefix(url)[at..at + |value|] == value;
      assert OccursAt(Prefix(url), Quote(key), at);
    } else {
      OtherQuote(ZMQ_COM, key);
      OtherQuote(url, key);
      assert !Contains("", Quote(key));
      SplitClean(value, ',', "", key);
      SplitClean(name, ':', value + [','] + "", key);
      SplitClean("", '{', name + [':'] + (value + [','] + ""), key);
    }
  }

  /** Every key other than `zmq_com` and the URL is scanned in the envelope as in the request. */
  lemma OtherKeysUnchanged(url: string, json: string, key: string)
    requires json != "" && json[0] == '{'
    requires QuoteFree(url) && QuoteFree(key) && SeparatorFree(key) && key != ZMQ_COM && key != url
    ensures JsonGet(Splice(url, json), key) == JsonGet(json, key)
  {
    PrefixHolds(url, key);
    GetBehind(Prefix(url), json[1..], key);
    BraceHolds(key);
    GetBehind("{", json[1..], key);
    assert json == "{" + json[1..];
  }

  lemma BraceHolds(key: string)
    ensures !Contains("{", Quote(key))
  {
  }

  /** The receiver's scan returns the URL. */
  lemma UrlReadBack(url: string, json: string)
    requires json != "" && QuoteFree(url) && !EndsWith(url, "\\")
    ensures JsonGet(Splice(url, json), ZMQ_COM) == url
  {
    var s, rest := Splice(url, json), "," + json[1..];
    assert s == "{" + Quote(ZMQ_COM) + (":" + "" + Quote(url) + rest);
    assert !Contains("{", Quote(ZMQ_COM)) by { BraceHolds(ZMQ_COM); }
    FirstAfterClean("{", ZMQ_COM, ":" + "" + Quote(url) + rest);
    ReadableUrl(url);
    assert s[1 + |Quote(ZMQ_COM)|..] == ":" + "" + Quote(url) + rest;
    FirstKeyGives(s, ZMQ_COM, 1, Quoted(url), "", rest);
  }

  lemma ReadableUrl(url: string)
    requires QuoteFree(url) && !EndsWith(url, "\\")
    ensures Readable(Quoted(url))
  {
    assert url != "" ==> url[|url| - 1..] == [url[|url| - 1]];
    assert forall i :: 0 <= i < |url| ==> url[i] in url;
  }

  // ---------------------------------------------------------------- the receiver

  /** Whether the loop over the occurrences of the quoted `action` meets one that is not at the very start
      and has no backslash before it. The loop goes on by `sizeof` of a C string, eight. */
  predicate Flagged(raw: string, from: nat)
    decreases |raw| + 1 - from
  {
    var p := Find(raw, Quote("action"), from);
    p.Some? && (Unescaped(raw, p.value) || Flagged(raw, p.value + 8))
  }

  predicate Unescaped(raw: string, p: nat) { 0 < p <= |raw| && raw[p - 1] != '\\' }

  /** The channel fields that a message can change. */
  datatype Channel = Channel(outputUrl: string, requestId: string, workId: string)

  /** `subscriber_event_call`. */
  function EventCall(c: Channel, raw: string): Channel {
    if Flagged(raw, 0) then Noticed(c, raw) else c
  }

  function Noticed(c: Channel, raw: string): Channel {
    var url := JsonGet(raw, ZMQ_COM);
    Channel(if url == "" then c.outputUrl else url, JsonGet(raw, "request_id"), JsonGet(raw, "work_id"))
  }

  /** A channel reacts only to an occurrence of the quoted `action` that no backslash precedes. */
  lemma {:induction false} FlagMeans(raw: string, from: nat)
    requires Flagged(raw, from)
    ensures exists p: nat :: p >= from && OccursAt(raw, Quote("action"), p) && Unescaped(raw, p)
    decreases |raw| + 1 - from
  {
    FindIsFirst(raw, Quote("action"), from);
    var p := Find(raw, Quote("action"), from).value;
    if !Unescaped(raw, p) {
      FlagMeans(raw, p + 8);
    }
  }

  /** The occurrence is not escaped, and the step of eight behind an escaped one does not skip it: two occurrences can
      share a quote. */
  ghost predicate Counts(raw: string, from: nat, p: nat) {
    && p >= from && OccursAt(raw, Quote("action"), p) && Unescaped(raw, p)
    && !(p >= from + 7 && OccursAt(raw, Quote("action"), p - 7) && !Unescaped(raw, p - 7))
  }

  /** A channel reacts exactly to such an occurrence. */
  lemma {:induction false} FlagIs(raw: string, from: nat)
    ensures Flagged(raw, from) <==> exists p: nat :: Counts(raw, from, p)
    decreases |raw| + 1 - from
  {
    var q := FirstFlag(raw, from);
    if q.Some? {
      if Unescaped(raw, q.value) {
        assert Counts(raw, from, q.value);
      } else {
        FlagIs(raw, q.value + 8);
        SameCounts(raw, from, q.value, q.value + 8);
      }
    }
  }

  lemma {:induction false} FirstFlag(raw: string, from: nat) returns (q: Option<nat>)
    ensures q.Some? ==> OccursAt(raw, Quote("action"), q.value) && q.value >= from
    ensures forall j: nat :: from <= j && (q.Some? ==> j < q.value) ==> !OccursAt(raw, Quote("action"), j)
    ensures Flagged(raw, from) <==> q.Some? && (Unescaped(raw, q.value) || Flagged(raw, q.value + 8))
  {
    FindIsFirst(raw, Quote("action"), from);
    q := Find(raw, Quote("action"), from);
  }

  lemma {:induction false} SameCounts(raw: string, from: nat, q: nat, next: nat)
    requires from <= q && next == q + 8 && OccursAt(raw, Quote("action"), q) && !Unescaped(raw, q)
    requires forall j: nat :: from <= j < q ==> !OccursAt(raw, Quote("action"), j)
    ensures (exists p: nat :: Counts(raw, from, p)) <==> exists p: nat :: Counts(raw, next, p)
  {
    if p: nat :| Counts(raw, from, p) {
      SkipsEscaped(raw, from, q, p);
      assert Counts(raw, next, p);
    }
    if p: nat :| Counts(raw, next, p) {
      SkipsEscaped(raw, from, q, p);
      assert Counts(raw, from, p);
    }
  }

  lemma {:induction false} SkipsEscaped(raw: string, from: nat, q: nat, p: nat)
    requires from <= q && OccursAt(raw, Quote("action"), q) && !Unescaped(raw, q)
    requires forall j: nat :: from <= j < q ==> !OccursAt(raw, Quote("action"), j)
    ensures Counts(raw, from, p) <==> Counts(raw, q + 8, p)
  {
    if OccursAt(raw, Quote("action"), p) && q < p {
      if p < q + 8 {
        OnlyOverlap(raw, q, p);
      } else if p < q + 15 && OccursAt(raw, Quote("action"), p - 7) {
        OnlyOverlap(raw, q, p - 7);
      }
    }
  }

  /** Two occurrences overlap only in the quote between them. */
  lemma {:induction false} OnlyOverlap(raw: string, p: nat, r: nat)
    requires OccursAt(raw, Quote("action"), p) && OccursAt(raw, Quote("action"), r) && p < r < p + 8
    ensures r == p + 7 && Unescaped(raw, r)
  {
    var flag := Quote("action");
    assert flag == "\"action\"";
    assert raw[r] == raw[r..r + |flag|][0] == '"';
    assert raw[r] == raw[p..p + |flag|][r - p] == flag[r - p];
    assert raw[p + 6] == raw[p..p + |flag|][6] == 'n';
  }

  /** In particular to a first occurrence that is not escaped. */
  lemma {:induction false} FirstNoticed(raw: string, p: nat)
    requires Find(raw, Quote("action"), 0) == Some(p) && Unescaped(raw, p)
    ensures Flagged(raw, 0)
  {
    FindIsFirst(raw, Quote("action"), 0);
    assert Counts(raw, 0, p);
    FlagIs(raw, 0);
  }

  /** A printed request with a field of that name is noticed, when no earlier key or value holds the quoted name. */
  lemma {:induction false} RequestNoticed(json: string, st: Style, fs: seq<Field>, i: nat)
    requires json == PrintObject(st, fs) && i < |fs| && BlankStyle(st) && fs[i].key == "action" && Absent(fs[..i], "action")
    ensures Flagged(json, 0)
  {
    var p := KeyPlace(json, st, fs, i, "action");
    FirstNoticed(json, p);
  }

  lemma {:induction false} KeyPlace(json: string, st: Style, fs: seq<Field>, i: nat, key: string) returns (p: nat)
    requires json == PrintObject(st, fs) && i < |fs| && BlankStyle(st) && SeparatorFree(key) && fs[i].key == key && Absent(fs[..i], key)
    ensures Find(json, Quote(key), 0) == Some(p) && Unescaped(json, p)
  {
    var head := "{" + Before(st, fs, i);
    FirstKeyIs(st, fs, i, key);
    BeforeEnds(st, fs, i);
    p := |head|;
    assert json[p - 1] == head[p - 1];
  }

  /** A printed message in which no key or value contains the quoted `action` leaves the channel as it was. */
  lemma OutputsLeaveChannel(c: Channel, st: Style, fs: seq<Field>)
    requires BlankStyle(st) && Absent(fs, "action")
    ensures EventCall(c, PrintObject(st, fs)) == c
  {
    PrintClean(st, fs, "action");
    SplitClean("", '{', PrintFields(st, fs), "action");
    assert PrintObject(st, fs) == "" + ['{'] + PrintFields(st, fs);
    if Flagged(PrintObject(st, fs), 0) {
      FlagMeans(PrintObject(st, fs), 0);
    }
  }

  lemma SameBefore(head: string, tail: string, i: nat)
    requires head != "" && head[|head| - 1] != '\\' && i <= |tail|
    ensures Unescaped(head + tail, |head| + i) <==> i == 0 || Unescaped(tail, i)
  {
  }

  /** The envelope is noticed exactly when the request would have been. */
  lemma {:induction false} FlagUnchanged(url: string, json: string)
    requires json != "" && json[0] == '{' && QuoteFree(url) && url != "action"
    ensures Flagged(Splice(url, json), 0) <==> Flagged(json, 0)
  {
    PrefixHolds(url, "action");
    BraceHolds("action");
    HeadHidesNothing(Splice(url, json), Prefix(url), json[1..], "action");
    HeadHidesNothing(json, "{", json[1..], "action");
    FlagBehind(Prefix(url), "{", json[1..], Splice(url, json), json);
    FlagIs(Splice(url, json), 0);
    FlagIs(json, 0);
  }

  /** Heads in which no quoted `action` starts and that do not end in a backslash make no difference. */
  lemma {:induction false} FlagBehind(g: string, h: string, tail: string, s: string, t: string)
    requires s == g + tail && g != "" && g[|g| - 1] != '\\' && forall j: nat :: j < |g| ==> !OccursAt(s, Quote("action"), j)
    requires t == h + tail && h != "" && h[|h| - 1] != '\\' && forall j: nat :: j < |h| ==> !OccursAt(t, Quote("action"), j)
    ensures (exists p: nat :: Counts(s, 0, p)) <==> exists p: nat :: Counts(t, 0, p)
  {
    CountsMove(g, h, tail, s, t);
    CountsMove(h, g, tail, t, s);
  }

  lemma {:induction false} CountsMove(g: string, h: string, tail: string, s: string, t: string)
    requires s == g + tail && g != "" && g[|g| - 1] != '\\' && forall j: nat :: j < |g| ==> !OccursAt(s, Quote("action"), j)
    requires t == h + tail && h != "" && h[|h| - 1] != '\\' && forall j: nat :: j < |h| ==> !OccursAt(t, Quote("action"), j)
    ensures (exists p: nat :: Counts(s, 0, p)) ==> exists p: nat :: Counts(t, 0, p)
  {
    if p: nat :| Counts(s, 0, p) {
      CountsBehind(g, h, tail, s, t, p - |g|);
      assert Counts(t, 0, |h| + (p - |g|));
    }
  }

  lemma {:induction false} CountsBehind(g: string, h: string, tail: string, s: string, t: string, i: nat)
    requires s == g + tail && g != "" && g[|g| - 1] != '\\' && forall j: nat :: j < |g| ==> !OccursAt(s, Quote("action"), j)
    requires t == h + tail && h != "" && h[|h| - 1] != '\\' && forall j: nat :: j < |h| ==> !OccursAt(t, Quote("action"), j)
    ensures Counts(s, 0, |g| + i) <==> Counts(t, 0, |h| + i)
  {
    PlaceBehind(g, h, tail, i, Quote("action"));
    if i >= 7 {
      PlaceBehind(g, h, tail, i - 7, Quote("action"));
    }
  }

  lemma {:induction false} PlaceBehind(g: string, h: string, tail: string, i: nat, flag: string)
    requires g != "" && g[|g| - 1] != '\\' && h != "" && h[|h| - 1] != '\\' && flag != ""
    ensures OccursAt(g + tail, flag, |g| + i) <==> OccursAt(h + tail, flag, |h| + i)
    ensures OccursAt(g + tail, flag, |g| + i) ==> (Unescaped(g + tail, |g| + i) <==> Unescaped(h + tail, |h| + i))
  {
    OccursBehind(g, tail, i, flag);
    OccursBehind(h, tail, i, flag);
    if i <= |tail| {
      SameBefore(g, tail, i);
      SameBefore(h, tail, i);
    }
  }

  lemma {:induction false} OccursBehind(g: string, tail: string, i: nat, flag: string)
    ensures OccursAt(g + tail, flag, |g| + i) <==> OccursAt(tail, flag, i)
  {
    if i + |flag| <= |tail| {
      assert (g + tail)[|g| + i..|g| + i + |flag|] == tail[i..i + |flag|];
    }
  }

  /** The channel reads back what the manager spliced in: the URL, and the request's own fields. */
  lemma ReceiverSeesRequest(c: Channel, url: string, json: string)
    requires json != "" && json[0] == '{' && url != "" && QuoteFree(url) && !EndsWith(url, "\\")
    requires url != "action" && url != "request_id" && url != "work_id"
    ensures EventCall(c, Splice(url, json))
         == if Flagged(json, 0) then Channel(url, JsonGet(json, "request_id"), JsonGet(json, "work_id")) else c
  {
    FlagUnchanged(url, json);
    UrlReadBack(url, json);
    RequestIdUnchanged(url, json);
    WorkIdUnchanged(url, json);
  }

  /** A printed object in which a field is read back as this text. */
  ghost predicate Holds(st: Style, fs: seq<Field>, i: nat, key: string, text: string) {
    i < |fs| && fs[i].key == key && Absent(fs[..i], key) && Readable(fs[i].value) && Payload(fs[i].value) == text
  }

  lemma {:induction false} HeldIsRead(json: string, st: Style, fs: seq<Field>, i: nat, key: string, text: string)
    requires json == PrintObject(st, fs) && BlankStyle(st) && SeparatorFree(key) && Holds(st, fs, i, key, text)
    ensures JsonGet(json, key) == text
  {
    ScanInvertsPrinting(st, fs, i, key);
  }

  /** What a request must hold: an action, and the two ids. */
  ghost predicate Request(st: Style, fs: seq<Field>, i: nat, j: nat, k: nat, requestId: string, workId: string) {
    && i < |fs| && BlankStyle(st) && fs[i].key == "action" && Absent(fs[..i], "action")
    && Holds(st, fs, j, "request_id", requestId) && Holds(st, fs, k, "work_id", workId)
  }

  lemma {:induction false} RequestRead(json: string, st: Style, fs: seq<Field>, i: nat, j: nat, k: nat, requestId: string, workId: string)
    requires json == PrintObject(st, fs) && Request(st, fs, i, j, k, requestId, workId)
    ensures Flagged(json, 0) && JsonGet(json, "request_id") == requestId && JsonGet(json, "work_id") == workId
    ensures json != "" && json[0] == '{'
  {
    RequestNoticed(json, st, fs, i);
    IdNames();
    IdsRead(json, st, fs, j, "request_id", requestId, k, "work_id", workId);
  }

  lemma {:induction false} IdNames()
    ensures SeparatorFree("request_id") && SeparatorFree("work_id")
  {
  }

  lemma {:induction false} IdsRead(json: string, st: Style, fs: seq<Field>, j: nat, a: string, x: string, k: nat, b: string, y: string)
    requires json == PrintObject(st, fs) && BlankStyle(st) && SeparatorFree(a) && SeparatorFree(b)
    requires Holds(st, fs, j, a, x) && Holds(st, fs, k, b, y)
    ensures JsonGet(json, a) == x && JsonGet(json, b) == y && json != "" && json[0] == '{'
  {
    HeldIsRead(json, st, fs, j, a, x);
    HeldIsRead(json, st, fs, k, b, y);
  }

  /** So a printed request gives the channel the URL spliced into it and its own two ids. */
  lemma {:induction false} PrintedRequestSeen(c: Channel, url: string, json: string, st: Style, fs: seq<Field>,
                                              i: nat, j: nat, k: nat, requestId: string, workId: string)
    requires url != "" && QuoteFree(url) && !EndsWith(url, "\\") && url != "action" && url != "request_id" && url != "work_id"
    requires json == PrintObject(st, fs) && Request(st, fs, i, j, k, requestId, workId)
    ensures EventCall(c, Splice(url, json)) == Channel(url, requestId, workId)
  {
    RequestRead(json, st, fs, i, j, k, requestId, workId);
    ReceiverSeesRequest(c, url, json);
  }

  /** Without a URL in it, a request changes the ids only. */
  lemma {:induction false} RequestWithoutUrl(c: Channel, json: string, st: Style, fs: seq<Field>,
                                             i: nat, j: nat, k: nat, requestId: string, workId: string)
    requires json == PrintObject(st, fs) && Request(st, fs, i, j, k, requestId, workId) && Absent(fs, ZMQ_COM)
    ensures EventCall(c, json) == Channel(c.outputUrl, requestId, workId)
  {
    RequestRead(json, st, fs, i, j, k, requestId, workId);
    AbsentGivesNothing(st, fs, ZMQ_COM);
  }

  lemma RequestIdUnchanged(url: string, json: string)
    requires json != "" && json[0] == '{' && QuoteFree(url) && url != "request_id"
    ensures JsonGet(Splice(url, json), "request_id") == JsonGet(json, "request_id")
  {
    OtherKeysUnchanged(url, json, "request_id");
  }

  lemma WorkIdUnchanged(url: string, json: string)
    requires json != "" && json[0] == '{' && QuoteFree(url) && url != "work_id"
    ensures JsonGet(Splice(url, json), "work_id") == JsonGet(json, "work_id")
  {
    OtherKeysUnchanged(url, json, "work_id");
  }
}

/** The splice on its byte buffer, and the channel object. */
module Envelopes {
  import opened Common
  import opened Text
  import opened JsonScan
  import E = EnvelopeModel

  /** `sprintf` of a text: the text and a closing zero. */
  method Sprintf(buf: array<char>, at: nat, text: string) returns (n: nat)
    requires at + |text| < buf.Length
    modifies buf
    ensures n == |text| && buf[..] == Overwrite(old(buf[..]), at, text + ['\0'])
    ensures buf[..at + n] == old(buf[..at]) + text
  {
    forall i | 0 <= i < |text| {
      buf[at + i] := text[i];
    }
    buf[at + |text|] := '\0';
    n := |text|;
  }

  method Memcpy(buf: array<char>, at: nat, data: string)
    requires at + |data| <= buf.Length
    modifies buf
    ensures buf[..] == Overwrite(old(buf[..]), at, data)
    ensures buf[..at + |data|] == old(buf[..at]) + data
  {
    forall i | 0 <= i < |data| {
      buf[at + i] := data[i];
    }
  }

  /** The inference branch of `unit_action_match`. The buffer has one place behind its size for the zero that
      closes a C++ string; the writes stay inside it and fill the size exactly. */
  method SpliceInference(url: string, json: string) returns (data: string)
    requires json != ""
    ensures data == E.Splice(url, json)
  {
    var size := |url| + |json| + 13;
    var buf := new char[size + 1](i => '\0');
    var open := "{\"zmq_com\":\"";
    PrefixText(url);
    var post := Sprintf(buf, 0, open);
    assert buf[..post] == open;
    var n := Sprintf(buf, post, url);
    post := post + n;
    n := Sprintf(buf, post, "\",");
    post := post + n;
    assert buf[..post] == E.Prefix(url);
    Memcpy(buf, post, json[1..]);
    data := buf[..size];
  }

  lemma PrefixText(url: string)
    ensures E.Prefix(url) == "{\"zmq_com\":\"" + url + "\","
  {
    assert "{" + Quote("zmq_com") + ":" + "\"" == "{\"zmq_com\":\"";
    assert "\"" + "," == "\",";
    assert E.Prefix(url) == ("{" + Quote("zmq_com") + ":" + "\"") + url + ("\"" + ",");
  }

  class LlmChannel {
    var outputUrl: string
    var requestId: string
    var workId: string

    ghost function View(): E.Channel
      reads this
    {
      E.Channel(outputUrl, requestId, workId)
    }

    constructor ()
      ensures View() == E.Channel("", "", "")
    {
      outputUrl, requestId, workId := "", "", "";
    }

    method SetPushUrl(url: string)
      modifies this`outputUrl
      ensures outputUrl == url
    {
      if outputUrl != url {
        outputUrl := url;
      }
    }

    /** The search loop of `subscriber_event_call`. */
    static method FindRequest(raw: string) returns (found: bool)
      ensures found <==> exists p: nat :: E.Counts(raw, 0, p)
    {
      E.FlagIs(raw, 0);
      found := Search(raw);
    }

    /** Its loop. */
    static method Search(raw: string) returns (found: bool)
      ensures found <==> E.Flagged(raw, 0)
    {
      var flag := Quote("action");
      var pos := Find(raw, flag, 0);
      while true
        invariant pos.Some? ==> pos.value + |flag| <= |raw|
        invariant E.Flagged(raw, 0) <==> pos.Some? && (E.Unescaped(raw, pos.value) || E.Flagged(raw, pos.value + 8))
        decreases |raw| - (if pos.Some? then pos.value else |raw|)
      {
        if pos.None? {
          return false;
        } else if pos.value > 0 && raw[pos.value - 1] != '\\' {
          return true;
        }
        pos := Find(raw, flag, pos.value + 8);
      }
    }

    /** `subscriber_event_call`: the arguments of the callback, and the fields it sees. */
    method SubscriberEventCall(raw: string) returns (object_: string, data: string)
      modifies this
      ensures View() == E.EventCall(old(View()), raw)
      ensures object_ == JsonGet(raw, "object") && data == JsonGet(raw, "data")
    {
      var found := FindRequest(raw);
      E.FlagIs(raw, 0);
      if found {
        var zmqCom := JsonGet(raw, "zmq_com");
        if zmqCom != "" {
          SetPushUrl(zmqCom);
        }
        requestId := JsonGet(raw, "request_id");
        workId := JsonGet(raw, "work_id");
      }
      object_ := JsonGet(raw, "object");
      data := JsonGet(raw, "data");
    }
  }
}
