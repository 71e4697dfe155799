/** The character-level field scanner of infra-controller/src/StackFlowUtil.cpp, and the printed
    objects it is meant to read. */
module JsonScan {
  import opened Common
  import opened Text

  // ---------------------------------------------------------------- the scanner

  /** `status`: 0, 10, 100 and -1. */
  datatype Status = Seeking | InObject | InString | Done

  /** The scanner's variables: `status`, `key_val`, `obj_flage`, `last_c`. */
  datatype Scan = Scan(status: Status, value: string, flag: int, last: char)

  const START := Scan(Seeking, "", 0, '\0')

  function Feed(s: Scan, c: char): Scan {
    var t := match s.status
      case Seeking => (
        match c
        case '"' => s.(status := InString)
        case '{' => Scan(InObject, s.value + [c], 1, s.last)
        case ':' => s.(flag := 1)
        case ',' => s.(flag := 0, status := Done)
        case '}' => s.(flag := 0, status := Done)
        case ' ' => s
        case _ => if s.flag != 0 then s.(value := s.value + [c]) else s)
      case InObject =>
        var flag := s.flag + (if c == '{' then 1 else 0) - (if c == '}' then 1 else 0);
        Scan(if flag == 0 then Done else InObject, s.value + [c], flag, s.last)
      case InString =>
        if c == '"' && s.last != '\\' then s.(flag := 0, status := Done) else s.(value := s.value + [c])
      case Done => s;
    t.(last := c)
  }

  function FeedAll(s: Scan, text: string): Scan
    decreases |text|
  {
    if text == [] then s else FeedAll(Feed(s, text[0]), text[1..])
  }

  function Result(s: Scan): string {
    if s.flag != 0 then "" else s.value
  }

  function Quote(key: string): string { "\"" + key + "\"" }

  /** `sample_json_str_get`. */
  function JsonGet(json: string, key: string): string {
    var at := Find(json, Quote(key), 0);
    if at.None? then "" else Result(FeedAll(START, json[at.value + |Quote(key)|..]))
  }

  lemma {:induction false} FeedAllSnoc(s: Scan, text: string, c: char)
    ensures FeedAll(s, text + [c]) == Feed(FeedAll(s, text), c)
    decreases |text|
  {
    if text == [] {
      assert FeedAll(Feed(s, c), [c][1..]) == Feed(s, c);
    } else {
      assert (text + [c])[1..] == text[1..] + [c];
      FeedAllSnoc(Feed(s, text[0]), text[1..], c);
    }
  }

  lemma {:induction false} FeedAllSplits(s: Scan, a: string, b: string)
    ensures FeedAll(s, a + b) == FeedAll(FeedAll(s, a), b)
    decreases |a|
  {
    if a == [] {
      assert a + b == b;
    } else {
      assert (a + b)[1..] == a[1..] + b;
      FeedAllSplits(Feed(s, a[0]), a[1..], b);
    }
  }

  /** The loop of `sample_json_str_get`, on the scanner's own variables. */
  method SampleJsonStrGet(json: string, key: string) returns (keyVal: string)
    ensures keyVal == JsonGet(json, key)
  {
    var findKey := "\"" + key + "\"";
    var found := Find(json, findKey, 0);
    keyVal := "";
    if found.None? {
      return;
    }
    var status, lastC, objFlag := Seeking, '\0', 0;
    var rest := json[found.value + |findKey|..];
    for i := 0 to |rest|
      invariant Scan(status, keyVal, objFlag, lastC) == FeedAll(START, rest[..i])
    {
      var c := rest[i];
      assert rest[..i + 1] == rest[..i] + [c];
      FeedAllSnoc(START, rest[..i], c);
      match status {
        case Seeking =>
          if c == '"' {
            status := InString;
          } else if c == '{' {
            keyVal := keyVal + [c];
            objFlag := 1;
            status := InObject;
          } else if c == ':' {
            objFlag := 1;
          } else if c == ',' || c == '}' {
            objFlag := 0;
            status := Done;
          } else if c != ' ' && objFlag != 0 {
            keyVal := keyVal + [c];
          }
        case InObject =>
          keyVal := keyVal + [c];
          if c == '{' {
            objFlag := objFlag + 1;
          }
          if c == '}' {
            objFlag := objFlag - 1;
          }
          if objFlag == 0 {
            status := Done;
          }
        case InString =>
          if c == '"' && lastC != '\\' {
            objFlag := 0;
            status := Done;
          } else {
            keyVal := keyVal + [c];
          }
        case Done =>
      }
      lastC := c;
    }
    assert rest[..|rest|] == rest;
    if objFlag != 0 {
      keyVal := "";
    }
  }

  // ---------------------------------------------------------------- printed values

  /** A value as it stands in the text: a quoted text (escapes included), a bare token, or an object. */
  datatype Value = Quoted(text: string) | Bare(token: string) | Object(body: string)

  function Printed(v: Value): string {
    match v
    case Quoted(text) => Quote(text)
    case Bare(token) => token
    case Object(body) => body
  }

  function Payload(v: Value): string {
    match v
    case Quoted(text) => text
    case Bare(token) => token
    case Object(body) => body
  }

  /** Every quote inside is escaped. */
  ghost predicate QuotesEscaped(text: string) {
    forall i :: 0 <= i < |text| && text[i] == '"' ==> i > 0 && text[i - 1] == '\\'
  }

  function Depth(s: string): int {
    if s == [] then 0
    else Depth(s[..|s| - 1]) + (match s[|s| - 1] case '{' => 1 case '}' => -1 case _ => 0)
  }

  /** What the scanner can read: a text whose quotes are escaped and which does not end in a backslash; a
      token free of the characters the scanner reacts to; the shortest stretch from an opening brace to
      where the braces (wherever they stand) balance. */
  ghost predicate Readable(v: Value) {
    match v
    case Quoted(text) => QuotesEscaped(text) && (text != "" ==> text[|text| - 1] != '\\')
    case Bare(token) => forall i :: 0 <= i < |token| ==> token[i] !in "\"{}:, "
    case Object(body) =>
      body != "" && body[0] == '{' && Depth(body) == 0 && forall i :: 0 < i < |body| ==> Depth(body[..i]) > 0
  }

  predicate Blank(s: string) { forall i :: 0 <= i < |s| ==> s[i] == ' ' }

  lemma {:induction false} FeedBlank(s: Scan, gap: string)
    requires Blank(gap) && s.status == Seeking
    ensures FeedAll(s, gap).status == Seeking && FeedAll(s, gap).value == s.value && FeedAll(s, gap).flag == s.flag
    decreases |gap|
  {
    if gap != [] {
      FeedBlank(Feed(s, gap[0]), gap[1..]);
    }
  }

  lemma {:induction false} FeedDone(s: Scan, rest: string)
    requires s.status == Done
    ensures FeedAll(s, rest).value == s.value && FeedAll(s, rest).flag == s.flag && FeedAll(s, rest).status == Done
    decreases |rest|
  {
    if rest != [] {
      FeedDone(Feed(s, rest[0]), rest[1..]);
    }
  }

  lemma {:induction false} FeedString(s: Scan, text: string)
    requires s.status == InString && s.last != '\\' && QuotesEscaped(text)
    ensures FeedAll(s, text) == Scan(InString, s.value + text, s.flag, if text == "" then s.last else text[|text| - 1])
    decreases |text|
  {
    if text == "" {
      assert s.value + text == s.value;
    } else {
      var most, c := text[..|text| - 1], text[|text| - 1];
      assert text == most + [c];
      FeedString(s, most);
      FeedAllSnoc(s, most, c);
      assert s.value + text == (s.value + most) + [c];
    }
  }

  lemma {:induction false} FeedToken(s: Scan, token: string)
    requires s.status == Seeking && s.flag != 0 && Readable(Bare(token))
    ensures FeedAll(s, token).status == Seeking && FeedAll(s, token).flag == s.flag && FeedAll(s, token).value == s.value + token
    decreases |token|
  {
    if token == "" {
      assert s.value + token == s.value;
    } else {
      assert Readable(Bare(token[1..]));
      FeedToken(Feed(s, token[0]), token[1..]);
      assert s.value + token == (s.value + [token[0]]) + token[1..];
    }
  }

  lemma {:induction false} FeedObject(s: Scan, body: string, n: nat)
    requires s.status == Seeking && s.value == "" && 0 < n <= |body| && body[0] == '{'
    requires forall i :: 0 < i < n ==> Depth(body[..i]) > 0
    ensures var t := FeedAll(s, body[..n]);
            && t.value == body[..n] && t.flag == Depth(body[..n])
            && t.status == if Depth(body[..n]) == 0 then Done else InObject
    decreases n
  {
    assert body[..n] == body[..n - 1] + [body[n - 1]];
    FeedAllSnoc(s, body[..n - 1], body[n - 1]);
    if n == 1 {
      assert body[..0] == "";
      assert Depth(body[..1]) == 1;
    } else {
      FeedObject(s, body, n - 1);
    }
  }

  /** The rest of the text once the key has been found: colon, value, and for a bare token a comma or a
      closing brace behind it. */
  ghost predicate Follows(rest: string, v: Value, gap: string, after: string) {
    && Blank(gap) && rest == ":" + gap + Printed(v) + after
    && (v.Bare? ==> after != "" && (after[0] == ',' || after[0] == '}'))
  }

  lemma ScanValue(rest: string, v: Value, gap: string, after: string)
    requires Follows(rest, v, gap, after) && Readable(v)
    ensures Result(FeedAll(START, rest)) == Payload(v) && FeedAll(START, rest).status == Done
  {
    var s1 := Feed(START, ':');
    assert (":" + gap)[1..] == gap;
    FeedBlank(s1, gap);
    var s2 := FeedAll(s1, gap);
    assert FeedAll(START, ":" + gap) == s2;
    assert rest == ":" + gap + (Printed(v) + after);
    FeedAllSplits(START, ":" + gap, Printed(v) + after);
    FeedAllSplits(s2, Printed(v), after);
    ScanPrinted(s2, v, after);
  }

  lemma ScanPrinted(s: Scan, v: Value, after: string)
    requires s.status == Seeking && s.value == "" && s.flag == 1 && Readable(v)
    requires v.Bare? ==> after != "" && (after[0] == ',' || after[0] == '}')
    ensures var t := FeedAll(FeedAll(s, Printed(v)), after); Result(t) == Payload(v) && t.status == Done
  {
    match v
    case Quoted(text) =>
      var s1 := Feed(s, '"');
      assert Quote(text)[1..] == text + "\"";
      FeedString(s1, text);
      FeedAllSnoc(s1, text, '"');
      assert "" + text == text;
      FeedDone(FeedAll(s, Quote(text)), after);
    case Bare(token) =>
      FeedToken(s, token);
      assert "" + token == token;
      var s1 := FeedAll(s, token);
      FeedDone(Feed(s1, after[0]), after[1..]);
    case Object(body) =>
      assert body[..|body|] == body;
      FeedObject(s, body, |body|);
      FeedDone(FeedAll(s, body), after);
  }

  /** If the first occurrence of the quoted key is followed by a readable value, the scanner returns it. */
  lemma FirstKeyGives(json: string, key: string, at: nat, v: Value, gap: string, after: string)
    requires Find(json, Quote(key), 0) == Some(at)
    requires Follows(json[at + |Quote(key)|..], v, gap, after) && Readable(v)
    ensures JsonGet(json, key) == Payload(v) && Settled(json, key)
  {
    GetFrom(json, key, Quote(key), at);
    ScanValue(json[at + |Quote(key)|..], v, gap, after);
  }

  /** The scan for the key ends inside the text. */
  predicate Settled(json: string, key: string) {
    var at := Find(json, Quote(key), 0);
    at.Some? && FeedAll(START, json[at.value + |Quote(key)|..]).status == Done
  }

  lemma {:induction false} FindExtends(s: string, more: string, pat: string, from: nat)
    requires Find(s, pat, from).Some?
    ensures Find(s + more, pat, from) == Find(s, pat, from)
    decreases |s| - from
  {
    assert (s + more)[from..from + |pat|] == s[from..from + |pat|];
    if s[from..from + |pat|] != pat {
      FindExtends(s, more, pat, from + 1);
    }
  }

  /** What stands behind a settled scan makes no difference. */
  lemma SettledExtends(json: string, more: string, key: string)
    requires Settled(json, key)
    ensures JsonGet(json + more, key) == JsonGet(json, key)
  {
    var quoted := Quote(key);
    FindExtends(json, more, quoted, 0);
    var at := Find(json, quoted, 0).value;
    GetFrom(json, key, quoted, at);
    GetFrom(json + more, key, quoted, at);
    DropJoins(json, more, at + |quoted|);
    FeedAllSplits(START, json[at + |quoted|..], more);
    FeedDone(FeedAll(START, json[at + |quoted|..]), more);
  }

  lemma DropJoins(s: string, more: string, n: nat)
    requires n <= |s|
    ensures (s + more)[n..] == s[n..] + more
  {
  }

  // ---------------------------------------------------------------- objects, whatever their braces do

  /** The first place from `n` on up to which the braces balance. */
  function Closing(t: string, n: nat): (r: Option<nat>)
    requires n <= |t|
    ensures r.Some? ==> n <= r.value <= |t| && Depth(t[..r.value]) == 0
    decreases |t| - n
  {
    if Depth(t[..n]) == 0 then Some(n) else if n == |t| then None else Closing(t, n + 1)
  }

  /** Up to there the depth stays positive. */
  lemma {:induction false} PositiveBefore(t: string, n: nat)
    requires 0 < n <= |t| && (forall i :: 0 < i < n ==> Depth(t[..i]) > 0) && (n == 1 ==> t[0] == '{')
    ensures forall i :: 0 < i <= |t| && (Closing(t, n).Some? ==> i < Closing(t, n).value) ==> Depth(t[..i]) > 0
    decreases |t| - n
  {
    if Depth(t[..n]) != 0 {
      assert t[..n][..n - 1] == t[..n - 1];
      if n < |t| {
        PositiveBefore(t, n + 1);
      }
    }
  }

  /** The scanner reads an object up to where its braces balance, and nothing when they never do. */
  lemma ScanBraces(json: string, key: string, at: nat, t: string)
    requires Find(json, Quote(key), 0) == Some(at) && json[at + |Quote(key)|..] == ":" + t && t != "" && t[0] == '{'
    ensures JsonGet(json, key) == match Closing(t, 1) case Some(n) => t[..n] case None => ""
  {
    GetFrom(json, key, Quote(key), at);
    assert (":" + t)[1..] == t;
    FeedBraces(Feed(START, ':'), t);
  }

  lemma FeedBraces(s: Scan, t: string)
    requires s.status == Seeking && s.value == "" && t != "" && t[0] == '{'
    ensures Result(FeedAll(s, t)) == match Closing(t, 1) case Some(n) => t[..n] case None => ""
  {
    PositiveBefore(t, 1);
    match Closing(t, 1)
    case Some(n) =>
      FeedObject(s, t, n);
      assert t[..n] + t[n..] == t;
      FeedAllSplits(s, t[..n], t[n..]);
      FeedDone(FeedAll(s, t[..n]), t[n..]);
    case None =>
      FeedObject(s, t, |t|);
      assert t[..|t|] == t;
  }

  // ---------------------------------------------------------------- printed objects

  datatype Field = Field(key: string, value: Value)

  /** The blanks a printer puts behind colons and commas. */
  datatype Style = Style(afterColon: string, afterComma: string)

  function PrintField(st: Style, f: Field): string { Quote(f.key) + (":" + st.afterColon + Printed(f.value)) }

  function PrintFields(st: Style, fs: seq<Field>): string {
    if fs == [] then "}"
    else if |fs| == 1 then PrintField(st, fs[0]) + "}"
    else PrintField(st, fs[0]) + ("," + st.afterComma) + PrintFields(st, fs[1..])
  }

  function PrintObject(st: Style, fs: seq<Field>): string { "{" + PrintFields(st, fs) }

  /** What the printed object holds before field `i`. */
  function Before(st: Style, fs: seq<Field>, i: nat): string
    requires i < |fs|
  {
    if i == 0 then "" else PrintField(st, fs[0]) + ("," + st.afterComma) + Before(st, fs[1..], i - 1)
  }

  /** What the printed object holds behind field `i`. */
  function After(st: Style, fs: seq<Field>, i: nat): string
    requires i < |fs|
  {
    if i == |fs| - 1 then "}" else "," + st.afterComma + PrintFields(st, fs[i + 1..])
  }

  lemma {:induction false} PrintSplits(st: Style, fs: seq<Field>, i: nat)
    requires i < |fs|
    ensures PrintFields(st, fs) == Before(st, fs, i) + PrintField(st, fs[i]) + After(st, fs, i)
    decreases i
  {
    var f := PrintField(st, fs[0]);
    if i > 0 {
      PrintSplits(st, fs[1..], i - 1);
      assert fs[1..][i..] == fs[i + 1..];
      assert After(st, fs[1..], i - 1) == After(st, fs, i);
      Reassociate(f, "," + st.afterComma, Before(st, fs[1..], i - 1), PrintField(st, fs[i]), After(st, fs, i));
    } else if |fs| > 1 {
      assert f + ("," + st.afterComma) + PrintFields(st, fs[1..]) == "" + f + ("," + st.afterComma + PrintFields(st, fs[1..]));
    } else {
      assert f + "}" == "" + f + "}";
    }
  }

  lemma Reassociate(a: string, b: string, c: string, d: string, e: string)
    ensures a + b + (c + d + e) == (a + b + c) + d + e
  {
  }

  // ---------------------------------------------------------------- where a key can occur

  /** Keys that contain none of the characters a printer puts between keys and values. */
  predicate SeparatorFree(key: string) { forall i :: 0 <= i < |key| ==> key[i] !in ":,{} " }

  ghost predicate Contains(s: string, pat: string) { exists i: nat :: OccursAt(s, pat, i) }

  /** An occurrence cannot straddle a character that the pattern lacks. */
  lemma OccurrenceSplits(a: string, c: char, b: string, pat: string, i: nat)
    requires pat != "" && c !in pat && OccursAt(a + [c] + b, pat, i)
    ensures OccursAt(a, pat, i) || (i > |a| && OccursAt(b, pat, i - |a| - 1))
  {
    var s := a + [c] + b;
    assert forall j :: i <= j < i + |pat| ==> s[j] == pat[j - i] && s[j] in pat;
    assert !(i <= |a| < i + |pat|) by { assert s[|a|] == c; }
    if i + |pat| <= |a| {
      assert s[i..i + |pat|] == a[i..i + |pat|];
    } else {
      assert s[i..i + |pat|] == b[i - |a| - 1..i - |a| - 1 + |pat|];
    }
  }

  lemma QuoteLacks(key: string, c: char)
    requires SeparatorFree(key) && c in ":,{} "
    ensures c !in Quote(key)
  {
    forall i | 0 <= i < |Quote(key)| ensures Quote(key)[i] != c {
      assert 0 < i <= |key| ==> Quote(key)[i] == key[i - 1];
    }
  }

  predicate QuoteFree(s: string) { '"' !in s }

  lemma OtherQuote(s: string, key: string)
    requires QuoteFree(s) && QuoteFree(key) && s != key
    ensures !Contains(Quote(s), Quote(key))
  {
    forall i: nat | OccursAt(Quote(s), Quote(key), i) ensures false {
      SameQuote(s, key, i);
    }
  }

  lemma SameQuote(s: string, key: string, i: nat)
    requires QuoteFree(s) && OccursAt(Quote(s), Quote(key), i)
    ensures s == key
  {
    var q, n := Quote(s), |key| + 2;
    assert q[i..i + n][0] == q[i] == '"' && q[i..i + n][n - 1] == q[i + n - 1] == '"';
    assert forall j :: 0 < j <= |s| ==> q[j] == s[j - 1] && s[j - 1] in s;
    assert i == 0 && i + n == |q|;
    assert q[0..|q|] == q;
    assert q[1..|s| + 1] == s && Quote(key)[1..|key| + 1] == key;
  }

  lemma QuotesAt(s: string, k: string, i: nat)
    requires OccursAt(s, Quote(k), i)
    ensures s[i] == '"' && s[i + |k| + 1] == '"' && (k != "" ==> s[i + |k|] == k[|k| - 1])
  {
    assert s[i + |k| + 1] == s[i..i + |k| + 2][|k| + 1] && s[i] == s[i..i + |k| + 2][0];
    assert s[i + |k|] == s[i..i + |k| + 2][|k|];
  }

  lemma TokenLacks(token: string, k: string)
    requires Readable(Bare(token))
    ensures !Contains(token, Quote(k))
  {
    forall i: nat | OccursAt(token, Quote(k), i) ensures false {
      QuotesAt(token, k, i);
    }
  }

  /** A text split by a separator contains the quoted key only inside one of the parts. */
  lemma SplitClean(a: string, c: char, b: string, key: string)
    requires SeparatorFree(key) && c in ":,{} "
    requires !Contains(a, Quote(key)) && !Contains(b, Quote(key))
    ensures !Contains(a + [c] + b, Quote(key))
  {
    QuoteLacks(key, c);
    forall i: nat | OccursAt(a + [c] + b, Quote(key), i) ensures false {
      OccurrenceSplits(a, c, b, Quote(key), i);
    }
  }

  /** The same with blanks behind the separator. */
  lemma {:induction false} SplitCleanBlank(a: string, c: char, gap: string, b: string, key: string)
    requires SeparatorFree(key) && c in ":,{} " && Blank(gap)
    requires !Contains(a, Quote(key)) && !Contains(b, Quote(key))
    ensures !Contains(a + ([c] + gap + b), Quote(key))
    decreases |gap|
  {
    if gap == "" {
      SplitClean(a, c, b, key);
      assert a + ([c] + gap + b) == a + [c] + b;
    } else {
      assert !Contains("", Quote(key));
      SplitCleanBlank("", gap[0], gap[1..], b, key);
      SplitClean(a, c, "" + ([gap[0]] + gap[1..] + b), key);
      assert a + ([c] + gap + b) == a + [c] + ("" + ([gap[0]] + gap[1..] + b));
    }
  }

  /** Neither the field's own quoted key nor its printed value contains the quoted `key`. */
  ghost predicate FieldLacks(f: Field, key: string) {
    !Contains(Quote(f.key), Quote(key)) && !Contains(Printed(f.value), Quote(key))
  }

  ghost predicate Absent(fs: seq<Field>, key: string) {
    forall j :: 0 <= j < |fs| ==> FieldLacks(fs[j], key)
  }

  ghost predicate BlankStyle(st: Style) { Blank(st.afterColon) && Blank(st.afterComma) }

  lemma FieldClean(st: Style, f: Field, key: string)
    requires BlankStyle(st) && SeparatorFree(key) && FieldLacks(f, key)
    ensures !Contains(PrintField(st, f), Quote(key))
  {
    SplitCleanBlank(Quote(f.key), ':', st.afterColon, Printed(f.value), key);
  }

  lemma {:induction false} BeforeClean(st: Style, fs: seq<Field>, i: nat, key: string)
    requires i < |fs| && BlankStyle(st) && SeparatorFree(key) && Absent(fs[..i], key)
    ensures !Contains(Before(st, fs, i), Quote(key))
    decreases i
  {
    if i > 0 {
      var f, rest := PrintField(st, fs[0]), Before(st, fs[1..], i - 1);
      assert fs[..i][0] == fs[0] && fs[1..][..i - 1] == fs[..i][1..];
      BeforeClean(st, fs[1..], i - 1, key);
      FieldClean(st, fs[0], key);
      SplitCleanBlank(f, ',', st.afterComma, rest, key);
      assert f + ("," + st.afterComma) + rest == f + ([','] + st.afterComma + rest);
    }
  }

  lemma {:induction false} BeforeEnds(st: Style, fs: seq<Field>, i: nat)
    requires i < |fs| && BlankStyle(st)
    ensures ("{" + Before(st, fs, i))[|Before(st, fs, i)|] in ":,{} "
    decreases i
  {
    if i > 0 {
      BeforeEnds(st, fs[1..], i - 1);
      var rest := Before(st, fs[1..], i - 1);
      if rest == "" && st.afterComma != "" {
        assert st.afterComma[|st.afterComma| - 1] == ' ';
      }
    }
  }

  /** The quoted key, put behind a text that lacks it and ends in a separator, is found there. */
  lemma FirstAfterClean(head: string, key: string, rest: string)
    requires SeparatorFree(key) && head != "" && head[|head| - 1] in ":,{} " && !Contains(head, Quote(key))
    ensures Find(head + Quote(key) + rest, Quote(key), 0) == Some(|head|)
  {
    var json, a, c := head + Quote(key) + rest, head[..|head| - 1], head[|head| - 1];
    QuoteLacks(key, c);
    assert json == a + [c] + (Quote(key) + rest);
    assert json[|head|..|head| + |Quote(key)|] == Quote(key);
    forall j: nat | j < |head| && OccursAt(json, Quote(key), j) ensures false {
      OccurrenceSplits(a, c, Quote(key) + rest, Quote(key), j);
      assert a[j..j + |Quote(key)|] == head[j..j + |Quote(key)|];
      assert OccursAt(head, Quote(key), j);
    }
    FindIs(json, Quote(key), |head|);
  }

  /** When no earlier key or value contains the quoted key, field `i` is where `find` stops. */
  lemma FirstKeyIs(st: Style, fs: seq<Field>, i: nat, key: string)
    requires i < |fs| && BlankStyle(st) && SeparatorFree(key) && Absent(fs[..i], key) && fs[i].key == key
    ensures var head, rest := "{" + Before(st, fs, i), ":" + st.afterColon + Printed(fs[i].value) + After(st, fs, i);
            PrintObject(st, fs) == head + Quote(key) + rest && Find(PrintObject(st, fs), Quote(key), 0) == Some(|head|)
  {
    var before, after := Before(st, fs, i), After(st, fs, i);
    var rest := ":" + st.afterColon + Printed(fs[i].value) + after;
    PrintSplits(st, fs, i);
    BeforeClean(st, fs, i, key);
    BeforeEnds(st, fs, i);
    assert !Contains("", Quote(key));
    SplitClean("", '{', before, key);
    assert "" + ['{'] + before == "{" + before;
    FirstAfterClean("{" + before, key, rest);
    ReassociateFields(before, Quote(key), ":" + st.afterColon + Printed(fs[i].value), after);
  }

  lemma ReassociateFields(a: string, b: string, c: string, d: string)
    ensures "{" + (a + (b + c) + d) == "{" + a + b + (c + d)
  {
  }

  /** For any printed object in which no earlier key or value contains the quoted key, the scanner returns
      field `i`'s value: a text as printed, a bare token, or a whole object. */
  lemma ScanInvertsPrinting(st: Style, fs: seq<Field>, i: nat, key: string)
    requires i < |fs| && BlankStyle(st) && SeparatorFree(key) && Absent(fs[..i], key) && fs[i].key == key
    requires Readable(fs[i].value)
    ensures JsonGet(PrintObject(st, fs), key) == Payload(fs[i].value) && Settled(PrintObject(st, fs), key)
  {
    FirstKeyIs(st, fs, i, key);
    var head, rest := "{" + Before(st, fs, i), ":" + st.afterColon + Printed(fs[i].value) + After(st, fs, i);
    assert (head + Quote(key) + rest)[|head| + |Quote(key)|..] == rest;
    FirstKeyGives(PrintObject(st, fs), key, |head|, fs[i].value, st.afterColon, After(st, fs, i));
  }

  lemma {:induction false} PrintClean(st: Style, fs: seq<Field>, key: string)
    requires BlankStyle(st) && SeparatorFree(key) && Absent(fs, key)
    ensures !Contains(PrintFields(st, fs), Quote(key))
    decreases |fs|
  {
    if fs != [] {
      var f := PrintField(st, fs[0]);
      FieldClean(st, fs[0], key);
      if |fs| == 1 {
        SplitClean(f, '}', "", key);
        assert f + ['}'] + "" == f + "}";
      } else {
        var rest := PrintFields(st, fs[1..]);
        PrintClean(st, fs[1..], key);
        SplitCleanBlank(f, ',', st.afterComma, rest, key);
        assert f + ("," + st.afterComma) + rest == f + ([','] + st.afterComma + rest);
      }
    }
  }

  lemma ObjectClean(st: Style, fs: seq<Field>, key: string)
    requires BlankStyle(st) && SeparatorFree(key) && Absent(fs, key)
    ensures !Contains(PrintObject(st, fs), Quote(key))
  {
    PrintClean(st, fs, key);
    assert !Contains("", Quote(key));
    SplitClean("", '{', PrintFields(st, fs), key);
    assert PrintObject(st, fs) == "" + ['{'] + PrintFields(st, fs);
  }

  /** A key that occurs nowhere gives the empty text. */
  lemma AbsentGivesNothing(st: Style, fs: seq<Field>, key: string)
    requires BlankStyle(st) && SeparatorFree(key) && Absent(fs, key)
    ensures JsonGet(PrintObject(st, fs), key) == ""
  {
    ObjectClean(st, fs, key);
    FindIsFirst(PrintObject(st, fs), Quote(key), 0);
  }

  /** Characters that the scanner does not react to before it has met a colon. */
  predicate Ignored(s: string) { forall i :: 0 <= i < |s| ==> s[i] !in "\"{}:," }

  /** Between a key and its colon they make no difference. */
  lemma {:induction false} BeforeColon(json: string, key: string, head: string, junk: string, rest: string)
    requires json == head + Quote(key) + junk + rest && Find(json, Quote(key), 0) == Some(|head|) && Ignored(junk)
    ensures JsonGet(json, key) == Result(FeedAll(START, rest))
  {
    assert json[|head| + |Quote(key)|..] == junk + rest;
    FeedAllSplits(START, junk, rest);
    var last := FeedIgnored(START, junk);
    LastIgnored(START, last, rest);
  }

  lemma {:induction false} FeedIgnored(s: Scan, junk: string) returns (last: char)
    requires s.status == Seeking && s.flag == 0 && Ignored(junk)
    ensures FeedAll(s, junk) == s.(last := last)
    decreases |junk|
  {
    last := s.last;
    if junk != "" {
      assert Feed(s, junk[0]) == s.(last := junk[0]);
      last := FeedIgnored(Feed(s, junk[0]), junk[1..]);
    }
  }

  lemma {:induction false} LastIgnored(s: Scan, last: char, rest: string)
    requires s.status == Seeking
    ensures Result(FeedAll(s.(last := last), rest)) == Result(FeedAll(s, rest))
  {
    if rest != "" {
      assert Feed(s.(last := last), rest[0]) == Feed(s, rest[0]);
    }
  }

  /** When the quoted key first occurs as a value, the scanner stops at the comma or brace behind it and
      reports nothing, whatever field of that name follows. */
  lemma KeyAsValueMisleads(st: Style, fs: seq<Field>, i: nat, key: string)
    requires i < |fs| && BlankStyle(st) && SeparatorFree(key) && Absent(fs[..i], key)
    requires !Contains(Quote(fs[i].key), Quote(key)) && fs[i].value == Quoted(key)
    ensures JsonGet(PrintObject(st, fs), key) == ""
  {
    var before, name, after := Before(st, fs, i), Quote(fs[i].key) + (":" + st.afterColon), After(st, fs, i);
    PrintSplits(st, fs, i);
    RegroupValue(before, Quote(fs[i].key), ":" + st.afterColon, Quote(key), after);
    ValueHeadClean(st, fs, i, key);
    var head := "{" + (before + name);
    FirstAfterClean(head, key, after);
    assert (head + Quote(key) + after)[|head| + |Quote(key)|] == after[0];
    StopsAtOnce(head + Quote(key) + after, key, |head|);
  }

  lemma RegroupValue(a: string, b: string, c: string, d: string, e: string)
    ensures "{" + (a + (b + c + d) + e) == "{" + (a + (b + c)) + d + e
    ensures b + (c + d) == b + c + d
  {
  }

  lemma ValueHeadClean(st: Style, fs: seq<Field>, i: nat, key: string)
    requires i < |fs| && BlankStyle(st) && SeparatorFree(key) && Absent(fs[..i], key)
    requires !Contains(Quote(fs[i].key), Quote(key))
    ensures var head := "{" + (Before(st, fs, i) + (Quote(fs[i].key) + (":" + st.afterColon)));
            !Contains(head, Quote(key)) && head[|head| - 1] in ":,{} "
  {
    var name := Quote(fs[i].key) + (":" + st.afterColon);
    assert !Contains("", Quote(key));
    SplitCleanBlank(Quote(fs[i].key), ':', st.afterColon, "", key);
    assert Quote(fs[i].key) + ([':'] + st.afterColon + "") == name;
    BeforeThenClean(st, fs, i, name, key);
    SplitClean("", '{', Before(st, fs, i) + name, key);
    assert "" + ['{'] + (Before(st, fs, i) + name) == "{" + (Before(st, fs, i) + name);
    assert name[|name| - 1] == (":" + st.afterColon)[|st.afterColon|];
  }

  lemma StopsAtOnce(json: string, key: string, at: nat)
    requires Find(json, Quote(key), 0) == Some(at)
    requires at + |Quote(key)| < |json| && (json[at + |Quote(key)|] == ',' || json[at + |Quote(key)|] == '}')
    ensures JsonGet(json, key) == "" && Settled(json, key)
  {
    GetFrom(json, key, Quote(key), at);
    DropHas(json, at + |Quote(key)|);
    SeparatorStops(json[at + |Quote(key)|..]);
  }

  lemma DropHas(json: string, n: nat)
    requires n < |json|
    ensures json[n..] != "" && json[n..][0] == json[n]
  {
  }

  lemma GetFrom(json: string, key: string, quoted: string, at: nat)
    requires quoted == Quote(key) && Find(json, quoted, 0) == Some(at)
    ensures JsonGet(json, key) == Result(FeedAll(START, json[at + |quoted|..]))
    ensures Settled(json, key) <==> FeedAll(START, json[at + |quoted|..]).status == Done
  {
  }

  lemma SeparatorStops(after: string)
    requires after != "" && (after[0] == ',' || after[0] == '}')
    ensures Result(FeedAll(START, after)) == "" && FeedAll(START, after).status == Done
  {
    FeedDone(Feed(START, after[0]), after[1..]);
  }

  lemma BeforeThenClean(st: Style, fs: seq<Field>, i: nat, tail: string, key: string)
    requires i < |fs| && BlankStyle(st) && SeparatorFree(key) && Absent(fs[..i], key) && !Contains(tail, Quote(key))
    ensures !Contains(Before(st, fs, i) + tail, Quote(key))
  {
    BeforeClean(st, fs, i, key);
    BeforeEnds(st, fs, i);
    if Before(st, fs, i) == "" {
      assert Before(st, fs, i) + tail == tail;
    } else {
      JoinClean(Before(st, fs, i), tail, key);
    }
  }

  lemma JoinClean(head: string, tail: string, key: string)
    requires SeparatorFree(key) && head != "" && head[|head| - 1] in ":,{} "
    requires !Contains(head, Quote(key)) && !Contains(tail, Quote(key))
    ensures !Contains(head + tail, Quote(key))
  {
    var a, c := head[..|head| - 1], head[|head| - 1];
    forall j: nat | OccursAt(a, Quote(key), j) ensures false {
      assert head[j..j + |Quote(key)|] == a[j..j + |Quote(key)|];
      assert OccursAt(head, Quote(key), j);
    }
    SplitClean(a, c, tail, key);
    assert head + tail == a + [c] + tail;
  }

  // ---------------------------------------------------------------- exactly when a field is read back

  lemma {:induction false} CommaStays(s: Scan, text: string)
    requires ',' in s.value
    ensures ',' in FeedAll(s, text).value
    decreases |text|
  {
    if text != [] {
      CommaStays(Feed(s, text[0]), text[1..]);
    }
  }

  /** Past a comma the scan has ended, or the comma is in its value. */
  lemma {:induction false} FeedComma(s: Scan, text: string)
    requires ',' in text
    ensures FeedAll(s, text).status == Done || ',' in FeedAll(s, text).value
    decreases |text|
  {
    var t := Feed(s, text[0]);
    if text[0] != ',' {
      assert text == [text[0]] + text[1..];
      FeedComma(t, text[1..]);
    } else if t.status == Done {
      FeedDone(t, text[1..]);
    } else {
      assert t.value == s.value + [','];
      CommaStays(t, text[1..]);
    }
  }

  /** The quoted key occurs with a comma somewhere behind it. */
  ghost predicate BeforeComma(s: string, quoted: string) {
    exists i: nat :: OccursAt(s, quoted, i) && CommaFrom(s, i + |quoted|)
  }

  predicate CommaFrom(s: string, n: nat) { exists j :: n <= j < |s| && s[j] == ',' }

  lemma Embedded(a: string, s: string, b: string, pat: string, i: nat)
    requires OccursAt(s, pat, i)
    ensures OccursAt(a + s + b, pat, |a| + i)
  {
    var t := a + s + b;
    assert forall j :: 0 <= j < |s| ==> t[|a| + j] == s[j];
    assert t[|a| + i..|a| + i + |pat|] == s[i..i + |pat|];
  }

  lemma FieldHolds(st: Style, f: Field, quoted: string)
    requires Contains(Quote(f.key), quoted) || Contains(Printed(f.value), quoted)
    ensures Contains(PrintField(st, f), quoted)
  {
    var name, gap, value := Quote(f.key), ":" + st.afterColon, Printed(f.value);
    if Contains(name, quoted) {
      var i: nat :| OccursAt(name, quoted, i);
      Embedded("", name, gap + value, quoted, i);
      assert "" + name + (gap + value) == PrintField(st, f);
    } else {
      var i: nat :| OccursAt(value, quoted, i);
      Embedded(name + gap, value, "", quoted, i);
      assert name + gap + value + "" == PrintField(st, f);
    }
  }

  lemma CommaBehind(s: string, tail: string, quoted: string)
    requires Contains(s, quoted)
    ensures BeforeComma(s + ([','] + tail), quoted)
  {
    var i: nat :| OccursAt(s, quoted, i);
    var t := s + ([','] + tail);
    Embedded("", s, [','] + tail, quoted, i);
    assert "" + s + ([','] + tail) == t;
    assert t[|s|] == ',' && CommaFrom(t, i + |quoted|);
  }

  lemma StaysBehind(a: string, s: string, quoted: string)
    requires BeforeComma(s, quoted)
    ensures BeforeComma(a + s, quoted)
  {
    var i: nat :| OccursAt(s, quoted, i) && CommaFrom(s, i + |quoted|);
    var j :| i + |quoted| <= j < |s| && s[j] == ',';
    Embedded(a, s, "", quoted, i);
    assert a + s + "" == a + s;
    assert (a + s)[|a| + j] == ',' && CommaFrom(a + s, |a| + i + |quoted|);
  }

  /** A quoted key in an earlier field stands before field `i`, with a comma behind it. */
  lemma {:induction false} EarlierKey(st: Style, fs: seq<Field>, i: nat, key: string)
    requires i < |fs| && !Absent(fs[..i], key)
    ensures BeforeComma(Before(st, fs, i), Quote(key))
    decreases i
  {
    var f, rest := PrintField(st, fs[0]), Before(st, fs[1..], i - 1);
    var tail := st.afterComma + rest;
    assert Before(st, fs, i) == f + ([','] + tail);
    if FieldLacks(fs[0], key) {
      assert !Absent(fs[1..][..i - 1], key) by {
        var j :| 0 <= j < i && !FieldLacks(fs[..i][j], key);
        assert fs[1..][..i - 1][j - 1] == fs[..i][j];
      }
      EarlierKey(st, fs[1..], i - 1, key);
      StaysBehind(f + ("," + st.afterComma), rest, Quote(key));
    } else {
      FieldHolds(st, fs[0], Quote(key));
      CommaBehind(f, tail, Quote(key));
    }
  }

  lemma FirstBeforeComma(s: string, quoted: string)
    requires BeforeComma(s, quoted)
    ensures var at := Find(s, quoted, 0); at.Some? && ',' in s[at.value + |quoted|..]
  {
    FindIsFirst(s, quoted, 0);
    var i: nat :| OccursAt(s, quoted, i) && CommaFrom(s, i + |quoted|);
    var j :| i + |quoted| <= j < |s| && s[j] == ',';
    var n := Find(s, quoted, 0).value + |quoted|;
    assert s[n..][j - n] == ',';
  }

  /** Once the scan has begun in front of a comma, it cannot return both of two tokens put behind it. */
  lemma StuckBefore(head: string, key: string, quoted: string, x: string, y: string)
    requires quoted == Quote(key) && BeforeComma(head, quoted)
    ensures !(JsonGet(head + x, key) == "0" && JsonGet(head + y, key) == "1")
  {
    FirstBeforeComma(head, quoted);
    var s := FeedAll(START, head[Find(head, quoted, 0).value + |quoted|..]);
    FeedComma(START, head[Find(head, quoted, 0).value + |quoted|..]);
    ScanGoesOn(head, key, quoted, x);
    ScanGoesOn(head, key, quoted, y);
    StuckScan(s, x, y);
  }

  lemma StuckScan(s: Scan, x: string, y: string)
    requires s.status == Done || ',' in s.value
    ensures !(Result(FeedAll(s, x)) == "0" && Result(FeedAll(s, y)) == "1")
  {
    if s.status == Done {
      FeedDone(s, x);
      FeedDone(s, y);
    } else {
      CommaStays(s, x);
    }
  }

  lemma ScanGoesOn(head: string, key: string, quoted: string, x: string)
    requires quoted == Quote(key) && Find(head, quoted, 0).Some?
    ensures var n := Find(head, quoted, 0).value + |quoted|;
            JsonGet(head + x, key) == Result(FeedAll(FeedAll(START, head[n..]), x))
  {
    var at := Find(head, quoted, 0).value;
    FindExtends(head, x, quoted, 0);
    GetFrom(head + x, key, quoted, at);
    DropJoins(head, x, at + |quoted|);
    FeedAllSplits(START, head[at + |quoted|..], x);
  }

  /** Field `i` is read back whatever readable value it holds exactly when the quoted key occurs in no
      earlier key or value. */
  lemma ReadBackExactly(st: Style, fs: seq<Field>, i: nat, key: string)
    requires i < |fs| && BlankStyle(st) && SeparatorFree(key) && fs[i].key == key
    ensures (forall v :: Readable(v) ==> JsonGet(PrintObject(st, With(fs, i, v)), key) == Payload(v))
       <==> Absent(fs[..i], key)
  {
    if Absent(fs[..i], key) {
      forall v | Readable(v) ensures JsonGet(PrintObject(st, With(fs, i, v)), key) == Payload(v) {
        assert With(fs, i, v)[..i] == fs[..i];
        ScanInvertsPrinting(st, With(fs, i, v), i, key);
      }
    } else {
      NotBoth(st, fs, i, key);
      assert Readable(Bare("0")) && Readable(Bare("1"));
    }
  }

  /** The fields with another value in place `i`. */
  function With(fs: seq<Field>, i: nat, v: Value): seq<Field>
    requires i < |fs|
  {
    fs[i := Field(fs[i].key, v)]
  }

  lemma NotBoth(st: Style, fs: seq<Field>, i: nat, key: string)
    requires i < |fs| && !Absent(fs[..i], key)
    ensures !(JsonGet(PrintObject(st, With(fs, i, Bare("0"))), key) == "0"
              && JsonGet(PrintObject(st, With(fs, i, Bare("1"))), key) == "1")
  {
    EarlierKey(st, fs, i, key);
    StaysBehind("{", Before(st, fs, i), Quote(key));
    SameBeforeWith(st, fs, i, Bare("0"));
    SameBeforeWith(st, fs, i, Bare("1"));
    StuckBefore("{" + Before(st, fs, i), key, Quote(key), Behind(st, With(fs, i, Bare("0")), i), Behind(st, With(fs, i, Bare("1")), i));
  }

  function Behind(st: Style, fs: seq<Field>, i: nat): string
    requires i < |fs|
  {
    PrintField(st, fs[i]) + After(st, fs, i)
  }

  lemma {:induction false} BeforeFrame(st: Style, fs: seq<Field>, gs: seq<Field>, i: nat)
    requires i < |fs| && i < |gs| && fs[..i] == gs[..i]
    ensures Before(st, fs, i) == Before(st, gs, i)
    decreases i
  {
    if i > 0 {
      assert fs[0] == fs[..i][0] == gs[..i][0] == gs[0];
      assert fs[1..][..i - 1] == fs[..i][1..] == gs[..i][1..] == gs[1..][..i - 1];
      BeforeFrame(st, fs[1..], gs[1..], i - 1);
    }
  }

  lemma SameBeforeWith(st: Style, fs: seq<Field>, i: nat, v: Value)
    requires i < |fs|
    ensures PrintObject(st, With(fs, i, v)) == "{" + Before(st, fs, i) + Behind(st, With(fs, i, v), i)
  {
    var gs := With(fs, i, v);
    assert fs[..i] == gs[..i];
    BeforeFrame(st, fs, gs, i);
    PrintSplits(st, gs, i);
    RegroupBehind(Before(st, gs, i), PrintField(st, gs[i]), After(st, gs, i));
  }

  lemma RegroupBehind(b: string, p: string, a: string)
    ensures "{" + (b + p + a) == "{" + b + (p + a)
  {
  }
}
