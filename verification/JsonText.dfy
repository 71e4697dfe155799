/** How the JSON printer writes a text, a sequence of code points, between quotes, and where a quoted key can
    occur in it. */
module JsonText {
  import opened Common
  import opened Text
  import opened JsonScan

  // ---------------------------------------------------------------- printing a text

  /** How the JSON printer writes one character of a text. */
  function EscapeChar(c: char): string {
    var code := c as int;
    if c == '"' then "\\\""
    else if c == '\\' then "\\\\"
    else if code == 8 then "\\b"
    else if code == 9 then "\\t"
    else if code == 10 then "\\n"
    else if code == 12 then "\\f"
    else if code == 13 then "\\r"
    else if code < 32 then "\\u00" + [HexDigit(code / 16), HexDigit(code % 16)]
    else [c]
  }

  function Escape(d: string): string {
    if d == "" then "" else Escape(d[..|d| - 1]) + EscapeChar(d[|d| - 1])
  }

  /** What is used of `EscapeChar`: a character stands for itself, or a backslash opens a group in which a
      quote comes second, and only for a quote, and a backslash comes last only for a backslash. */
  ghost predicate EscapeForm(c: char, x: string) {
    if x == [c] then c != '"' && c != '\\'
    else
      && |x| >= 2 && x[0] == '\\' && (c == '"' ==> x == "\\\"") && (c != '"' ==> '"' !in x)
      && (x[|x| - 1] == '\\' <==> c == '\\') && BraceFree(x) && BraceFree([c])
  }

  lemma EscapeHasForm(c: char)
    ensures EscapeForm(c, EscapeChar(c))
  {
  }

  lemma Associative(a: string, b: string, c: string)
    ensures (a + b) + c == a + (b + c)
  {
  }

  lemma EscapeSnoc(d: string, c: char)
    ensures Escape(d + [c]) == Escape(d) + EscapeChar(c)
  {
    assert (d + [c])[..|d|] == d;
  }

  lemma {:induction false} EscapeSplits(a: string, b: string)
    ensures Escape(a + b) == Escape(a) + Escape(b)
    decreases |b|
  {
    if b == "" {
      assert a + b == a;
    } else {
      var most, c := b[..|b| - 1], b[|b| - 1];
      EscapeSplits(a, most);
      EscapeSnoc(most, c);
      EscapeSnoc(a + most, c);
      Associative(a, most, [c]);
      Associative(Escape(a), Escape(most), EscapeChar(c));
      assert b == most + [c];
    }
  }

  // ---------------------------------------------------------------- what the printed text stands for

  function With(c: char, rest: Option<string>): Option<string> {
    match rest case None => None case Some(d) => Some([c] + d)
  }

  /** The text between the quotes of a JSON string, by section 7 of RFC 8259; `None` where it is malformed, or names
      a surrogate. */
  function Unescape(s: string): Option<string> {
    if s == "" then Some("")
    else if s[0] == '"' || s[0] as int < 32 then None
    else if s[0] != '\\' then With(s[0], Unescape(s[1..]))
    else if |s| < 2 then None
    else match s[1]
      case '"' => With('"', Unescape(s[2..]))
      case '\\' => With('\\', Unescape(s[2..]))
      case '/' => With('/', Unescape(s[2..]))
      case 'b' => With(8 as char, Unescape(s[2..]))
      case 'f' => With(12 as char, Unescape(s[2..]))
      case 'n' => With('\n', Unescape(s[2..]))
      case 'r' => With('\r', Unescape(s[2..]))
      case 't' => With('\t', Unescape(s[2..]))
      case 'u' =>
        if |s| < 6 || Hex4(s[2], s[3], s[4], s[5]).None? then None
        else With(Hex4(s[2], s[3], s[4], s[5]).value as char, Unescape(s[6..]))
      case _ => None
  }

  /** Four hexadecimal digits, unless they name a surrogate. */
  function Hex4(a: char, b: char, c: char, d: char): (r: Option<nat>)
    ensures r.Some? ==> r.value < 0xD800
  {
    var w, x, y, z := HexValue(a), HexValue(b), HexValue(c), HexValue(d);
    if w.None? || x.None? || y.None? || z.None? then None
    else
      var n := 4096 * w.value + 256 * x.value + 16 * y.value + z.value;
      if n < 0xD800 then Some(n) else None
  }

  lemma {:induction false} UnescapeOne(c: char, rest: string)
    ensures Unescape(EscapeChar(c) + rest) == With(c, Unescape(rest))
  {
    var code, x, s := c as int, EscapeChar(c), EscapeChar(c) + rest;
    assert s[|x|..] == rest;
    if code < 32 && code !in {8, 9, 10, 12, 13} {
      HexDigitValue(code / 16);
      HexDigitValue(code % 16);
      HexDigitValue(0);
      assert s[2] == '0' && s[3] == '0' && s[4] == HexDigit(code / 16) && s[5] == HexDigit(code % 16);
    }
  }

  /** What the printer writes is a JSON string that stands for the text. */
  lemma {:induction false} UnescapeInverts(d: string)
    ensures Unescape(Escape(d)) == Some(d)
  {
    if d != "" {
      var c, rest := [d[0]], d[1..];
      assert d == c + rest && c[..0] == "" && Escape("") == "";
      EscapeSplits(c, rest);
      assert Escape(c) == "" + EscapeChar(d[0]) == EscapeChar(d[0]);
      UnescapeInverts(rest);
      UnescapeOne(d[0], Escape(rest));
    }
  }

  /** So texts that print alike are alike. */
  lemma {:induction false} EscapeInjective(d: string, e: string)
    requires Escape(d) == Escape(e)
    ensures d == e
  {
    UnescapeInverts(d);
    UnescapeInverts(e);
  }

  // ---------------------------------------------------------------- what the scanner sees of it

  /** The printer puts a backslash before every quote, and a printed text ends in a backslash exactly
      when the text does. */
  lemma {:induction false} EscapeProtects(d: string)
    ensures QuotesEscaped(Escape(d))
    ensures EndsWith(Escape(d), "\\") <==> EndsWith(d, "\\")
    decreases |d|
  {
    if d != "" {
      EscapeProtects(d[..|d| - 1]);
      EscapeHasForm(d[|d| - 1]);
      ProtectOne(Escape(d[..|d| - 1]), d[|d| - 1], EscapeChar(d[|d| - 1]));
    }
  }

  lemma ProtectOne(e: string, c: char, x: string)
    requires QuotesEscaped(e) && EscapeForm(c, x)
    ensures QuotesEscaped(e + x)
    ensures EndsWith(e + x, "\\") <==> c == '\\'
  {
    var s := e + x;
    forall i | 0 <= i < |s| && s[i] == '"' ensures i > 0 && s[i - 1] == '\\' {
      assert i >= |e| ==> x[i - |e|] == '"';
    }
    assert s[|s| - 1] == x[|x| - 1];
  }

  /** Names made of characters that the printer leaves alone. */
  predicate Plain(k: string) { forall i :: 0 <= i < |k| ==> k[i] as int >= 32 && k[i] != '"' && k[i] != '\\' }

  lemma {:induction false} EscapePlain(k: string)
    requires Plain(k)
    ensures Escape(k) == k
    decreases |k|
  {
    if k != "" {
      var most, c := k[..|k| - 1], k[|k| - 1];
      EscapePlain(most);
      assert EscapeChar(c) == [c];
      assert Escape(k) == most + [c] == k;
    }
  }

  /** A printed text ends in a quote and a plain name exactly when the text itself does. */
  lemma EscapedSuffix(d: string, k: string)
    requires Plain(k)
    ensures EndsWith(Escape(d), "\"" + k) <==> EndsWith(d, "\"" + k)
  {
    if EndsWith(d, "\"" + k) {
      var p := d[..|d| - |k| - 1];
      assert d == p + "\"" + k;
      EscapeOfSuffix(p, k);
    }
    if EndsWith(Escape(d), "\"" + k) {
      SuffixComesFrom(d, k);
    }
  }

  lemma EscapeOfSuffix(p: string, k: string)
    requires Plain(k)
    ensures EndsWith(Escape(p + "\"" + k), "\"" + k)
  {
    EscapeSplits(p + "\"", k);
    EscapePlain(k);
    var head := Escape(p + "\"");
    assert (p + "\"")[|p|] == '"';
    assert head[|head| - 1] == '"';
    assert (head + k)[|head| - 1..] == "\"" + k;
  }

  lemma SuffixComesFrom(d: string, k: string)
    requires Plain(k) && EndsWith(Escape(d), "\"" + k)
    ensures EndsWith(d, "\"" + k)
    decreases |d|
  {
    var most, c := d[..|d| - 1], d[|d| - 1];
    assert d == most + [c];
    EscapeHasForm(c);
    LastEscape(Escape(most), c, EscapeChar(c), k);
    if k == "" {
      assert d[|d| - 1..] == "\"";
    } else {
      SuffixComesFrom(most, k[..|k| - 1]);
      ExtendSuffix(most, k);
    }
  }

  lemma ExtendSuffix(d: string, k: string)
    requires k != "" && EndsWith(d, "\"" + k[..|k| - 1])
    ensures EndsWith(d + [k[|k| - 1]], "\"" + k)
  {
    var p := d[..|d| - |k|];
    assert d == p + ("\"" + k[..|k| - 1]);
    assert d + [k[|k| - 1]] == p + ("\"" + k);
  }

  /** Behind a quote, plain characters can only come from themselves. */
  lemma LastEscape(e: string, c: char, x: string, k: string)
    requires Plain(k) && EscapeForm(c, x) && EndsWith(e + x, "\"" + k)
    ensures k == "" ==> c == '"'
    ensures k != "" ==> c == k[|k| - 1] && EndsWith(e, "\"" + k[..|k| - 1])
  {
    var s, n := e + x, |e + x| - |k| - 1;
    assert s[n..] == "\"" + k;
    assert s[n] == s[n..][0] == '"';
    assert forall i :: n < i < |s| ==> s[i] == s[n..][i - n] == k[i - n - 1];
    assert forall i :: 0 <= i < |x| ==> s[|e| + i] == x[i];
    if |x| == 1 {
      assert s[|s| - 1] == c;
      if k != "" {
        assert e[n..] == s[n..][..|k|] == "\"" + k[..|k| - 1];
      }
    } else {
      assert s[|e|] == '\\';
      assert |e| < n;
      assert x[n - |e|] == '"' && '"' in x;
    }
  }

  // ---------------------------------------------------------------- braces

  predicate BraceFree(s: string) { '{' !in s && '}' !in s }

  ghost predicate NeverClosed(s: string) { forall i :: 0 <= i <= |s| ==> Depth(s[..i]) >= 0 }

  /** The braces of the text close in order. */
  ghost predicate Balanced(d: string) { Depth(d) == 0 && NeverClosed(d) }

  lemma {:induction false} DepthSplits(a: string, b: string)
    ensures Depth(a + b) == Depth(a) + Depth(b)
    decreases |b|
  {
    if b == "" {
      assert a + b == a;
    } else {
      assert (a + b)[..|a + b| - 1] == a + b[..|b| - 1];
      DepthSplits(a, b[..|b| - 1]);
    }
  }

  lemma {:induction false} FlatDepth(s: string)
    requires BraceFree(s)
    ensures Depth(s) == 0
    decreases |s|
  {
    if s != "" {
      assert s[|s| - 1] in s;
      FlatDepth(s[..|s| - 1]);
    }
  }

  lemma ClosedSplits(a: string, b: string)
    requires Depth(b) >= 0 || |b| == 1
    requires forall i :: 0 <= i < |b| ==> Depth(b[..i]) >= 0
    ensures NeverClosed(a + b) <==> NeverClosed(a) && Depth(a + b) >= 0
  {
    var s := a + b;
    assert s[..|s|] == s;
    forall i | 0 <= i <= |s| ensures Depth(s[..i]) == if i <= |a| then Depth(a[..i]) else Depth(a) + Depth(b[..i - |a|]) {
      if i <= |a| {
        assert s[..i] == a[..i];
      } else {
        assert s[..i] == a + b[..i - |a|];
        DepthSplits(a, b[..i - |a|]);
      }
    }
    assert a[..|a|] == a && b[..|b|] == b;
    if NeverClosed(s) {
      forall i | 0 <= i <= |a| ensures Depth(a[..i]) >= 0 {
        assert Depth(s[..i]) >= 0;
      }
    }
  }

  /** Printing a text leaves the nesting of its braces as it is. */
  lemma {:induction false} EscapeKeepsDepth(d: string)
    ensures Depth(Escape(d)) == Depth(d)
    ensures NeverClosed(Escape(d)) <==> NeverClosed(d)
    decreases |d|
  {
    if d != "" {
      var most, c := d[..|d| - 1], d[|d| - 1];
      var x := EscapeChar(c);
      assert d == most + [c];
      EscapeKeepsDepth(most);
      EscapeHasForm(c);
      OneCharDepth(c, x);
      DepthSplits(Escape(most), x);
      DepthSplits(most, [c]);
      ClosedSplits(Escape(most), x);
      ClosedSplits(most, [c]);
    }
  }

  lemma OneCharDepth(c: char, x: string)
    requires EscapeForm(c, x)
    ensures Depth(x) == Depth([c]) && (Depth(x) >= 0 || |x| == 1)
    ensures forall i :: 0 <= i < |x| ==> Depth(x[..i]) >= 0
    ensures forall i :: 0 <= i < 1 ==> Depth([c][..i]) >= 0
  {
    if x != [c] {
      FlatDepth(x);
      FlatDepth([c]);
      forall i | 0 <= i < |x| ensures Depth(x[..i]) >= 0 {
        FlatDepth(x[..i]);
      }
    }
  }

  /** Braces around a text between two brace-free ones close where they should exactly when the text is
      balanced. */
  lemma Framed(a: string, e: string, b: string)
    requires BraceFree(a) && BraceFree(b)
    ensures Readable(Object("{" + (a + e + b) + "}")) <==> Depth(e) == 0 && NeverClosed(e)
  {
    FlatDepth(a);
    FlatDepth(b);
    DepthSplits(a, e);
    DepthSplits(a + e, b);
    FlatAround(a, e, b);
    Braced(a + e + b);
  }

  lemma Braced(t: string)
    ensures Readable(Object("{" + t + "}")) <==> Depth(t) == 0 && NeverClosed(t)
  {
    var s := "{" + t + "}";
    assert Depth("{") == 1 && Depth("}") == -1 by { assert "{"[..0] == "" && "}"[..0] == ""; }
    DepthSplits("{", t);
    DepthSplits("{" + t, "}");
    forall i | 0 < i < |s| ensures Depth(s[..i]) == 1 + Depth(t[..i - 1]) {
      assert s[..i] == "{" + t[..i - 1];
      DepthSplits("{", t[..i - 1]);
    }
    if Readable(Object(s)) {
      forall i | 0 <= i <= |t| ensures Depth(t[..i]) >= 0 {
        assert Depth(s[..i + 1]) > 0;
      }
    }
  }

  /** The depth inside a text between two brace-free ones. */
  lemma FlatPrefix(a: string, e: string, b: string, i: nat)
    requires BraceFree(a) && BraceFree(b) && i <= |a + e + b|
    ensures Depth((a + e + b)[..i])
         == if i < |a| then 0 else if i <= |a| + |e| then Depth(e[..i - |a|]) else Depth(e)
  {
    var t := a + e + b;
    if i < |a| {
      assert t[..i] == a[..i];
      FlatDepth(a[..i]);
    } else if i <= |a| + |e| {
      assert t[..i] == a + e[..i - |a|];
      DepthSplits(a, e[..i - |a|]);
      FlatDepth(a);
    } else {
      assert t[..i] == a + e + b[..i - |a| - |e|];
      DepthSplits(a + e, b[..i - |a| - |e|]);
      DepthSplits(a, e);
      FlatDepth(a);
      FlatDepth(b[..i - |a| - |e|]);
    }
  }

  lemma FlatAround(a: string, e: string, b: string)
    requires BraceFree(a) && BraceFree(b)
    ensures NeverClosed(a + e + b) <==> NeverClosed(e)
  {
    var t := a + e + b;
    forall i | 0 <= i <= |t|
      ensures Depth(t[..i]) == if i < |a| then 0 else if i <= |a| + |e| then Depth(e[..i - |a|]) else Depth(e)
    {
      FlatPrefix(a, e, b, i);
    }
    assert e[..|e|] == e;
    if NeverClosed(t) {
      forall i | 0 <= i <= |e| ensures Depth(e[..i]) >= 0 {
        assert Depth(t[..i + |a|]) >= 0;
      }
    }
  }

  /** The lowest depth a text reaches, at most zero. */
  function Lowest(s: string): int {
    if s == "" then 0 else Min(Lowest(s[..|s| - 1]), Depth(s))
  }

  lemma {:induction false} LowestIs(s: string)
    ensures forall i :: 0 <= i <= |s| ==> Depth(s[..i]) >= Lowest(s)
    ensures exists i :: 0 <= i <= |s| && Depth(s[..i]) == Lowest(s)
    decreases |s|
  {
    assert s[..|s|] == s;
    if s == "" {
      assert Depth(s[..0]) == Lowest(s);
    } else {
      var most := s[..|s| - 1];
      LowestIs(most);
      forall i | 0 <= i <= |s| ensures Depth(s[..i]) >= Lowest(s) {
        if i < |s| {
          assert most[..i] == s[..i];
        }
      }
      var i :| 0 <= i <= |most| && Depth(most[..i]) == Lowest(most);
      assert most[..i] == s[..i];
      assert Depth(s[..if Lowest(most) <= Depth(s) then i else |s|]) == Lowest(s);
    }
  }

  // ---------------------------------------------------------------- keys inside printed texts

  /** The text is the name itself, or ends in a quote and the name. */
  predicate EndsLikeKey(d: string, k: string) { EndsWith("\"" + d, "\"" + k) }

  lemma EndsLikeKeyPrinted(d: string, k: string)
    requires Plain(k)
    ensures EndsLikeKey(Escape(d), k) <==> EndsLikeKey(d, k)
  {
    EscapedSuffix("\"" + d, k);
    EscapeSplits("\"", d);
    assert Escape("\"") == Escape("") + EscapeChar('"');
    assert Escape("\"" + d) == "\\" + ("\"" + Escape(d));
    BackslashBefore("\"" + Escape(d), "\"" + k);
  }

  lemma BackslashBefore(q: string, tail: string)
    requires tail != "" && tail[0] == '"'
    ensures EndsWith("\\" + q, tail) <==> EndsWith(q, tail)
  {
    var e := "\\" + q;
    if |tail| <= |q| {
      assert e[|e| - |tail|..] == q[|q| - |tail|..];
    } else if |tail| == |e| {
      assert e[0..] == e && e[0] == '\\';
    }
  }

  /** Inside a printed text, quotes included, the quoted key can only stand at the very end. */
  lemma OccursAtEnd(e: string, k: string, i: nat)
    requires QuotesEscaped(e) && Plain(k) && k != "" && OccursAt(Quote(e), Quote(k), i)
    ensures i + |Quote(k)| == |Quote(e)| && EndsLikeKey(e, k)
  {
    var s, n := Quote(e), |k|;
    assert forall j :: i <= j < i + n + 2 ==> s[j] == s[i..i + n + 2][j - i] == Quote(k)[j - i];
    assert s[i + n + 1] == '"' && s[i + n] == k[n - 1];
    assert forall j :: 0 < j <= |e| ==> s[j] == e[j - 1];
    assert forall j :: 0 <= j < |e| && s[j + 1] == '"' ==> s[j] == '\\';
    assert i + n + 2 == |s|;
    assert "\"" + e == s[..|s| - 1] && Quote(k)[..n + 1] == "\"" + k;
    assert s[..|s| - 1][i..] == s[i..i + n + 2][..n + 1];
  }

  /** A printed text holds the quoted key exactly when the text ends like it. */
  lemma PrintedHoldsKey(d: string, k: string)
    requires Plain(k) && k != ""
    ensures Contains(Quote(Escape(d)), Quote(k)) <==> EndsLikeKey(d, k)
  {
    var e := Escape(d);
    EscapeProtects(d);
    EndsLikeKeyPrinted(d, k);
    if EndsLikeKey(e, k) {
      EndOccurs(e, k);
    }
    if Contains(Quote(e), Quote(k)) {
      var i: nat :| OccursAt(Quote(e), Quote(k), i);
      OccursAtEnd(e, k, i);
    }
  }

  lemma EndOccurs(e: string, k: string)
    requires EndsLikeKey(e, k)
    ensures OccursAt(Quote(e), Quote(k), |e| - |k|)
  {
    var i := |e| - |k|;
    assert Quote(e)[i..i + |Quote(k)|] == ("\"" + e)[i..] + "\"";
  }

  /** A printed text that lacks its closing quote holds no quoted key. */
  lemma OpenTextLacks(e: string, k: string)
    requires QuotesEscaped(e) && Plain(k) && k != ""
    ensures !Contains("\"" + e, Quote(k))
  {
    var s := "\"" + e;
    assert forall j :: 0 <= j < |e| ==> s[j + 1] == e[j];
    forall i: nat | OccursAt(s, Quote(k), i) ensures false {
      QuotesAt(s, k, i);
    }
  }
}
