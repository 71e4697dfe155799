/** The two-parameter message of hybrid-comm/src/pzmq_data.cpp: one length byte, the first
    parameter, then everything else. A text here is a sequence of bytes, each held as a `char`
    below 256. */
module ParamCodec {
  import opened Common
  import opened Text

  const CHAR_MAX := 127

  /** What a plain (signed) C `char` with this bit pattern is as an integer. */
  function Signed(c: char): int {
    var b := c as int % 256;
    if b <= CHAR_MAX then b else b - 256
  }

  function SetParam(param0: string, param1: string): string {
    [(|param0| % 256) as char] + param0 + param1
  }

  /** `set_param`: build the text with a placeholder, then overwrite the placeholder. */
  method BuildParam(param0: string, param1: string) returns (data: string)
    ensures data == SetParam(param0, param1)
    ensures |data| > |param0| && data[0] as int == |param0| % 256 && data[1..] == param0 + param1
  {
    data := " " + param0 + param1;
    data := data[0 := (|param0| % 256) as char];
  }

  /** One byte with the length, modulo 256, of what follows it; then the rest. */
  lemma {:induction false} Layout(param0: string, param1: string)
    ensures var data := SetParam(param0, param1);
            && |data| == 1 + |param0| + |param1| && data[0] as int == |param0| % 256
            && data[1..1 + |param0|] == param0 && data[1 + |param0|..] == param1
  {
  }

  /** `get_param`: parameter `index` of `idata`, or of the message itself when `idata` is empty.
      `None` stands for the `length_error` of a negative length and for reading outside the text. */
  function GetParam(message: string, index: int, idata: string): Option<string> {
    var data := if |idata| > 0 then idata else message;
    if data == "" then None
    else
      var n := Signed(data[0]);
      if n < 0 || n + 1 > |data| then None
      else if index % 2 == 0 then Some(data[1..1 + n])
      else Some(data[n + 1..])
  }

  /** The pair is recovered exactly when the first parameter's length fits the length byte. */
  lemma PairRoundTrip(param0: string, param1: string)
    ensures GetParam(SetParam(param0, param1), 0, "") == Some(param0) <==> |param0| <= CHAR_MAX
    ensures GetParam(SetParam(param0, param1), 1, "") == Some(param1) <==> |param0| <= CHAR_MAX
  {
    var data := SetParam(param0, param1);
    assert data[1..1 + |param0|] == param0;
    assert data[1 + |param0|..] == param1;
    if |param0| > CHAR_MAX {
      var r0, r1 := GetParam(data, 0, ""), GetParam(data, 1, "");
      assert r0.Some? ==> |r0.value| <= CHAR_MAX;
      assert r1.Some? ==> |r1.value| >= |data| - 1 - CHAR_MAX > |param1|;
    }
  }

  // ---------------------------------------------------------------- right-nested chains

  function EncodeChain(parts: seq<string>): string
    requires parts != []
  {
    if |parts| == 1 then parts[0] else SetParam(parts[0], EncodeChain(parts[1..]))
  }

  /** Reads `count` parts the way callers do: parameter 0, then parameter 1 and again inside it. */
  function DecodeChain(count: nat, message: string): Option<seq<string>>
    requires count > 0
  {
    if count == 1 then Some([message])
    else
      var head, tail := GetParam(message, 0, ""), GetParam(message, 1, "");
      if head.None? || tail.None? then None
      else
        var rest := DecodeChain(count - 1, tail.value);
        if rest.None? then None else Some([head.value] + rest.value)
  }

  ghost predicate FitsLengthByte(parts: seq<string>) {
    forall i :: 0 <= i < |parts| - 1 ==> |parts[i]| <= CHAR_MAX
  }

  /** One level of decoding: the head comes back, when it fits, in front of the decoded tail. */
  lemma DecodeLevel(count: nat, head: string, tail: string)
    requires count > 1
    ensures var r, inner := DecodeChain(count, SetParam(head, tail)), DecodeChain(count - 1, tail);
            if |head| <= CHAR_MAX then r == if inner.None? then None else Some([head] + inner.value)
            else r.None? || r.value[0] != head
  {
    PairRoundTrip(head, tail);
  }

  /** A chain of any depth decodes to its parts exactly when every part but the last fits. */
  lemma {:induction false} ChainRoundTrip(parts: seq<string>)
    requires parts != []
    ensures DecodeChain(|parts|, EncodeChain(parts)) == Some(parts) <==> FitsLengthByte(parts)
  {
    if |parts| == 1 {
      assert parts == [parts[0]];
    } else {
      var head, rest := parts[0], parts[1..];
      assert parts == [head] + rest;
      ChainRoundTrip(rest);
      DecodeLevel(|parts|, head, EncodeChain(rest));
      FitsCons(head, rest);
      var inner := DecodeChain(|rest|, EncodeChain(rest));
      assert inner.Some? ==> ([head] + inner.value)[1..] == inner.value;
    }
  }

  lemma FitsCons(head: string, rest: seq<string>)
    requires rest != []
    ensures FitsLengthByte([head] + rest) <==> |head| <= CHAR_MAX && FitsLengthByte(rest)
  {
    var parts := [head] + rest;
    assert parts[0] == head;
    assert forall i :: 0 <= i < |rest| ==> parts[i + 1] == rest[i];
    if FitsLengthByte(parts) {
      forall i | 0 <= i < |rest| - 1 ensures |rest[i]| <= CHAR_MAX {
        assert |parts[i + 1]| <= CHAR_MAX;
      }
    }
  }

  /** What `sys_register_unit` reads out of the manager's reply: the printed unit number, the
      output URL and the inference URL. */
  function ReadRegistration(reply: string): Option<(string, string, string)> {
    var nested := GetParam(reply, 1, "");
    if nested.None? then None
    else
      var out, inference, number := GetParam(reply, 0, nested.value), GetParam(reply, 1, nested.value), GetParam(reply, 0, "");
      if out.None? || inference.None? || number.None? then None
      else Some((number.value, out.value, inference.value))
  }

  lemma RegistrationRoundTrip(number: nat, out: string, inference: string)
    requires number <= INT_MAX
    ensures var reply := SetParam(ToString(number), SetParam(out, inference));
            ReadRegistration(reply) == Some((ToString(number), out, inference)) <==> |out| <= CHAR_MAX
  {
    assert Pow10(10) == 10_000_000_000;
    ToStringLength(number, 10);
    PairRoundTrip(ToString(number), SetParam(out, inference));
    PairRoundTrip(out, inference);
  }

  // ---------------------------------------------------------------- work ids

  const WORK_ID_NONE := -100

  function GetWorkId(number: nat, unit: string): string {
    unit + "." + ToString(number)
  }

  /** `sample_get_work_id_num`: `None` stands for the exception `stoi` throws. */
  function GetWorkIdNum(workId: string): Option<int> {
    var a := Find(workId, ".", 0);
    if a.None? || a.value == |workId| - 1 then Some(WORK_ID_NONE)
    else Stoi(workId[a.value + 1..])
  }

  function GetWorkIdName(workId: string): string {
    var a := Find(workId, ".", 0);
    if a.None? then workId else workId[..a.value]
  }

  predicate DotFree(s: string) { '.' !in s }

  lemma FirstDot(unit: string, rest: string)
    requires DotFree(unit)
    ensures Find(unit + "." + rest, ".", 0) == Some(|unit|)
  {
    var s := unit + "." + rest;
    assert OccursAt(s, ".", |unit|);
    forall j: nat | j < |unit| ensures !OccursAt(s, ".", j) {
      assert s[j] == unit[j];
      assert s[j..j + 1][0] == s[j];
    }
    FindIs(s, ".", |unit|);
  }

  /** A printed work id parses back to its two halves. */
  lemma WorkIdRoundTrip(number: nat, unit: string)
    requires DotFree(unit) && number <= INT_MAX
    ensures GetWorkIdNum(GetWorkId(number, unit)) == Some(number)
    ensures GetWorkIdName(GetWorkId(number, unit)) == unit
  {
    var id := GetWorkId(number, unit);
    FirstDot(unit, ToString(number));
    assert id[|unit| + 1..] == ToString(number) + "";
    StoiOfToString(number, "");
    assert id[..|unit|] == unit;
  }

  /** A text without a dot, or with nothing behind its first dot, names no unit: the number it stands for is no
      unit's. */
  lemma {:induction false} NoWorkId(workId: string, number: nat, unit: string)
    requires DotFree(unit) && number <= INT_MAX
    ensures DotFree(workId) ==> GetWorkIdNum(workId) == Some(-100)
    ensures DotFree(workId) ==> GetWorkIdNum(workId + ".") == Some(-100)
    ensures GetWorkIdNum(GetWorkId(number, unit)) != Some(-100)
  {
    WorkIdRoundTrip(number, unit);
    if DotFree(workId) {
      FirstDot(workId, "");
      assert workId + "." + "" == workId + ".";
      NoDot(workId);
    }
  }

  lemma {:induction false} NoDot(s: string)
    requires DotFree(s)
    ensures Find(s, ".", 0).None?
  {
    FindIsFirst(s, ".", 0);
    forall i: nat ensures !OccursAt(s, ".", i) {
      if i < |s| {
        assert s[i..i + 1][0] == s[i] != '.';
      }
    }
  }

  const OUT_PORT := ".out_port"

  /** Work ids are distinct for distinct numbers, and no work id is an `.out_port` key, whatever
      the unit names are. */
  lemma WorkIdsDistinct(m: nat, u: string, n: nat, v: string)
    ensures GetWorkId(m, u) == GetWorkId(n, v) ==> m == n && u == v
    ensures GetWorkId(m, u) != GetWorkId(n, v) + OUT_PORT
  {
    var a, b := GetWorkId(m, u), GetWorkId(n, v);
    assert IsDigit(a[|a| - 1]) by {
      assert a[|a| - 1] == ToString(m)[|ToString(m)| - 1];
    }
    if a == b {
      SuffixAfterDot(u, ToString(m), v, ToString(n));
      ToStringInjective(m, n);
    }
    assert (b + OUT_PORT)[|b + OUT_PORT| - 1] == 't';
  }

  lemma SuffixAfterDot(u: string, s: string, v: string, t: string)
    requires AllDigits(s) && AllDigits(t)
    requires u + "." + s == v + "." + t
    ensures u == v && s == t
  {
    var x, y := u + "." + s, v + "." + t;
    assert x[|u|] == '.' && y[|v|] == '.';
    assert forall i :: |u| < i < |x| ==> x[i] == s[i - |u| - 1];
    assert forall i :: |v| < i < |y| ==> y[i] == t[i - |v| - 1];
    assert !(|u| < |v|) && !(|v| < |u|);
    assert x[..|u|] == u && y[..|v|] == v;
    assert x[|u| + 1..] == s && y[|v| + 1..] == t;
  }
}
