/** The UTF-8 encoder of infra-controller/src/StackFlowUtil.cpp, against RFC 3629. */
module Utf8 {
  import opened Common

  /** An unsigned 32-bit argument, and the character numbers of RFC 3629. */
  type Uint = c: int | 0 <= c < 0x1_0000_0000
  type Code = c: int | 0 <= c <= 0x10FFFF

  // Bit operations on unsigned numbers, as arithmetic: `x & (2^k - 1)` is `x % 2^k`, `x >> k` is
  // `x / 2^k`, and `tag | y` is `tag + y` when the bits of `y` lie below those of `tag`.

  /** `0x80 | (x & 0x3F)`. */
  function Tail(x: nat): Byte { 0x80 + x % 64 }

  /** `unicode_to_utf8`: the bytes it leaves in `output[..length]`. */
  function Encode(c: Uint): seq<Byte> {
    if c <= 0x7F then [c % 128]
    else if c <= 0x7FF then [0xC0 + c / 0x40 % 32, Tail(c)]
    else if c <= 0xFFFF then [0xE0 + c / 0x1000 % 16, Tail(c / 0x40), Tail(c)]
    else if c <= 0x10FFFF then [0xF0 + c / 0x40000 % 8, Tail(c / 0x1000), Tail(c / 0x40), Tail(c)]
    else []
  }

  /** The same, writing into the caller's array the way the source does. */
  method UnicodeToUtf8(codepoint: Uint, output: array<Byte>) returns (length: nat)
    requires |Encode(codepoint)| <= output.Length
    modifies output
    ensures length == |Encode(codepoint)|
    ensures output[..] == Overwrite(old(output[..]), 0, Encode(codepoint))
  {
    if codepoint <= 0x7F {
      output[0] := codepoint % 128;
      length := 1;
    } else if codepoint <= 0x7FF {
      output[0] := 0xC0 + codepoint / 0x40 % 32;
      output[1] := 0x80 + codepoint % 64;
      length := 2;
    } else if codepoint <= 0xFFFF {
      output[0] := 0xE0 + codepoint / 0x1000 % 16;
      output[1] := 0x80 + codepoint / 0x40 % 64;
      output[2] := 0x80 + codepoint % 64;
      length := 3;
    } else if codepoint <= 0x10FFFF {
      output[0] := 0xF0 + codepoint / 0x40000 % 8;
      output[1] := 0x80 + codepoint / 0x1000 % 64;
      output[2] := 0x80 + codepoint / 0x40 % 64;
      output[3] := 0x80 + codepoint % 64;
      length := 4;
    } else {
      length := 0;
    }
  }

  // ---------------------------------------------------------------- section 3 of RFC 3629

  /** How many octets the table of section 3 gives to a character number. */
  function OctetCount(c: Code): nat {
    if c < 0x80 then 1 else if c < 0x800 then 2 else if c < 0x10000 then 3 else 4
  }

  /** How long a sequence the lead octet announces: 0xxxxxxx, 110xxxxx, 1110xxxx, 11110xxx;
      0 for any other octet. */
  function Announced(lead: Byte): nat {
    if lead < 0x80 then 1
    else if 0xC0 <= lead < 0xE0 then 2
    else if 0xE0 <= lead < 0xF0 then 3
    else if 0xF0 <= lead < 0xF8 then 4
    else 0
  }

  predicate Continuation(b: Byte) { 0x80 <= b < 0xC0 }

  function Bits(b: Byte, bound: nat): nat
    requires bound in {8, 16, 32, 64}
  {
    match bound
    case 8 => b % 8
    case 16 => b % 16
    case 32 => b % 32
    case _ => b % 64
  }

  /** The character number a sequence's octets carry: the lead's free bits, then six bits each. */
  function Carried(s: seq<Byte>): nat
    requires 1 <= |s| <= 4
  {
    match |s|
    case 1 => s[0]
    case 2 => 0x40 * Bits(s[0], 32) + Bits(s[1], 64)
    case 3 => 0x1000 * Bits(s[0], 16) + 0x40 * Bits(s[1], 64) + Bits(s[2], 64)
    case _ => 0x40000 * Bits(s[0], 8) + 0x1000 * Bits(s[1], 64) + 0x40 * Bits(s[2], 64) + Bits(s[3], 64)
  }

  /** Section 3's decoding: the first character of `s` and the octets it takes. */
  function DecodeFirst(s: seq<Byte>): Option<(nat, nat)> {
    if s == [] then None
    else
      var n := Announced(s[0]);
      if n == 0 || |s| < n || exists i :: 1 <= i < n && !Continuation(s[i]) then None
      else Some((Carried(s[..n]), n))
  }

  // ---------------------------------------------------------------- sextets

  /** The octets of the number with these sextets, most significant first. */
  function Packed(p: nat, q: nat, r: nat, s: nat): seq<int> {
    var c := 0x40000 * p + 0x1000 * q + 0x40 * r + s;
    if c <= 0x7F then [c]
    else if c <= 0x7FF then [0xC0 + r, 0x80 + s]
    else if c <= 0xFFFF then [0xE0 + q, 0x80 + r, 0x80 + s]
    else [0xF0 + p, 0x80 + q, 0x80 + r, 0x80 + s]
  }

  ghost predicate AreSextets(c: Code, p: nat, q: nat, r: nat, s: nat) {
    p < 8 && q < 64 && r < 64 && s < 64 && c == 0x40000 * p + 0x1000 * q + 0x40 * r + s
  }

  lemma Sextets(c: Code) returns (p: nat, q: nat, r: nat, s: nat)
    ensures AreSextets(c, p, q, r, s)
    ensures s == c % 64 && r == c / 0x40 % 64 && q == c / 0x1000 % 64 && p == c / 0x40000 % 8
    ensures c < 0x10000 ==> q == c / 0x1000 % 16
    ensures c < 0x800 ==> r == c / 0x40 % 32
    ensures c < 0x80 ==> c == c % 128
  {
    s := c % 64;
    var d := c / 64;
    r := d % 64;
    var e := d / 64;
    q := e % 64;
    p := e / 64;
    assert d == 64 * e + r && e == 64 * p + q && c == 64 * d + s;
    assert e == c / 0x1000;
    assert p == c / 0x40000;
  }

  lemma EncodePacks(c: Code) returns (p: nat, q: nat, r: nat, s: nat)
    ensures AreSextets(c, p, q, r, s) && Encode(c) == Packed(p, q, r, s)
  {
    p, q, r, s := Sextets(c);
  }

  lemma FormOfPacked(c: Code, p: nat, q: nat, r: nat, s: nat, e: seq<Byte>)
    requires AreSextets(c, p, q, r, s) && e == Packed(p, q, r, s)
    ensures |e| == OctetCount(c) == Announced(e[0])
    ensures forall i :: 1 <= i < |e| ==> Continuation(e[i])
    ensures Carried(e) == c
  {
    TrailingBits(q);
    TrailingBits(r);
    TrailingBits(s);
    LeadBits(c, p, q, r, s);
  }

  lemma TrailingBits(v: nat)
    requires v < 64
    ensures (0x80 + v) % 64 == v
  {
  }

  lemma LeadBits(c: Code, p: nat, q: nat, r: nat, s: nat)
    requires AreSextets(c, p, q, r, s)
    ensures c <= 0x7FF ==> p == q == 0 && r < 32 && (0xC0 + r) % 32 == r
    ensures c <= 0xFFFF ==> p == 0 && q < 16 && (0xE0 + q) % 16 == q
    ensures p < 5 && (0xF0 + p) % 8 == p
  {
  }

  /** Every code point gets the octets section 3 prescribes, and they carry it.
      (Surrogates are encoded like any other number.) */
  lemma FormOfRfc3629(c: Code)
    ensures |Encode(c)| == OctetCount(c) == Announced(Encode(c)[0])
    ensures forall i :: 1 <= i < |Encode(c)| ==> Continuation(Encode(c)[i])
    ensures Carried(Encode(c)) == c
  {
    var p, q, r, s := EncodePacks(c);
    FormOfPacked(c, p, q, r, s, Encode(c));
  }

  lemma DecodesInContext(c: Code, rest: seq<Byte>)
    ensures DecodeFirst(Encode(c) + rest) == Some((c, |Encode(c)|))
  {
    FormOfRfc3629(c);
    var e := Encode(c);
    var s := e + rest;
    assert s[..|e|] == e;
    assert forall i :: 0 <= i < |e| ==> s[i] == e[i];
  }

  // ---------------------------------------------------------------- whole texts

  function EncodeAll(cs: seq<Code>): seq<Byte> {
    if cs == [] then [] else Encode(cs[0]) + EncodeAll(cs[1..])
  }

  function DecodeAll(s: seq<Byte>): Option<seq<nat>> {
    if s == [] then Some([])
    else
      var first := DecodeFirst(s);
      if first.None? then None
      else
        var rest := DecodeAll(s[first.value.1..]);
        if rest.None? then None else Some([first.value.0] + rest.value)
  }

  /** Concatenated encodings decode uniquely. */
  lemma {:induction false} TextRoundTrip(cs: seq<Code>)
    ensures DecodeAll(EncodeAll(cs)) == Some(cs)
  {
    if cs != [] {
      var rest := EncodeAll(cs[1..]);
      DecodesInContext(cs[0], rest);
      FormOfRfc3629(cs[0]);
      assert (Encode(cs[0]) + rest)[|Encode(cs[0])|..] == rest;
      TextRoundTrip(cs[1..]);
      assert DecodeAll(EncodeAll(cs)) == Some([cs[0]] + cs[1..]);
      assert [cs[0]] + cs[1..] == cs;
    }
  }

  // ---------------------------------------------------------------- order

  /** Lexicographic order. */
  predicate BytesBefore(s: seq<Byte>, t: seq<Byte>) {
    t != [] && (s == [] || s[0] < t[0] || (s[0] == t[0] && BytesBefore(s[1..], t[1..])))
  }

  predicate CodesBefore(s: seq<Code>, t: seq<Code>) {
    t != [] && (s == [] || s[0] < t[0] || (s[0] == t[0] && CodesBefore(s[1..], t[1..])))
  }

  lemma {:induction false} BeforeAt(s: seq<Byte>, t: seq<Byte>, k: nat)
    requires k < |s| && k < |t|
    requires s[..k] == t[..k] && s[k] < t[k]
    ensures BytesBefore(s, t) && !BytesBefore(t, s)
  {
    if k > 0 {
      assert s[0] == s[..k][0] && t[0] == t[..k][0];
      assert s[1..][..k - 1] == s[..k][1..] && t[1..][..k - 1] == t[..k][1..];
      BeforeAt(s[1..], t[1..], k - 1);
    }
  }

  lemma {:induction false} BeforeAfterPrefix(p: seq<Byte>, s: seq<Byte>, t: seq<Byte>)
    ensures BytesBefore(p + s, p + t) == BytesBefore(s, t)
  {
    if p == [] {
      assert p + s == s && p + t == t;
    } else {
      assert (p + s)[1..] == p[1..] + s && (p + t)[1..] == p[1..] + t;
      BeforeAfterPrefix(p[1..], s, t);
    }
  }

  /** The octet at which the encodings of two different numbers part, in the numbers' order. */
  lemma FirstDifference(a: Code, b: Code) returns (k: nat)
    requires a < b
    ensures k < |Encode(a)| && k < |Encode(b)|
    ensures Encode(a)[..k] == Encode(b)[..k] && Encode(a)[k] < Encode(b)[k]
  {
    var p, q, r, s := EncodePacks(a);
    var p', q', r', s' := EncodePacks(b);
    k := PackedDifference(a, p, q, r, s, Encode(a), b, p', q', r', s', Encode(b));
  }

  lemma PackedDifference(a: Code, p: nat, q: nat, r: nat, s: nat, x: seq<Byte>,
                         b: Code, p': nat, q': nat, r': nat, s': nat, y: seq<Byte>) returns (k: nat)
    requires AreSextets(a, p, q, r, s) && x == Packed(p, q, r, s)
    requires AreSextets(b, p', q', r', s') && y == Packed(p', q', r', s')
    requires a < b
    ensures k < |x| && k < |y|
    ensures x[..k] == y[..k] && x[k] < y[k]
  {
    SextetOrder(a, p, q, r, s, b, p', q', r', s');
    LeadBits(a, p, q, r, s);
    LeadBits(b, p', q', r', s');
    if |x| < |y| {
      k := 0;
    } else {
      k := if x[0] < y[0] then 0 else if x[1] < y[1] then 1 else if x[2] < y[2] then 2 else 3;
      assert forall i :: 0 <= i < k ==> x[i] == y[i];
    }
  }

  lemma SextetOrder(a: Code, p: nat, q: nat, r: nat, s: nat, b: Code, p': nat, q': nat, r': nat, s': nat)
    requires AreSextets(a, p, q, r, s) && AreSextets(b, p', q', r', s') && a < b
    ensures p < p' || (p == p' && (q < q' || (q == q' && (r < r' || (r == r' && s < s')))))
  {
  }

  /** Section 1 of RFC 3629: sorting the encoded texts by bytes is sorting the texts by
      character numbers. */
  lemma {:induction false} OrderPreserved(s: seq<Code>, t: seq<Code>)
    ensures BytesBefore(EncodeAll(s), EncodeAll(t)) <==> CodesBefore(s, t)
  {
    if t == [] {
    } else if s == [] {
      assert EncodeAll(t) != [] by { FormOfRfc3629(t[0]); }
    } else if s[0] == t[0] {
      BeforeAfterPrefix(Encode(s[0]), EncodeAll(s[1..]), EncodeAll(t[1..]));
      OrderPreserved(s[1..], t[1..]);
    } else {
      var x, y := EncodeAll(s), EncodeAll(t);
      var k := if s[0] < t[0] then DifferenceOf(s[0], t[0]) else DifferenceOf(t[0], s[0]);
      assert x[..k] == Encode(s[0])[..k] && y[..k] == Encode(t[0])[..k];
      assert x[k] == Encode(s[0])[k] && y[k] == Encode(t[0])[k];
      if s[0] < t[0] {
        BeforeAt(x, y, k);
      } else {
        BeforeAt(y, x, k);
      }
    }
  }

  ghost function DifferenceOf(a: Code, b: Code): (k: nat)
    requires a < b
    ensures k < |Encode(a)| && k < |Encode(b)|
    ensures Encode(a)[..k] == Encode(b)[..k] && Encode(a)[k] < Encode(b)[k]
  {
    assert exists k: nat :: k < |Encode(a)| && k < |Encode(b)|
                            && Encode(a)[..k] == Encode(b)[..k] && Encode(a)[k] < Encode(b)[k] by {
      var k := FirstDifference(a, b);
    }
    var k: nat :| k < |Encode(a)| && k < |Encode(b)| && Encode(a)[..k] == Encode(b)[..k] && Encode(a)[k] < Encode(b)[k];
    k
  }
}
