/** Signed integers in network byte order, as Endian.h and `memcpy` lay them out. */
module BigEndian {
  import opened Common

  function Pow256(width: nat): (p: nat)
    ensures p > 0
  {
    if width == 0 then 1 else 256 * Pow256(width - 1)
  }

  /** The values of a signed integer of `width` bytes. */
  predicate Fits(x: int, width: nat)
    requires width > 0
  {
    -128 * Pow256(width - 1) <= x < 128 * Pow256(width - 1)
  }

  function Unsigned(v: nat, width: nat): (s: seq<Byte>)
    requires v < Pow256(width)
    ensures |s| == width
  {
    if width == 0 then [] else Unsigned(v / 256, width - 1) + [v % 256]
  }

  function ValueOf(s: seq<Byte>): nat {
    if s == [] then 0 else 256 * ValueOf(s[..|s| - 1]) + s[|s| - 1]
  }

  /** `hostToNetworkN`: the bytes of `x` in memory, most significant first, in two's complement. */
  function Encode(x: int, width: nat): (s: seq<Byte>)
    requires width > 0 && Fits(x, width)
    ensures |s| == width
  {
    Unsigned(if x < 0 then x + Pow256(width) else x, width)
  }

  /** `networkToHostN` on the bytes at hand. */
  function Decode(s: seq<Byte>): int
    requires s != []
  {
    var v := ValueOf(s);
    if v < 128 * Pow256(|s| - 1) then v else v - Pow256(|s|)
  }

  lemma {:induction false} UnsignedRoundTrip(v: nat, width: nat)
    requires v < Pow256(width)
    ensures ValueOf(Unsigned(v, width)) == v
  {
    if width > 0 {
      var s := Unsigned(v, width);
      assert s[..|s| - 1] == Unsigned(v / 256, width - 1);
      UnsignedRoundTrip(v / 256, width - 1);
    }
  }

  /** Byte `i` is the digit of weight 256^(width-1-i): the most significant byte comes first. */
  lemma {:induction false} DigitAt(v: nat, width: nat, i: nat)
    requires v < Pow256(width) && i < width
    ensures Unsigned(v, width)[i] == v / Pow256(width - 1 - i) % 256
  {
    if i == width - 1 {
      assert Pow256(0) == 1;
    } else {
      DigitAt(v / 256, width - 1, i);
      DivideTwice(v, Pow256(width - 2 - i));
    }
  }

  lemma {:induction false} DivideTwice(v: nat, p: nat)
    requires p > 0
    ensures v / 256 / p == v / (256 * p)
  {
    var q, r := v / 256, v % 256;
    var a, b := q / p, q % p;
    assert v == 256 * q + r && q == p * a + b;
    assert v == (256 * p) * a + (256 * b + r) by { Regrouped(p, a, b); }
    QuotientIs(v, 256 * p, a, 256 * b + r);
  }

  lemma {:induction false} Regrouped(p: nat, a: nat, b: nat)
    ensures 256 * (p * a + b) == (256 * p) * a + 256 * b
  {
  }

  lemma {:induction false} QuotientIs(v: nat, d: nat, a: nat, b: nat)
    requires d > 0 && b < d && v == d * a + b
    ensures v / d == a
  {
    var q, r := v / d, v % d;
    assert v == d * q + r;
    if q < a {
      assert d * (a - q) >= d by { Scaled(d, a - q); }
    } else if q > a {
      assert d * (q - a) >= d by { Scaled(d, q - a); }
    }
  }

  lemma {:induction false} Scaled(d: nat, k: nat)
    requires k > 0
    ensures d * k >= d
  {
  }

  /** An integer reads back as it was written. */
  lemma RoundTrip(x: int, width: nat)
    requires width > 0 && Fits(x, width)
    ensures Decode(Encode(x, width)) == x
  {
    UnsignedRoundTrip(if x < 0 then x + Pow256(width) else x, width);
  }
}
