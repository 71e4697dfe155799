/** The C and C++ text primitives the repository relies on: decimal printing, `stoi`,
    the `%i` conversion of `sscanf`, and `std::string::find`. */
module Text {
  import opened Common

  const INT_MAX := 0x7fff_ffff

  // ---------------------------------------------------------------- substring search

  ghost predicate OccursAt(s: string, pat: string, i: nat) {
    i + |pat| <= |s| && s[i..i + |pat|] == pat
  }

  /** `s.find(pat, from)`. */
  function Find(s: string, pat: string, from: nat): (r: Option<nat>)
    ensures r.Some? ==> from <= r.value && r.value + |pat| <= |s|
    decreases |s| - from
  {
    if from + |pat| > |s| then None
    else if s[from..from + |pat|] == pat then Some(from)
    else Find(s, pat, from + 1)
  }

  /** It is the first occurrence at or after `from`. */
  lemma {:induction false} FindIsFirst(s: string, pat: string, from: nat)
    ensures var r := Find(s, pat, from);
            && (r.Some? ==> OccursAt(s, pat, r.value))
            && forall j: nat :: from <= j && (r.Some? ==> j < r.value) ==> !OccursAt(s, pat, j)
    decreases |s| - from
  {
    if from + |pat| <= |s| && s[from..from + |pat|] != pat {
      FindIsFirst(s, pat, from + 1);
    }
  }

  /** Whatever satisfies the description of the first occurrence is what `Find` returns. */
  lemma FindIs(s: string, pat: string, i: nat)
    requires OccursAt(s, pat, i)
    requires forall j: nat :: j < i ==> !OccursAt(s, pat, j)
    ensures Find(s, pat, 0) == Some(i)
  {
    FindIsFirst(s, pat, 0);
    var r := Find(s, pat, 0);
    assert r.Some? && !(r.value < i) && !(i < r.value);
  }

  predicate EndsWith(s: string, tail: string) {
    |tail| <= |s| && s[|s| - |tail|..] == tail
  }

  // ---------------------------------------------------------------- decimal numerals

  predicate IsDigit(c: char) { '0' <= c <= '9' }

  predicate AllDigits(s: string) { forall i :: 0 <= i < |s| ==> IsDigit(s[i]) }

  function DigitValue(c: char): nat
    requires IsDigit(c)
  {
    c as int - '0' as int
  }

  /** `std::to_string` and the `%i` conversion of `sprintf`, on non-negative numbers. */
  function ToString(n: nat): (s: string)
    ensures s != [] && AllDigits(s)
    ensures s[0] == '0' ==> n == 0
  {
    var d := ('0' as int + n % 10) as char;
    if n < 10 then [d] else ToString(n / 10) + [d]
  }

  function Value(s: string): nat
    requires AllDigits(s)
  {
    if s == [] then 0 else 10 * Value(s[..|s| - 1]) + DigitValue(s[|s| - 1])
  }

  lemma {:induction false} ValueOfToString(n: nat)
    ensures Value(ToString(n)) == n
  {
    if n < 10 {
      assert Value(ToString(n)[..0]) == 0;
    } else {
      ValueOfToString(n / 10);
      assert ToString(n)[..|ToString(n)| - 1] == ToString(n / 10);
    }
  }

  lemma ToStringInjective(m: nat, n: nat)
    requires ToString(m) == ToString(n)
    ensures m == n
  {
    ValueOfToString(m);
    ValueOfToString(n);
  }

  /** A number below 10^k prints in at most k digits; ten digits hold every `int`. */
  lemma {:induction false} ToStringLength(n: nat, k: nat)
    requires k > 0 && n < Pow10(k)
    ensures |ToString(n)| <= k
  {
    if n >= 10 {
      ToStringLength(n / 10, k - 1);
    }
  }

  function Pow10(k: nat): nat {
    if k == 0 then 1 else 10 * Pow10(k - 1)
  }

  // ---------------------------------------------------------------- stoi and %i

  predicate IsSpace(c: char) {
    c == ' ' || ('\t' <= c <= '\r')
  }

  function SkipSpace(s: string): string {
    if s != [] && IsSpace(s[0]) then SkipSpace(s[1..]) else s
  }

  /** The longest prefix of decimal digits. */
  function DigitRun(s: string): (d: string)
    ensures AllDigits(d) && d <= s
    ensures |d| < |s| ==> !IsDigit(s[|d|])
  {
    if s != [] && IsDigit(s[0]) then [s[0]] + DigitRun(s[1..]) else []
  }

  lemma {:induction false} DigitRunSplits(d: string, rest: string)
    requires AllDigits(d)
    requires rest != [] ==> !IsDigit(rest[0])
    ensures DigitRun(d + rest) == d
  {
    if d == [] {
      assert d + rest == rest;
    } else {
      assert (d + rest)[1..] == d[1..] + rest;
      DigitRunSplits(d[1..], rest);
    }
  }

  /** `std::stoi`: white space, a sign, then the longest run of digits; `None` stands for
      the exceptions `invalid_argument` and `out_of_range`. */
  function Stoi(s: string): Option<int> {
    var t := SkipSpace(s);
    var signed := t != [] && (t[0] == '-' || t[0] == '+');
    var d := DigitRun(if signed then t[1..] else t);
    if d == [] then None
    else
      var v: int := if signed && t[0] == '-' then -(Value(d) as int) else Value(d);
      if -INT_MAX - 1 <= v <= INT_MAX then Some(v) else None
  }

  lemma StoiOfToString(n: nat, rest: string)
    requires n <= INT_MAX
    requires rest != [] ==> !IsDigit(rest[0])
    ensures Stoi(ToString(n) + rest) == Some(n)
  {
    var s := ToString(n) + rest;
    assert IsDigit(s[0]);
    assert SkipSpace(s) == s;
    DigitRunSplits(ToString(n), rest);
    ValueOfToString(n);
  }

  predicate IsOctal(c: char) { '0' <= c <= '7' }

  function HexValue(c: char): Option<nat> {
    if IsDigit(c) then Some(DigitValue(c))
    else if 'a' <= c <= 'f' then Some(c as int - 'a' as int + 10)
    else if 'A' <= c <= 'F' then Some(c as int - 'A' as int + 10)
    else None
  }

  function ScanHex(s: string, acc: nat): nat
    decreases |s|
  {
    if s != [] && HexValue(s[0]).Some? then ScanHex(s[1..], 16 * acc + HexValue(s[0]).value) else acc
  }

  function ScanOctal(s: string, acc: nat): nat
    decreases |s|
  {
    if s != [] && IsOctal(s[0]) then ScanOctal(s[1..], 8 * acc + DigitValue(s[0])) else acc
  }

  /** The `%i` conversion of `sscanf`: the base follows from the text, so a leading zero means
      octal and `0x` means hexadecimal. `None` is a matching failure. */
  function ScanI(s: string): Option<int> {
    var t := SkipSpace(s);
    var signed := t != [] && (t[0] == '-' || t[0] == '+');
    var u := if signed then t[1..] else t;
    if u == [] || !IsDigit(u[0]) then None
    else
      var v: nat := if |u| >= 3 && u[0] == '0' && (u[1] == 'x' || u[1] == 'X') && HexValue(u[2]).Some?
                    then ScanHex(u[2..], 0)
                    else if u[0] == '0' then ScanOctal(u, 0)
                    else Value(DigitRun(u));
      Some(if signed && t[0] == '-' then -(v as int) else v as int)
  }

  lemma ScanIOfToString(n: nat, rest: string)
    requires n > 0
    requires rest != [] ==> !IsDigit(rest[0])
    ensures ScanI(ToString(n) + rest) == Some(n)
  {
    var s := ToString(n) + rest;
    assert IsDigit(s[0]) && s[0] != '0';
    assert SkipSpace(s) == s;
    DigitRunSplits(ToString(n), rest);
    ValueOfToString(n);
  }

  // ---------------------------------------------------------------- what they read, in general

  predicate AllSpace(s: string) { forall i :: 0 <= i < |s| ==> IsSpace(s[i]) }

  /** The number that a sign makes of a magnitude. */
  function SignedValue(sign: string, n: nat): int { if sign == "-" then -(n as int) else n }

  /** White space, a sign or none, and what stands behind: it begins with neither when there is no sign. */
  predicate Reads(s: string, blanks: string, sign: string, rest: string) {
    && s == blanks + (sign + rest) && AllSpace(blanks) && sign in ["", "+", "-"]
    && (sign == "" && rest != "" ==> !IsSpace(rest[0]) && rest[0] != '+' && rest[0] != '-')
  }

  lemma {:induction false} SkipsBlanks(blanks: string, rest: string)
    requires AllSpace(blanks) && (rest != "" ==> !IsSpace(rest[0]))
    ensures SkipSpace(blanks + rest) == rest
  {
    if blanks == "" {
      assert blanks + rest == rest;
    } else {
      assert (blanks + rest)[1..] == blanks[1..] + rest;
      SkipsBlanks(blanks[1..], rest);
    }
  }

  /** `stoi` takes white space, a sign and the digits that follow; it throws when there are none, or when they do not
      fit an `int`. */
  lemma {:induction false} StoiReads(s: string, blanks: string, sign: string, digits: string, rest: string)
    requires Reads(s, blanks, sign, digits + rest) && AllDigits(digits) && (rest != "" ==> !IsDigit(rest[0]))
    ensures var n := SignedValue(sign, Value(digits));
            Stoi(s) == if digits != "" && -INT_MAX - 1 <= n <= INT_MAX then Some(n) else None
  {
    AfterSign(s, blanks, sign, digits + rest);
    DigitRunSplits(digits, rest);
  }

  lemma {:induction false} AfterSign(s: string, blanks: string, sign: string, rest: string)
    requires Reads(s, blanks, sign, rest)
    ensures var t := SkipSpace(s);
            && t == sign + rest && (sign != "" <==> t != "" && (t[0] == '-' || t[0] == '+'))
            && (sign == "" ==> t == rest) && (sign != "" ==> t[1..] == rest && (t[0] == '-' <==> sign == "-"))
  {
    SkipsBlanks(blanks, sign + rest);
  }

  /** The `%i` conversion takes the same from digits that do not begin with a zero. */
  lemma {:induction false} ScanIReadsDecimal(s: string, blanks: string, sign: string, n: nat, rest: string)
    requires n > 0 && Reads(s, blanks, sign, ToString(n) + rest) && (rest != "" ==> !IsDigit(rest[0]))
    ensures ScanI(s) == Some(SignedValue(sign, n))
  {
    AfterSign(s, blanks, sign, ToString(n) + rest);
    DigitRunSplits(ToString(n), rest);
    ValueOfToString(n);
  }

  /** Digits behind a zero are octal. */
  lemma {:induction false} ScanIReadsOctal(s: string, blanks: string, sign: string, n: nat, rest: string)
    requires Reads(s, blanks, sign, ("0" + ToOctal(n)) + rest) && (rest != "" ==> !IsOctal(rest[0]))
    ensures ScanI(s) == Some(SignedValue(sign, n))
  {
    var u := ("0" + ToOctal(n)) + rest;
    AfterSign(s, blanks, sign, u);
    OctalRead(n, rest);
    assert u[1] == ToOctal(n)[0] && IsOctal(u[1]);
  }

  /** Digits behind `0x` are hexadecimal. */
  lemma {:induction false} ScanIReadsHex(s: string, blanks: string, sign: string, n: nat, rest: string)
    requires Reads(s, blanks, sign, ("0x" + ToHex(n)) + rest) && (rest != "" ==> HexValue(rest[0]).None?)
    ensures ScanI(s) == Some(SignedValue(sign, n))
  {
    AfterSign(s, blanks, sign, ("0x" + ToHex(n)) + rest);
    HexRead(n, rest);
  }

  /** The number in base 8, and in base 16. */
  function ToOctal(n: nat): (s: string)
    ensures s != "" && AllOctal(s)
  {
    var d := ('0' as int + n % 8) as char;
    if n < 8 then [d] else ToOctal(n / 8) + [d]
  }

  predicate AllOctal(s: string) { forall i :: 0 <= i < |s| ==> IsOctal(s[i]) }

  function ToHex(n: nat): (s: string)
    ensures s != "" && AllHex(s)
  {
    HexDigitValue(n % 16);
    if n < 16 then [HexDigit(n)] else ToHex(n / 16) + [HexDigit(n % 16)]
  }

  predicate AllHex(s: string) { forall i :: 0 <= i < |s| ==> HexValue(s[i]).Some? }

  function HexDigit(n: nat): char
    requires n < 16
  {
    if n < 10 then ('0' as int + n) as char else ('a' as int + n - 10) as char
  }

  lemma {:induction false} HexDigitValue(n: nat)
    requires n < 16
    ensures HexValue(HexDigit(n)) == Some(n)
  {
  }

  lemma {:induction false} OctalStops(s: string, rest: string, acc: nat)
    requires AllOctal(s) && (rest != "" ==> !IsOctal(rest[0]))
    ensures ScanOctal(s + rest, acc) == ScanOctal(s, acc)
  {
    if s == "" {
      assert s + rest == rest;
    } else {
      assert (s + rest)[1..] == s[1..] + rest;
      OctalStops(s[1..], rest, 8 * acc + DigitValue(s[0]));
    }
  }

  lemma {:induction false} OctalSnoc(s: string, c: char, acc: nat)
    requires AllOctal(s) && IsOctal(c)
    ensures ScanOctal(s + [c], acc) == 8 * ScanOctal(s, acc) + DigitValue(c)
  {
    if s == "" {
      assert s + [c] == [c] && [c][1..] == "";
    } else {
      assert (s + [c])[1..] == s[1..] + [c];
      OctalSnoc(s[1..], c, 8 * acc + DigitValue(s[0]));
    }
  }

  lemma {:induction false} OctalRoundTrip(n: nat)
    ensures ScanOctal(ToOctal(n), 0) == n
  {
    if n < 8 {
      assert ToOctal(n)[1..] == "";
    } else {
      OctalRoundTrip(n / 8);
      OctalSnoc(ToOctal(n / 8), ('0' as int + n % 8) as char, 0);
    }
  }

  lemma {:induction false} OctalRead(n: nat, rest: string)
    requires rest != "" ==> !IsOctal(rest[0])
    ensures ScanOctal(("0" + ToOctal(n)) + rest, 0) == n
  {
    OctalStops("0" + ToOctal(n), rest, 0);
    assert ("0" + ToOctal(n))[1..] == ToOctal(n);
    OctalRoundTrip(n);
  }

  lemma {:induction false} HexStops(s: string, rest: string, acc: nat)
    requires AllHex(s) && (rest != "" ==> HexValue(rest[0]).None?)
    ensures ScanHex(s + rest, acc) == ScanHex(s, acc)
  {
    if s == "" {
      assert s + rest == rest;
    } else {
      assert (s + rest)[1..] == s[1..] + rest;
      HexStops(s[1..], rest, 16 * acc + HexValue(s[0]).value);
    }
  }

  lemma {:induction false} HexSnoc(s: string, c: char, acc: nat)
    requires AllHex(s) && HexValue(c).Some?
    ensures ScanHex(s + [c], acc) == 16 * ScanHex(s, acc) + HexValue(c).value
  {
    if s == "" {
      assert s + [c] == [c] && [c][1..] == "";
    } else {
      assert (s + [c])[1..] == s[1..] + [c];
      HexSnoc(s[1..], c, 16 * acc + HexValue(s[0]).value);
    }
  }

  lemma {:induction false} HexRoundTrip(n: nat)
    ensures ScanHex(ToHex(n), 0) == n
  {
    HexDigitValue(n % 16);
    if n < 16 {
      assert ToHex(n)[1..] == "";
    } else {
      HexRoundTrip(n / 16);
      HexSnoc(ToHex(n / 16), HexDigit(n % 16), 0);
    }
  }

  lemma {:induction false} HexRead(n: nat, rest: string)
    requires rest != "" ==> HexValue(rest[0]).None?
    ensures var u := ("0x" + ToHex(n)) + rest;
            |u| >= 3 && u[0] == '0' && u[1] == 'x' && HexValue(u[2]).Some? && ScanHex(u[2..], 0) == n
  {
    var u := ("0x" + ToHex(n)) + rest;
    assert u[2..] == ToHex(n) + rest && u[2] == ToHex(n)[0];
    HexStops(ToHex(n), rest, 0);
    HexRoundTrip(n);
  }
}
