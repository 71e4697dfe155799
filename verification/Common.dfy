/** Datatypes and sequence facts shared by the other modules. */
module Common {

  datatype Option<+T> = None | Some(value: T)
  {
    function GetOr(default: T): T {
      if None? then default else value
    }
  }

  type Byte = b: int | 0 <= b < 256

  function Max(a: int, b: int): int { if a < b then b else a }

  function Min(a: int, b: int): int { if a < b then a else b }

  /** The concatenation of all parts, in order. */
  function Concat<T>(parts: seq<seq<T>>): seq<T> {
    if parts == [] then [] else parts[0] + Concat(parts[1..])
  }

  lemma {:induction false} ConcatSnoc<T>(parts: seq<seq<T>>, last: seq<T>)
    ensures Concat(parts + [last]) == Concat(parts) + last
  {
    if parts == [] {
      assert Concat([last]) == last + Concat<T>([]);
    } else {
      assert (parts + [last])[1..] == parts[1..] + [last];
      ConcatSnoc(parts[1..], last);
    }
  }

  lemma SliceTake<T>(s: seq<T>, i: nat, j: nat, n: nat)
    requires i + n <= j <= |s|
    ensures s[i..j][..n] == s[i..i + n]
  {
  }

  /** `s` with `data` written over the positions from `at` on. */
  function Overwrite<T>(s: seq<T>, at: nat, data: seq<T>): seq<T>
    requires at + |data| <= |s|
  {
    s[..at] + data + s[at + |data|..]
  }
}
