/** The numbers that one counter gives to the calls of several tasks: what those of one task's answer say about
    its order. `task_output` of node/test/src/main.cpp has such a counter. */
module Numbering {
  import opened Common

  // ---------------------------------------------------------------- lists of numbers

  /** `order` lists 0, 1, ..., each once. */
  ghost predicate Permutation(order: seq<int>) {
    && (forall j :: 0 <= j < |order| ==> 0 <= order[j] < |order|)
    && (forall k :: 0 <= k < |order| ==> k in order)
  }

  function Below(n: nat): (s: set<int>)
    ensures |s| == n && forall k :: k in s <==> 0 <= k < n
  {
    if n == 0 then {} else Below(n - 1) + {n - 1}
  }

  lemma SubsetSize(a: set<int>, b: set<int>)
    requires a <= b
    ensures |a| <= |b| && (|a| == |b| ==> a == b)
  {
    assert b == a + (b - a);
  }

  lemma RemoveOne(q: seq<int>, r: seq<int>, j: nat)
    requires j < |q| && r == q[..j] + q[j + 1..]
    ensures forall k :: k in q && k != q[j] ==> k in r
  {
    forall k | k in q && k != q[j] ensures k in r {
      var i :| 0 <= i < |q| && q[i] == k;
      assert r[if i < j then i else i - 1] == k;
    }
  }

  /** A list that holds each of m numbers is at least that long. */
  lemma {:induction false} TooFew(q: seq<int>, m: nat)
    requires forall k :: 0 <= k < m ==> k in q
    ensures |q| >= m
  {
    if m > 0 {
      assert m - 1 in q;
      var j :| 0 <= j < |q| && q[j] == m - 1;
      RemoveOne(q, q[..j] + q[j + 1..], j);
      TooFew(q[..j] + q[j + 1..], m - 1);
    }
  }

  /** A list holding each of 0, 1, ..., as many as it is long, holds none twice. */
  lemma OnceOnly(q: seq<int>, i: nat, j: nat)
    requires Permutation(q) && i < j < |q|
    ensures q[i] != q[j]
  {
    if q[i] == q[j] {
      var others := q[..i] + q[i + 1..];
      RemoveOne(q, others, i);
      assert others[j - 1] == q[j];
      TooFew(others, |q|);
    }
  }

  /** An order of arrival: every chunk once, the finishing one last. */
  ghost predicate ArrivalOrder(order: seq<int>, n: nat) {
    |order| == n + 1 && Permutation(order) && order[n] == n
  }

  /** A list of n + 1 numbers holding each of 0..n holds n once. */
  lemma LastOnlyOnce(order: seq<int>, n: nat, j: nat)
    requires ArrivalOrder(order, n) && j < n
    ensures order[j] != n
  {
    if order[j] == n {
      OnceOnly(order, j, n);
    }
  }

  // ---------------------------------------------------------------- gaps

  /** Below a number that occurs every number occurs. */
  ghost predicate NoGap(numbers: seq<nat>) { forall u: nat, v :: v in numbers && u < v ==> u in numbers }

  /** A set of numbers holds those below its size exactly when it has no gap. */
  lemma FullIs(keys: set<int>, numbers: seq<nat>)
    requires forall v :: v in keys <==> v in numbers
    ensures Below(|keys|) <= keys <==> NoGap(numbers)
  {
    if Below(|keys|) <= keys {
      SubsetSize(Below(|keys|), keys);
    } else if NoGap(numbers) {
      Fills(keys, numbers, |keys|);
    }
  }

  lemma {:induction false} Fills(keys: set<int>, numbers: seq<nat>, m: nat)
    requires (forall v :: v in keys <==> v in numbers) && NoGap(numbers) && m <= |keys|
    ensures Below(m) <= keys
  {
    if m > 0 {
      Fills(keys, numbers, m - 1);
      if keys <= Below(m - 1) {
        SubsetSize(keys, Below(m - 1));
      }
      var v :| v in keys && v !in Below(m - 1);
      assert v in numbers && m - 1 <= v;
    }
  }

  // ---------------------------------------------------------------- in turn

  /** The pieces are numbered in turn, from 0, leaving out no number but the finishing call's. */
  ghost predicate InTurn(numbers: seq<nat>) {
    numbers != [] &&
    var n := |numbers| - 1;
    numbers[n] <= n && forall k :: 0 <= k < n ==> numbers[k] == if k < numbers[n] then k else k + 1
  }

  /** Which call carries the number `v`. */
  function Carrier(numbers: seq<nat>, v: nat): (k: nat)
    requires numbers != [] && numbers[|numbers| - 1] < |numbers| && v < |numbers|
    ensures k < |numbers|
  {
    var n := |numbers| - 1;
    if v == numbers[n] then n else if v < numbers[n] then v else v - 1
  }

  lemma OwnCarrier(numbers: seq<nat>, k: nat)
    requires InTurn(numbers) && k < |numbers|
    ensures numbers[k] < |numbers| && Carrier(numbers, numbers[k]) == k
  {
  }

  lemma InTurnPermutes(numbers: seq<nat>)
    requires InTurn(numbers)
    ensures forall v :: v in numbers <==> 0 <= v < |numbers|
  {
    forall v: nat | v < |numbers| ensures v in numbers {
      assert numbers[Carrier(numbers, v)] == v;
    }
  }

  lemma SamePermutes(q: seq<int>)
    requires forall v :: v in q <==> 0 <= v < |q|
    ensures Permutation(q)
  {
    forall j | 0 <= j < |q| ensures 0 <= q[j] < |q| {
      assert q[j] in q;
    }
  }

  /** A list in the order of the numbers. */
  function Sorted<T>(items: seq<T>, numbers: seq<nat>): (sorted: seq<T>)
    requires |items| == |numbers| && numbers != [] && numbers[|numbers| - 1] < |numbers|
    ensures |sorted| == |items| && forall v :: 0 <= v < |items| ==> sorted[v] == items[Carrier(numbers, v)]
  {
    seq(|items|, v requires 0 <= v < |items| => items[Carrier(numbers, v)])
  }

  lemma {:induction false} ConcatJoins<T>(a: seq<seq<T>>, b: seq<seq<T>>)
    ensures Concat(a + b) == Concat(a) + Concat(b)
  {
    if a == [] {
      assert a + b == b;
    } else {
      assert (a + b)[1..] == a[1..] + b;
      ConcatJoins(a[1..], b);
    }
  }

  lemma EmptyBetween(a: seq<string>, b: seq<string>)
    ensures Concat(a + ([""] + b)) == Concat(a + b)
  {
    ConcatJoins(a, [""] + b);
    ConcatJoins(a, b);
    assert ([""] + b)[1..] == b;
  }

  lemma SortedText(pieces: seq<string>, numbers: seq<nat>)
    requires |numbers| == |pieces| + 1 && InTurn(numbers)
    ensures Concat(Sorted(pieces + [""], numbers)) == Concat(pieces)
  {
    var a, b := SortedParts(pieces, numbers, "");
    EmptyBetween(a, b);
  }

  lemma SortedParts<T>(pieces: seq<T>, numbers: seq<nat>, last: T) returns (a: seq<T>, b: seq<T>)
    requires |numbers| == |pieces| + 1 && InTurn(numbers)
    ensures pieces == a + b && Sorted(pieces + [last], numbers) == a + ([last] + b)
  {
    a, b := pieces[..numbers[|pieces|]], pieces[numbers[|pieces|]..];
  }

  /** A counter that stands at `k` when the task's `k`-th call is made is enough. */
  lemma CountedIsInTurn(numbers: seq<nat>)
    requires numbers != [] && forall k :: 0 <= k < |numbers| ==> numbers[k] == k
    ensures InTurn(numbers) && NoGap(numbers)
  {
    forall u: nat, v | v in numbers && u < v ensures u in numbers {
      assert numbers[u] == u;
    }
  }

  ghost predicate Rising(numbers: seq<nat>, n: nat)
    requires n <= |numbers|
  {
    forall i :: 0 <= i < n - 1 ==> numbers[i] < numbers[i + 1]
  }

  lemma {:induction false} RisesAtLeast(numbers: seq<nat>, n: nat, i: nat, k: nat)
    requires n <= |numbers| && Rising(numbers, n) && i <= k < n
    ensures numbers[k] - numbers[i] >= k - i
    decreases k
  {
    if i < k {
      RisesAtLeast(numbers, n, i, k - 1);
      assert numbers[k - 1] < numbers[k - 1 + 1];
    }
  }

  lemma RisingIsInTurn(numbers: seq<nat>, n: nat)
    requires |numbers| == n + 1 && Permutation(numbers) && Rising(numbers, n)
    ensures InTurn(numbers)
  {
    forall k | 0 <= k < n ensures numbers[k] == if k < numbers[n] then k else k + 1 {
      RisesAtLeast(numbers, n, 0, k);
      RisesAtLeast(numbers, n, k, n - 1);
      var f := numbers[n];
      if numbers[k] == k && f <= k {
        RisesAtLeast(numbers, n, f, k);
        RisesAtLeast(numbers, n, 0, f);
        OnceOnly(numbers, f, n);
      } else if numbers[k] == k + 1 && k < f {
        RisesAtLeast(numbers, n, k, f - 1);
        RisesAtLeast(numbers, n, f - 1, n - 1);
        OnceOnly(numbers, f - 1, n);
      }
    }
  }

  // Two letters show the order of their places.

  /** `x` and `y` at two places, nothing elsewhere. */
  function Two(n: nat, u: nat, v: nat, x: string, y: string): (texts: seq<string>)
    ensures |texts| == n && forall k :: 0 <= k < n ==> texts[k] == if k == u then x else if k == v then y else ""
  {
    seq(n, k => if k == u then x else if k == v then y else "")
  }

  /** All texts in order, joined one by one. */
  function Row(texts: seq<string>): string {
    if texts == [] then "" else Row(texts[..|texts| - 1]) + texts[|texts| - 1]
  }

  lemma TwoInRow(n: nat, u: nat, v: nat, x: string, y: string)
    requires u < v < n
    ensures Row(Two(n, u, v, x, y)) == x + y
  {
    RowOfTwo(Two(n, u, v, x, y), u, v, x, y, n);
    assert Two(n, u, v, x, y)[..n] == Two(n, u, v, x, y);
  }

  lemma {:induction false} RowOfTwo(texts: seq<string>, u: nat, v: nat, x: string, y: string, m: nat)
    requires u < v && m <= |texts|
    requires forall k :: 0 <= k < |texts| ==> texts[k] == if k == u then x else if k == v then y else ""
    ensures Row(texts[..m]) == (if u < m then x else "") + (if v < m then y else "")
  {
    if m > 0 {
      RowOfTwo(texts, u, v, x, y, m - 1);
      assert texts[..m][..m - 1] == texts[..m - 1];
    }
  }

  lemma TwoSwapped(n: nat, u: nat, v: nat, x: string, y: string)
    requires u != v
    ensures Two(n, u, v, x, y) == Two(n, v, u, y, x)
  {
  }

  lemma TwoTell(n: nat, i: nat, m: nat, u: nat, v: nat)
    requires i + 1 < n && u < m && v < m && u != v && Row(Two(m, u, v, "a", "b")) == Row(Two(n, i, i + 1, "a", "b"))
    ensures u < v
  {
    TwoInRow(n, i, i + 1, "a", "b");
    if v < u {
      TwoSwapped(m, u, v, "a", "b");
      TwoInRow(m, v, u, "b", "a");
      FirstDiffers("a", "b");
    }
  }

  lemma FirstDiffers(x: string, y: string)
    requires x != "" && y != "" && x[0] != y[0]
    ensures x + y != y + x
  {
    assert (x + y)[0] == x[0] && (y + x)[0] == y[0];
  }

  lemma {:induction false} RowOfOnes(pieces: seq<string>)
    requires forall k :: 0 <= k < |pieces| ==> |pieces[k]| == 1
    ensures |Row(pieces)| == |pieces|
    decreases |pieces|
  {
    if pieces != [] {
      RowOfOnes(pieces[..|pieces| - 1]);
    }
  }

  lemma {:induction false} RowWithGap(texts: seq<string>, z: nat, m: nat)
    requires m <= |texts| && forall k :: 0 <= k < |texts| ==> |texts[k]| <= if k == z then 0 else 1
    ensures |Row(texts[..m])| <= if z < m then m - 1 else m
  {
    if m > 0 {
      RowWithGap(texts, z, m - 1);
      assert texts[..m][..m - 1] == texts[..m - 1];
    }
  }

  /** The texts by number that give the same row as the pieces: one place for each number used, at most a letter
      in each, none in the finishing call's. */
  ghost predicate Placed(numbers: seq<nat>, pieces: seq<string>, texts: seq<string>) {
    && |numbers| == |pieces| + 1 && |texts| <= |numbers| && Row(texts) == Row(pieces)
    && (forall v :: 0 <= v < |texts| <==> v in numbers)
    && (forall v :: 0 <= v < |texts| ==> |texts[v]| <= if v == numbers[|pieces|] then 0 else 1)
    && (Permutation(numbers) ==> Follows(numbers, pieces, texts))
  }

  predicate Follows(numbers: seq<nat>, pieces: seq<string>, texts: seq<string>) {
    forall k :: 0 <= k < |numbers| <= |pieces| + 1 && numbers[k] < |texts| ==> texts[numbers[k]] == (pieces + [""])[k]
  }

  /** Pieces of one letter show that each number is used. */
  lemma OnesPlaced(numbers: seq<nat>, pieces: seq<string>, texts: seq<string>)
    requires Placed(numbers, pieces, texts) && forall k :: 0 <= k < |pieces| ==> |pieces[k]| == 1
    ensures Permutation(numbers)
  {
    RowOfOnes(pieces);
    RowWithGap(texts, numbers[|pieces|], |texts|);
    assert texts[..|texts|] == texts && numbers[|pieces|] in numbers;
    SamePermutes(numbers);
  }

  /** Two letters show the order of their numbers. */
  lemma TwoPlaced(numbers: seq<nat>, n: nat, i: nat, texts: seq<string>)
    requires i + 1 < n && Permutation(numbers) && Placed(numbers, Two(n, i, i + 1, "a", "b"), texts)
    ensures numbers[i] < numbers[i + 1]
  {
    OnceOnly(numbers, i, i + 1);
    AllPlaces(numbers, n, i, "a", "b", texts);
    TwoTell(n, i, n + 1, numbers[i], numbers[i + 1]);
  }

  lemma AllPlaces(numbers: seq<nat>, n: nat, i: nat, x: string, y: string, texts: seq<string>)
    requires i + 1 < n && Permutation(numbers) && Placed(numbers, Two(n, i, i + 1, x, y), texts)
    ensures texts == Two(n + 1, numbers[i], numbers[i + 1], x, y)
  {
    assert n in numbers;
    forall v | 0 <= v < |texts| ensures texts[v] == Two(n + 1, numbers[i], numbers[i + 1], x, y)[v] {
      assert v in numbers;
      var k :| 0 <= k < |numbers| && numbers[k] == v;
      OnePlace(numbers, n, i, x, y, k);
    }
  }

  lemma OnePlace(numbers: seq<nat>, n: nat, i: nat, x: string, y: string, k: nat)
    requires |numbers| == n + 1 && Permutation(numbers) && i + 1 < n && k <= n
    ensures (Two(n, i, i + 1, x, y) + [""])[k] == Two(n + 1, numbers[i], numbers[i + 1], x, y)[numbers[k]]
  {
    OnceOnly(numbers, i, i + 1);
    if k < i {
      OnceOnly(numbers, k, i);
      OnceOnly(numbers, k, i + 1);
    } else if k > i + 1 {
      OnceOnly(numbers, i, k);
      OnceOnly(numbers, i + 1, k);
    }
  }

  // ---------------------------------------------------------------- one counter for all tasks

  /** Whose call of `task_output` it is, and whether it finishes an answer. */
  datatype Slot = Slot(task: int, finish: bool)

  datatype Call = Call(slot: Slot, data: string)

  function Slots(calls: seq<Call>): (slots: seq<Slot>)
    ensures |slots| == |calls| && forall j :: 0 <= j < |calls| ==> slots[j] == calls[j].slot
  {
    seq(|calls|, j requires 0 <= j < |calls| => calls[j].slot)
  }

  /** Where the counter stands after these calls. */
  function Counter(count: nat, slots: seq<Slot>): nat {
    if slots == [] then count
    else if slots[|slots| - 1].finish then 0
    else Counter(count, slots[..|slots| - 1]) + 1
  }

  /** Where it stands at each call of a task. */
  function Numbers(count: nat, slots: seq<Slot>, task: int): seq<nat> {
    if slots == [] then []
    else
      var most := slots[..|slots| - 1];
      Numbers(count, most, task) + if slots[|slots| - 1].task == task then [Counter(count, most)] else []
  }

  function Finishes(slots: seq<Slot>, task: int): seq<bool> {
    if slots == [] then []
    else
      var last := slots[|slots| - 1];
      Finishes(slots[..|slots| - 1], task) + if last.task == task then [last.finish] else []
  }

  /** What a task's calls pass on. */
  function Said(calls: seq<Call>, task: int): seq<string> {
    if calls == [] then []
    else
      var last := calls[|calls| - 1];
      Said(calls[..|calls| - 1], task) + if last.slot.task == task then [last.data] else []
  }

  /** The task's calls stream one answer. */
  ghost predicate OneAnswer(slots: seq<Slot>, task: int) {
    var f := Finishes(slots, task);
    f != [] && forall k :: 0 <= k < |f| ==> (f[k] <==> k == |f| - 1)
  }

  lemma SlotsMost(calls: seq<Call>)
    requires calls != []
    ensures Slots(calls)[..|calls| - 1] == Slots(calls[..|calls| - 1])
  {
  }

  /** The pieces of a task's answer. */
  function Pieces(calls: seq<Call>, task: int): seq<string> {
    var said := Said(calls, task);
    if said == [] then [] else said[..|said| - 1]
  }

  lemma Speaking(count: nat, slots: seq<Slot>, task: int, pieces: seq<string>) returns (calls: seq<Call>)
    requires |Numbers(count, slots, task)| == |pieces| + 1
    ensures Slots(calls) == slots && Pieces(calls, task) == pieces
  {
    SlotCount(count, slots, task);
    calls := Fill(slots, task, pieces + [""]);
    assert (pieces + [""])[..|pieces|] == pieces;
  }

  lemma {:induction false} SlotCount(count: nat, slots: seq<Slot>, task: int)
    ensures |Numbers(count, slots, task)| == |Finishes(slots, task)|
    decreases |slots|
  {
    if slots != [] {
      SlotCount(count, slots[..|slots| - 1], task);
    }
  }

  lemma OneMoreCall(most: seq<Call>, last: Call, task: int, calls: seq<Call>)
    requires calls == most + [last]
    ensures Slots(calls) == Slots(most) + [last.slot]
    ensures Said(calls, task) == Said(most, task) + if last.slot.task == task then [last.data] else []
  {
    assert calls[..|calls| - 1] == most;
  }

  /** Calls with given slots and a task's given texts. */
  lemma {:induction false} Fill(slots: seq<Slot>, task: int, texts: seq<string>) returns (calls: seq<Call>)
    requires |texts| == |Finishes(slots, task)|
    ensures Slots(calls) == slots && Said(calls, task) == texts
    decreases |slots|
  {
    if slots == [] {
      calls := [];
    } else {
      var first, last, said, data := Parted(slots, task, texts);
      var most := Fill(first, task, said);
      calls := most + [Call(last, data)];
      OneMoreCall(most, Call(last, data), task, calls);
    }
  }

  lemma Parted(slots: seq<Slot>, task: int, texts: seq<string>)
    returns (first: seq<Slot>, last: Slot, said: seq<string>, data: string)
    requires slots != [] && |texts| == |Finishes(slots, task)|
    ensures slots == first + [last] && |said| == |Finishes(first, task)|
    ensures texts == said + if last.task == task then [data] else []
  {
    first, last := slots[..|slots| - 1], slots[|slots| - 1];
    said, data := texts, "";
    if last.task == task {
      said, data := texts[..|texts| - 1], texts[|texts| - 1];
    }
  }

  lemma OneMoreSlot(count: nat, most: seq<Slot>, last: Slot, task: int, slots: seq<Slot>)
    requires slots == most + [last]
    ensures Numbers(count, slots, task) == Numbers(count, most, task) + if last.task == task then [Counter(count, most)] else []
    ensures Finishes(slots, task) == Finishes(most, task) + if last.task == task then [last.finish] else []
    ensures Counter(count, slots) == if last.finish then 0 else Counter(count, most) + 1
  {
    assert slots[..|slots| - 1] == most;
  }

  /** It is not necessary: here task 1 speaks at 1 and, because task 2 finishes in between, finishes at 0. */
  lemma LuckyNumbers()
    ensures var slots := [Slot(2, false), Slot(1, false), Slot(2, true), Slot(1, true)];
            OneAnswer(slots, 1) && Numbers(0, slots, 1) == [1, 0] && InTurn([1, 0])
  {
    var s1, s2, s3 := [Slot(2, false)], [Slot(2, false), Slot(1, false)], [Slot(2, false), Slot(1, false), Slot(2, true)];
    OneMoreSlot(0, [], Slot(2, false), 1, s1);
    OneMoreSlot(0, s1, Slot(1, false), 1, s2);
    OneMoreSlot(0, s2, Slot(2, true), 1, s3);
    OneMoreSlot(0, s3, Slot(1, true), 1, [Slot(2, false), Slot(1, false), Slot(2, true), Slot(1, true)]);
  }

  /** Here task 2 speaks at 1 and 0 and finishes at 1: no gap, no error, and its first piece is lost. */
  lemma SilentLoss()
    ensures var slots := [Slot(1, false), Slot(2, false), Slot(1, true), Slot(2, false), Slot(2, true)];
            OneAnswer(slots, 2) && Numbers(0, slots, 2) == [1, 0, 1] && NoGap([1, 0, 1]) && !InTurn([1, 0, 1])
  {
    var s1, s2, s3 := [Slot(1, false)], [Slot(1, false), Slot(2, false)], [Slot(1, false), Slot(2, false), Slot(1, true)];
    var s4 := [Slot(1, false), Slot(2, false), Slot(1, true), Slot(2, false)];
    OneMoreSlot(0, [], Slot(1, false), 2, s1);
    OneMoreSlot(0, s1, Slot(2, false), 2, s2);
    OneMoreSlot(0, s2, Slot(1, true), 2, s3);
    OneMoreSlot(0, s3, Slot(2, false), 2, s4);
    OneMoreSlot(0, s4, Slot(2, true), 2, [Slot(1, false), Slot(2, false), Slot(1, true), Slot(2, false), Slot(2, true)]);
    assert [1, 0, 1][1] == 0;
  }
}
