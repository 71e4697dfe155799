/** The unit registry of unit-manager/src/remote_server.cpp: the port bitmap, the id counter and the
    `key_sql` table. */
module ManagerModel {
  import opened Common
  import opened Text
  import opened ParamCodec

  /** `zmq_s_format`, cut at its one `%i`. */
  datatype Format = Format(prefix: string, suffix: string)

  function FormatText(f: Format): string { f.prefix + "%i" + f.suffix }

  /** The format a unit's URL is printed with, behind the number: unit and role only for socket files. */
  function Tail(f: Format, unit: string, role: string): string {
    f.suffix + (if Find(FormatText(f), "sock", 0).Some? then "." + unit + role else "")
  }

  function PrintUrl(f: Format, unit: string, role: string, port: nat): string {
    f.prefix + ToString(port) + Tail(f, unit, role)
  }

  /** `sscanf(url, zmq_s_format, &port)`: the port, or nothing when the URL does not match. */
  function ScanUrl(f: Format, url: string): Option<int> {
    if f.prefix <= url then ScanI(url[|f.prefix|..]) else None
  }

  lemma {:induction false} LongerNumeral(d: string, e: string)
    requires AllDigits(d) && AllDigits(e)
    ensures Value(d + e) >= Value(d) && (e != "" ==> Value(d + e) >= 10 * Value(d))
    decreases |e|
  {
    if e == "" {
      assert d + e == d;
    } else {
      assert (d + e)[..|d + e| - 1] == d + e[..|e| - 1];
      LongerNumeral(d, e[..|e| - 1]);
    }
  }

  lemma {:induction false} DigitRunExtends(d: string, rest: string)
    requires AllDigits(d)
    ensures DigitRun(d + rest) == d + DigitRun(rest)
    decreases |d|
  {
    if d == "" {
      assert d + rest == rest;
    } else {
      assert (d + rest)[1..] == d[1..] + rest;
      DigitRunExtends(d[1..], rest);
      assert d == [d[0]] + d[1..];
    }
  }

  /** Scanning a printed URL gives the printed port exactly when no digit follows it. */
  lemma ScanPrinted(f: Format, unit: string, role: string, port: nat)
    requires port > 0
    ensures var tail := Tail(f, unit, role);
            ScanUrl(f, PrintUrl(f, unit, role, port)) == Some(port as int) <==> tail == "" || !IsDigit(tail[0])
  {
    var tail, url := Tail(f, unit, role), PrintUrl(f, unit, role, port);
    assert url[|f.prefix|..] == ToString(port) + tail;
    if tail == "" || !IsDigit(tail[0]) {
      ScanIOfToString(port, tail);
    } else {
      MisreadNumber(port, tail);
    }
  }

  lemma MisreadNumber(port: nat, tail: string)
    requires port > 0 && tail != "" && IsDigit(tail[0])
    ensures ScanI(ToString(port) + tail) != Some(port as int)
  {
    var s := ToString(port) + tail;
    assert IsDigit(s[0]) && s[0] != '0';
    assert SkipSpace(s) == s;
    DigitRunExtends(ToString(port), tail);
    LongerNumeral(ToString(port), DigitRun(tail));
    ValueOfToString(port);
  }

  /** With a socket format the URL ends in unit and role; with any other it is the format with the port in it. */
  lemma {:induction false} UrlNames(f: Format, unit: string, role: string, port: nat)
    ensures var url, sock := PrintUrl(f, unit, role, port), Find(FormatText(f), "sock", 0).Some?;
            && (sock ==> EndsWith(url, "." + unit + role))
            && (sock ==> url == f.prefix + ToString(port) + f.suffix + ("." + unit + role))
            && (!sock ==> url == f.prefix + ToString(port) + f.suffix)
  {
    var head, tail := f.prefix + ToString(port) + f.suffix, "." + unit + role;
    assert f.prefix + ToString(port) + (f.suffix + tail) == head + tail;
    assert (head + tail)[|head|..] == tail;
    assert f.suffix + "" == f.suffix;
  }

  // ---------------------------------------------------------------- the port bitmap

  function FirstFree(bits: seq<bool>): (r: Option<nat>)
    ensures r.Some? ==> r.value < |bits| && !bits[r.value] && forall j :: 0 <= j < r.value ==> bits[j]
    ensures r.None? ==> forall j :: 0 <= j < |bits| ==> bits[j]
  {
    FirstFreeFrom(bits, 0)
  }

  function FirstFreeFrom(bits: seq<bool>, i: nat): (r: Option<nat>)
    requires i <= |bits|
    ensures r.Some? ==> i <= r.value < |bits| && !bits[r.value] && forall j :: i <= j < r.value ==> bits[j]
    ensures r.None? ==> forall j :: i <= j < |bits| ==> bits[j]
    decreases |bits| - i
  {
    if i == |bits| then None else if !bits[i] then Some(i) else FirstFreeFrom(bits, i + 1)
  }

  /** One of the two loops: take the first free place; `port` keeps its garbage when there is none. */
  function TakePort(bits: seq<bool>, start: nat, garbage: nat): (nat, seq<bool>) {
    match FirstFree(bits)
    case Some(i) => (start + i, bits[i := true])
    case None => (garbage, bits)
  }

  function Count(bits: seq<bool>): nat {
    if bits == [] then 0 else Count(bits[..|bits| - 1]) + if bits[|bits| - 1] then 1 else 0
  }

  lemma {:induction false} CountFlip(bits: seq<bool>, i: nat)
    requires i < |bits| && !bits[i]
    ensures Count(bits[i := true]) == Count(bits) + 1
    decreases |bits|
  {
    var n := |bits| - 1;
    if i < n {
      CountFlip(bits[..n], i);
      assert bits[i := true][..n] == bits[..n][i := true];
    } else {
      assert bits[i := true][..n] == bits[..n];
    }
  }

  lemma {:induction false} CountFull(bits: seq<bool>)
    ensures Count(bits) <= |bits|
    ensures Count(bits) == |bits| <==> FirstFree(bits).None?
    decreases |bits|
  {
    if bits != [] {
      var n := |bits| - 1;
      CountFull(bits[..n]);
      assert FirstFree(bits[..n]).None? <==> forall j :: 0 <= j < n ==> bits[..n][j];
      assert forall j :: 0 <= j < n ==> bits[..n][j] == bits[j];
    }
  }

  // ---------------------------------------------------------------- the registry

  /** `unit_data`; `number` is its field `port_`, which holds the id. */
  datatype UnitData = UnitData(workId: string, number: nat, outputUrl: string, inferenceUrl: string)

  /** `std::any`, as far as the table uses it. */
  datatype Entry = UnitV(info: UnitData) | StrV(text: string) | IntV(n: int)

  datatype Config = Config(format: Format, start: nat)

  datatype State = State(counter: nat, bits: seq<bool>, table: map<string, Entry>)

  predicate Live(s: State, key: string) { key in s.table && s.table[key].UnitV? }

  /** `sys_allocate_unit`; `g` and `h` are what the two uninitialised `port` variables hold. */
  function Allocate(c: Config, s: State, unit: string, g: nat, h: nat): (UnitData, State) {
    var key := GetWorkId(s.counter, unit);
    var (out, bits1) := TakePort(s.bits, c.start, g);
    var (inference, bits2) := TakePort(bits1, c.start, h);
    var info := UnitData(key, s.counter, PrintUrl(c.format, unit, ".output_url", out),
                         PrintUrl(c.format, unit, ".inference_url", inference));
    (info, State(s.counter + 1, bits2, s.table[key := UnitV(info)][key + OUT_PORT := StrV(info.outputUrl)]))
  }

  /** `sys_release_unit` returns -1, or writes outside the bitmap, or releases. */
  datatype Released = NotFound | OutsideBitmap | Released(state: State)

  function Release(c: Config, s: State, key: string, g: int): Released {
    if !Live(s, key) then NotFound
    else
      var info := s.table[key].info;
      var out := ScanUrl(c.format, info.outputUrl).GetOr(g);
      var inference := ScanUrl(c.format, info.inferenceUrl).GetOr(out);
      var i, j := out - c.start, inference - c.start;
      if !(0 <= i < |s.bits| && 0 <= j < |s.bits|) then OutsideBitmap
      else Released(State(s.counter, s.bits[i := false][j := false], s.table - {key} - {key + OUT_PORT}))
  }

  function SqlSelect(s: State, key: string): string {
    if key in s.table && s.table[key].StrV? then s.table[key].text else ""
  }

  function SqlSet(s: State, key: string, val: string): State { s.(table := s.table[key := StrV(val)]) }

  function SqlUnset(s: State, key: string): State { s.(table := s.table - {key}) }

  /** What is set under a key is what is selected there, until it is unset; other keys keep theirs. */
  lemma {:induction false} SetSelect(s: State, key: string, val: string, k: string)
    ensures SqlSelect(SqlSet(s, key, val), k) == if k == key then val else SqlSelect(s, k)
    ensures SqlSelect(SqlUnset(s, key), k) == if k == key then "" else SqlSelect(s, k)
    ensures Live(s, k) ==> SqlSelect(s, k) == ""
    ensures SqlSet(s, key, val).bits == SqlUnset(s, key).bits == s.bits
    ensures SqlSet(s, key, val).counter == SqlUnset(s, key).counter == s.counter
  {
  }

  // ---------------------------------------------------------------- soundness

  /** The configuration: ports are positive and no digit can follow a printed port. */
  predicate Sound(c: Config) {
    c.start > 0 && (c.format.suffix == "" || !IsDigit(c.format.suffix[0]))
  }

  /** The places in the bitmap that a unit's two URLs stand for. */
  type Places = (int, int)

  function PlacesOf(c: Config, info: UnitData): Places {
    (ScanUrl(c.format, info.outputUrl).GetOr(-1) - c.start, ScanUrl(c.format, info.inferenceUrl).GetOr(-1) - c.start)
  }

  /** The live units and their places. */
  function Units(c: Config, s: State): map<string, Places> {
    map key | key in s.table && s.table[key].UnitV? :: PlacesOf(c, s.table[key].info)
  }

  /** A live unit's key is its own id, its number has been given out, its URLs match the format, and its
      output URL is on record. */
  ghost predicate UnitOk(c: Config, s: State, key: string)
    requires Live(s, key)
  {
    var info := s.table[key].info;
    && IsKeyOf(key, info) && info.number < s.counter && info.workId == key
    && ScanUrl(c.format, info.outputUrl).Some? && ScanUrl(c.format, info.inferenceUrl).Some?
    && Recorded(s, key, info.outputUrl)
  }

  predicate Recorded(s: State, key: string, url: string) {
    key + OUT_PORT in s.table && s.table[key + OUT_PORT] == StrV(url)
  }

  predicate IsKeyOf(key: string, info: UnitData) { EndsWith(key, "." + ToString(info.number)) }

  /** Set bits are exactly the places of live units, two each, none shared. */
  ghost predicate BitsOwned(bits: seq<bool>, units: map<string, Places>) {
    && (forall k :: k in units ==> Owns(bits, units[k]))
    && (forall j, k :: j in units && k in units && j != k ==> Apart(units[j], units[k]))
    && (forall i :: 0 <= i < |bits| && bits[i] ==> Owned(units, i))
    && Count(bits) == 2 * |units|
  }

  predicate Owns(bits: seq<bool>, p: Places) {
    0 <= p.0 < |bits| && 0 <= p.1 < |bits| && p.0 != p.1 && bits[p.0] && bits[p.1]
  }

  predicate Apart(p: Places, q: Places) { p.0 != q.0 && p.0 != q.1 && p.1 != q.0 && p.1 != q.1 }

  ghost predicate Owned(units: map<string, Places>, i: int) {
    exists k :: k in units && (units[k].0 == i || units[k].1 == i)
  }

  ghost predicate Inv(c: Config, s: State) {
    BitsOwned(s.bits, Units(c, s)) && forall k :: Live(s, k) ==> UnitOk(c, s, k)
  }

  /** Work ids end in a dot and digits, so no other key, and no `.out_port` key, is one. */
  lemma KeyOf(key: string, info: UnitData, unit: string, number: nat)
    requires IsKeyOf(key, info)
    ensures key == GetWorkId(number, unit) ==> info.number == number
    ensures key != GetWorkId(number, unit) + OUT_PORT
    ensures key + OUT_PORT != GetWorkId(number, unit)
  {
    var head := key[..|key| - |"." + ToString(info.number)|];
    assert key == GetWorkId(info.number, head);
    WorkIdsDistinct(info.number, head, number, unit);
    WorkIdsDistinct(number, unit, info.number, head);
  }

  // ---------------------------------------------------------------- allocation

  /** Two places are free. */
  predicate RoomForTwo(bits: seq<bool>) { Count(bits) + 2 <= |bits| }

  /** Place `i` is the lowest free one. */
  predicate Lowest(bits: seq<bool>, i: nat) {
    i < |bits| && !bits[i] && forall j :: 0 <= j < i ==> bits[j]
  }

  /** One loop takes the lowest free place, if there is one, whatever the variable held. */
  lemma TakesLowest(bits: seq<bool>, start: nat, g: nat) returns (i: nat)
    requires Count(bits) < |bits|
    ensures Lowest(bits, i) && TakePort(bits, start, g) == (start + i, bits[i := true])
    ensures Count(bits[i := true]) == Count(bits) + 1
  {
    CountFull(bits);
    i := FirstFree(bits).value;
    CountFlip(bits, i);
  }

  /** `i` and `j` are the two lowest free places. */
  predicate TwoLowest(bits: seq<bool>, i: nat, j: nat) {
    Lowest(bits, i) && i < j < |bits| && !bits[j] && forall m :: i < m < j ==> bits[m]
  }

  lemma SecondLowest(bits: seq<bool>, i: nat, j: nat)
    requires Lowest(bits, i) && Lowest(bits[i := true], j)
    ensures TwoLowest(bits, i, j)
  {
    var bits1 := bits[i := true];
    assert forall m :: 0 <= m < |bits| && m != i ==> bits1[m] == bits[m];
    assert !(j < i) && j != i;
  }

  /** `bits2` is `bits` with the two free places `i` and `j` taken. */
  ghost predicate Taken(bits: seq<bool>, bits2: seq<bool>, i: int, j: int) {
    && |bits2| == |bits| && 0 <= i < |bits| && 0 <= j < |bits| && i != j
    && !bits[i] && !bits[j] && bits2[i] && bits2[j]
    && forall m :: 0 <= m < |bits| && m != i && m != j ==> bits2[m] == bits[m]
  }

  lemma CountTaken(bits: seq<bool>, bits2: seq<bool>, i: int, j: int)
    requires Taken(bits, bits2, i, j)
    ensures Count(bits2) == Count(bits) + 2
  {
    CountFlip(bits, i);
    CountFlip(bits[i := true], j);
    assert bits2 == bits[i := true][j := true];
  }

  /** `units2` is `units` with the new unit `key` on the places `i` and `j`. */
  ghost predicate Joins(units: map<string, Places>, units2: map<string, Places>, key: string, i: int, j: int) {
    key !in units && units2 == units[key := (i, j)]
  }

  /** Two free places given to a new unit. */
  lemma Gives(bits: seq<bool>, bits2: seq<bool>, units: map<string, Places>, units2: map<string, Places>,
              key: string, i: int, j: int)
    requires BitsOwned(bits, units) && Taken(bits, bits2, i, j) && Joins(units, units2, key, i, j)
    ensures BitsOwned(bits2, units2)
  {
    CountTaken(bits, bits2, i, j);
    assert |units2| == |units| + 1;
    forall a | a in units2 ensures Owns(bits2, units2[a]) {
      GivesOwns(bits, bits2, units, key, i, j, a);
    }
    forall a, b | a in units2 && b in units2 && a != b ensures Apart(units2[a], units2[b]) {
      GivesOwns(bits, bits2, units, key, i, j, a);
      GivesOwns(bits, bits2, units, key, i, j, b);
    }
    forall m | 0 <= m < |bits2| && bits2[m] ensures Owned(units2, m) {
      GivesOwned(bits, bits2, units, units2, key, i, j, m);
    }
  }

  lemma GivesOwns(bits: seq<bool>, bits2: seq<bool>, units: map<string, Places>, key: string, i: int, j: int, a: string)
    requires BitsOwned(bits, units) && Taken(bits, bits2, i, j) && (a == key || a in units)
    ensures a != key ==> Owns(bits2, units[a]) && Apart(units[a], (i, j))
    ensures a == key ==> Owns(bits2, (i, j))
  {
    assert a != key ==> Owns(bits, units[a]);
  }

  lemma GivesOwned(bits: seq<bool>, bits2: seq<bool>, units: map<string, Places>, units2: map<string, Places>,
                   key: string, i: int, j: int, m: int)
    requires BitsOwned(bits, units) && Taken(bits, bits2, i, j) && Joins(units, units2, key, i, j)
    requires 0 <= m < |bits2| && bits2[m]
    ensures Owned(units2, m)
  {
    if m == i || m == j {
      assert key in units2;
    } else {
      assert Owned(units, m);
      var k :| k in units && (units[k].0 == m || units[k].1 == m);
      assert k in units2 && units2[k] == units[k];
    }
  }

  /** And taken back. */
  lemma TakesBack(bits: seq<bool>, bits2: seq<bool>, units: map<string, Places>, units2: map<string, Places>,
                  key: string, i: int, j: int)
    requires BitsOwned(bits2, units2) && Taken(bits, bits2, i, j) && Joins(units, units2, key, i, j)
    ensures BitsOwned(bits, units)
  {
    CountTaken(bits, bits2, i, j);
    assert |units2| == |units| + 1;
    forall k | k in units ensures Owns(bits, units[k]) {
      BackOwns(bits, bits2, units, units2, key, i, j, k);
    }
    forall a, b | a in units && b in units && a != b ensures Apart(units[a], units[b]) {
      assert Apart(units2[a], units2[b]);
    }
    forall m | 0 <= m < |bits| && bits[m] ensures Owned(units, m) {
      BackOwned(bits, bits2, units, units2, key, i, j, m);
    }
  }

  lemma BackOwns(bits: seq<bool>, bits2: seq<bool>, units: map<string, Places>, units2: map<string, Places>,
                 key: string, i: int, j: int, k: string)
    requires BitsOwned(bits2, units2) && Taken(bits, bits2, i, j) && Joins(units, units2, key, i, j) && k in units
    ensures Owns(bits, units[k])
  {
    assert key in units2 && k in units2;
    assert Owns(bits2, units2[k]) && Apart(units2[k], units2[key]);
  }

  lemma BackOwned(bits: seq<bool>, bits2: seq<bool>, units: map<string, Places>, units2: map<string, Places>,
                  key: string, i: int, j: int, m: int)
    requires BitsOwned(bits2, units2) && Taken(bits, bits2, i, j) && Joins(units, units2, key, i, j)
    requires 0 <= m < |bits| && bits[m]
    ensures Owned(units, m)
  {
    assert m != i && m != j && bits2[m];
    assert Owned(units2, m);
    var k :| k in units2 && (units2[k].0 == m || units2[k].1 == m);
    assert k in units && units2[k] == units[k];
  }

  // ---------------------------------------------------------------- allocating and releasing

  /** With a sound configuration every printed port is read back. */
  lemma PortReadBack(c: Config, unit: string, role: string, port: nat, url: string)
    requires Sound(c) && port > 0 && url == PrintUrl(c.format, unit, role, port)
    ensures ScanUrl(c.format, url) == Some(port as int)
  {
    ScanPrinted(c.format, unit, role, port);
  }

  /** The unit made from the places `i` and `j`. */
  function Made(c: Config, s: State, unit: string, i: nat, j: nat): UnitData {
    UnitData(GetWorkId(s.counter, unit), s.counter, PrintUrl(c.format, unit, ".output_url", c.start + i),
             PrintUrl(c.format, unit, ".inference_url", c.start + j))
  }

  /** The registry with that unit in it. */
  function Entered(s: State, info: UnitData, i: nat, j: nat): (UnitData, State)
    requires i < |s.bits| && j < |s.bits|
  {
    (info, State(s.counter + 1, s.bits[i := true][j := true],
                 s.table[info.workId := UnitV(info)][info.workId + OUT_PORT := StrV(info.outputUrl)]))
  }

  lemma MadePlaces(c: Config, s: State, unit: string, i: nat, j: nat)
    requires Sound(c)
    ensures var info := Made(c, s, unit, i, j);
            && ScanUrl(c.format, info.outputUrl) == Some(c.start + i)
            && ScanUrl(c.format, info.inferenceUrl) == Some(c.start + j) && PlacesOf(c, info) == (i, j)
  {
    var info := Made(c, s, unit, i, j);
    PortReadBack(c, unit, ".output_url", c.start + i, info.outputUrl);
    PortReadBack(c, unit, ".inference_url", c.start + j, info.inferenceUrl);
    PlacesFrom(c, info, i, j);
  }

  lemma PlacesFrom(c: Config, info: UnitData, i: int, j: int)
    requires ScanUrl(c.format, info.outputUrl) == Some(c.start + i) && ScanUrl(c.format, info.inferenceUrl) == Some(c.start + j)
    ensures PlacesOf(c, info) == (i, j)
  {
  }

  /** With two places free, the unit gets the two lowest, whatever the port variables held. */
  lemma {:induction false} AllocateTakesTwoLowest(c: Config, s: State, unit: string, g: nat, h: nat) returns (i: nat, j: nat)
    requires RoomForTwo(s.bits)
    ensures TwoLowest(s.bits, i, j) && Taken(s.bits, s.bits[i := true][j := true], i, j)
    ensures Allocate(c, s, unit, g, h) == Entered(s, Made(c, s, unit, i, j), i, j)
  {
    i, j := TwoLowestPlaces(s.bits, c.start, g, h);
    TwoTaken(s.bits, i, j);
  }

  lemma {:induction false} TwoLowestPlaces(bits: seq<bool>, start: nat, g: nat, h: nat) returns (i: nat, j: nat)
    requires RoomForTwo(bits)
    ensures TwoLowest(bits, i, j) && |bits| > i && |bits| > j
    ensures TakePort(bits, start, g) == (start + i, bits[i := true])
    ensures TakePort(bits[i := true], start, h) == (start + j, bits[i := true][j := true])
  {
    i := TakesLowest(bits, start, g);
    j := TakesLowest(bits[i := true], start, h);
    SecondLowest(bits, i, j);
  }

  lemma TwoTaken(bits: seq<bool>, i: nat, j: nat)
    requires TwoLowest(bits, i, j)
    ensures Taken(bits, bits[i := true][j := true], i, j)
  {
  }

  /** Entering a unit under a new id changes no other unit. */
  lemma EntersTable(c: Config, s: State, t: State, info: UnitData, unit: string)
    requires forall k :: Live(s, k) ==> UnitOk(c, s, k)
    requires info.number == s.counter < t.counter && info.workId == GetWorkId(s.counter, unit)
    requires t.table == s.table[info.workId := UnitV(info)][info.workId + OUT_PORT := StrV(info.outputUrl)]
    requires ScanUrl(c.format, info.outputUrl).Some? && ScanUrl(c.format, info.inferenceUrl).Some?
    ensures forall k :: Live(t, k) ==> UnitOk(c, t, k)
    ensures info.workId !in Units(c, s) && Units(c, t) == Units(c, s)[info.workId := PlacesOf(c, info)]
  {
    var key := info.workId;
    assert key[|unit|..] == "." + ToString(info.number);
    assert IsKeyOf(key, info);
    assert key != key + OUT_PORT;
    forall k | Live(s, k) ensures k != key && k != key + OUT_PORT && k + OUT_PORT != key && UnitOk(c, t, k) {
      KeyOf(k, s.table[k].info, unit, info.number);
      SameSuffix(k, key);
    }
    forall k | Live(t, k) ensures UnitOk(c, t, k) {
      assert k == key || Live(s, k);
    }
    forall k ensures k in Units(c, t) <==> k == key || k in Units(c, s) {
      assert Live(t, k) <==> k == key || Live(s, k);
    }
  }

  lemma SameSuffix(j: string, k: string)
    ensures j + OUT_PORT == k + OUT_PORT ==> j == k
  {
    assert (j + OUT_PORT)[..|j|] == j && (k + OUT_PORT)[..|k|] == k;
  }

  lemma AllocateKeepsInv(c: Config, s: State, unit: string, g: nat, h: nat)
    requires Sound(c) && Inv(c, s) && RoomForTwo(s.bits)
    ensures var (info, t) := Allocate(c, s, unit, g, h);
            Inv(c, t) && info.workId !in Units(c, s) && Units(c, t) == Units(c, s)[info.workId := PlacesOf(c, info)]
  {
    var (info, t) := Allocate(c, s, unit, g, h);
    var i, j := AllocateTakesTwoLowest(c, s, unit, g, h);
    MadePlaces(c, s, unit, i, j);
    EntersTable(c, s, t, info, unit);
    Gives(s.bits, t.bits, Units(c, s), Units(c, t), info.workId, i, j);
  }

  /** With fewer than two places free, the second port is whatever the variable held. */
  lemma ExhaustedAllocation(c: Config, s: State, unit: string)
    requires Sound(c) && !RoomForTwo(s.bits)
    ensures !Inv(c, Allocate(c, s, unit, 0, c.start + |s.bits|).1)
  {
    var t, key, info := ExhaustedUnit(c, s, unit);
    PortReadBack(c, unit, ".inference_url", c.start + |s.bits|, info.inferenceUrl);
    OutsideBreaks(c, t, key, info);
  }

  lemma ExhaustedUnit(c: Config, s: State, unit: string) returns (t: State, key: string, info: UnitData)
    requires !RoomForTwo(s.bits)
    ensures t == Allocate(c, s, unit, 0, c.start + |s.bits|).1 && |t.bits| == |s.bits|
    ensures Live(t, key) && t.table[key] == UnitV(info)
    ensures info.inferenceUrl == PrintUrl(c.format, unit, ".inference_url", c.start + |s.bits|)
  {
    var h := c.start + |s.bits|;
    SecondPortMissing(s.bits, c.start, h);
    AllocatedLive(c, s, unit, 0, h);
    t, key, info := Allocate(c, s, unit, 0, h).1, GetWorkId(s.counter, unit), Allocate(c, s, unit, 0, h).0;
  }

  lemma AllocatedLive(c: Config, s: State, unit: string, g: nat, h: nat)
    ensures var (info, t) := Allocate(c, s, unit, g, h);
            && Live(t, GetWorkId(s.counter, unit)) && t.table[GetWorkId(s.counter, unit)] == UnitV(info)
            && var (out, bits1) := TakePort(s.bits, c.start, g); var (inference, bits2) := TakePort(bits1, c.start, h);
               t.bits == bits2 && info.inferenceUrl == PrintUrl(c.format, unit, ".inference_url", inference)
  {
    assert GetWorkId(s.counter, unit) != GetWorkId(s.counter, unit) + OUT_PORT;
  }

  lemma OutsideBreaks(c: Config, t: State, key: string, info: UnitData)
    requires Live(t, key) && t.table[key] == UnitV(info)
    requires ScanUrl(c.format, info.inferenceUrl) == Some(c.start + |t.bits|)
    ensures !Inv(c, t)
  {
    assert key in Units(c, t) && !Owns(t.bits, Units(c, t)[key]);
  }

  lemma SecondPortMissing(bits: seq<bool>, start: nat, h: nat)
    requires !RoomForTwo(bits)
    ensures var bits1 := TakePort(bits, start, 0).1; TakePort(bits1, start, h) == (h, bits1) && |bits1| == |bits|
  {
    CountFull(bits);
    if FirstFree(bits).Some? {
      CountFlip(bits, FirstFree(bits).value);
    }
    CountFull(TakePort(bits, start, 0).1);
  }

  /** Allocation keeps the registry sound, whatever the port variables held, exactly when two places are free. */
  lemma AllocationSafe(c: Config, s: State, unit: string)
    requires Sound(c) && Inv(c, s)
    ensures (forall g: nat, h: nat :: Inv(c, Allocate(c, s, unit, g, h).1)) <==> RoomForTwo(s.bits)
  {
    if RoomForTwo(s.bits) {
      forall g: nat, h: nat ensures Inv(c, Allocate(c, s, unit, g, h).1) {
        AllocateKeepsInv(c, s, unit, g, h);
      }
    } else {
      ExhaustedAllocation(c, s, unit);
    }
  }

  /** A sound registry has room for another unit exactly when its units leave two places. */
  lemma Capacity(c: Config, s: State)
    requires Inv(c, s)
    ensures RoomForTwo(s.bits) <==> 2 * (|Units(c, s)| + 1) <= |s.bits|
  {
  }

  /** The registry without a unit that owns the places `p`. */
  function Without(s: State, key: string, p: Places): State
    requires Owns(s.bits, p)
  {
    State(s.counter, s.bits[p.0 := false][p.1 := false], s.table - {key} - {key + OUT_PORT})
  }

  lemma ReleaseIs(c: Config, s: State, key: string, g: int)
    requires Live(s, key) && Owns(s.bits, PlacesOf(c, s.table[key].info))
    requires var info := s.table[key].info; ScanUrl(c.format, info.outputUrl).Some? && ScanUrl(c.format, info.inferenceUrl).Some?
    ensures Release(c, s, key, g) == Released(Without(s, key, PlacesOf(c, s.table[key].info)))
  {
  }

  /** Releasing a live unit frees its places and forgets its keys; it never writes outside the bitmap. */
  lemma ReleaseKeepsInv(c: Config, s: State, key: string, g: int)
    requires Inv(c, s) && Live(s, key)
    ensures Owns(s.bits, Units(c, s)[key]) && Release(c, s, key, g) == Released(Without(s, key, Units(c, s)[key]))
    ensures var t := Without(s, key, Units(c, s)[key]); Inv(c, t) && Units(c, t) == Units(c, s) - {key}
  {
    UnitPlaces(c, s, key);
    ReleaseIs(c, s, key, g);
    WithoutKeepsInv(c, s, Without(s, key, Units(c, s)[key]), key, Units(c, s)[key]);
  }

  lemma UnitPlaces(c: Config, s: State, key: string)
    requires Inv(c, s) && Live(s, key)
    ensures key in Units(c, s) && Units(c, s)[key] == PlacesOf(c, s.table[key].info) && Owns(s.bits, Units(c, s)[key])
    ensures var info := s.table[key].info; ScanUrl(c.format, info.outputUrl).Some? && ScanUrl(c.format, info.inferenceUrl).Some?
  {
    assert UnitOk(c, s, key);
    assert key in Units(c, s);
  }

  lemma WithoutKeepsInv(c: Config, s: State, t: State, key: string, p: Places)
    requires Inv(c, s) && Live(s, key) && Owns(s.bits, p) && t == Without(s, key, p) && Units(c, s)[key] == p
    ensures Inv(c, t) && Units(c, t) == Units(c, s) - {key}
  {
    LeavesTable(c, s, t, key);
    BitsWithout(s.bits, Units(c, s), key);
  }

  lemma {:induction false} BitsWithout(bits: seq<bool>, units: map<string, Places>, key: string)
    requires BitsOwned(bits, units) && key in units && Owns(bits, units[key])
    ensures BitsOwned(bits[units[key].0 := false][units[key].1 := false], units - {key})
  {
    var p := units[key];
    FreedThenTaken(bits, p);
    assert units == (units - {key})[key := p];
    TakesBack(bits[p.0 := false][p.1 := false], bits, units - {key}, units, key, p.0, p.1);
  }

  lemma FreedThenTaken(bits: seq<bool>, p: Places)
    requires Owns(bits, p)
    ensures Taken(bits[p.0 := false][p.1 := false], bits, p.0, p.1)
  {
  }

  lemma LeavesTable(c: Config, s: State, t: State, key: string)
    requires Live(s, key) && forall k :: Live(s, k) ==> UnitOk(c, s, k)
    requires t.table == s.table - {key} - {key + OUT_PORT} && t.counter == s.counter
    ensures forall k :: Live(t, k) ==> UnitOk(c, t, k)
    ensures Units(c, t) == Units(c, s) - {key}
  {
    assert UnitOk(c, s, key);
    var info := s.table[key].info;
    var head := key[..|key| - |"." + ToString(info.number)|];
    assert key == GetWorkId(info.number, head);
    forall k | Live(s, k) ensures k != key + OUT_PORT && k + OUT_PORT != key && (k != key ==> Live(t, k) && UnitOk(c, t, k)) {
      assert UnitOk(c, s, k);
      KeyOf(k, s.table[k].info, head, info.number);
      SameSuffix(k, key);
    }
    assert forall k :: Live(t, k) ==> Live(s, k) && k != key;
  }

  /** Releasing undoes an allocation: the bitmap is as before, and so is the table but for keys of that name. */
  lemma ReleaseUndoes(c: Config, s: State, unit: string, g: nat, h: nat, r: int)
    requires Sound(c) && Inv(c, s) && RoomForTwo(s.bits)
    ensures var key, t := GetWorkId(s.counter, unit), Allocate(c, s, unit, g, h).1;
            Release(c, t, key, r) == Released(State(s.counter + 1, s.bits, s.table - {key} - {key + OUT_PORT}))
  {
    var (info, t) := Allocate(c, s, unit, g, h);
    var i, j := AllocateTakesTwoLowest(c, s, unit, g, h);
    MadePlaces(c, s, unit, i, j);
    assert info.workId != info.workId + OUT_PORT;
    assert Live(t, info.workId) && t.table[info.workId] == UnitV(info);
    ReleaseIs(c, t, info.workId, r);
    Restores(s, info, i, j);
  }

  lemma Restores(s: State, info: UnitData, i: nat, j: nat)
    requires i < |s.bits| && j < |s.bits| && i != j && !s.bits[i] && !s.bits[j]
    ensures var t, key := Entered(s, info, i, j).1, info.workId;
            Without(t, key, (i, j)) == State(s.counter + 1, s.bits, s.table - {key} - {key + OUT_PORT})
  {
    var t := Entered(s, info, i, j).1;
    assert t.bits[i := false][j := false] == s.bits;
  }

  // ---------------------------------------------------------------- the general table

  /** `t` differs from `s` only in what the table holds under `key`, and that is no unit. */
  ghost predicate Overwrites(s: State, t: State, key: string) {
    && t.bits == s.bits && t.counter == s.counter && !Live(t, key)
    && forall k :: k != key ==> (k in t.table <==> k in s.table) && (k in s.table ==> t.table[k] == s.table[k])
  }

  /** The output URLs of live units stay on record. */
  ghost predicate KeepsRecords(s: State, t: State, key: string) {
    forall k :: Live(s, k) && key == k + OUT_PORT ==> Recorded(t, k, s.table[k].info.outputUrl)
  }

  lemma OverwriteSafe(c: Config, s: State, t: State, key: string)
    requires Inv(c, s) && Overwrites(s, t, key)
    ensures Inv(c, t) <==> !Live(s, key) && KeepsRecords(s, t, key)
    ensures !Live(s, key) ==> Units(c, t) == Units(c, s)
  {
    if Live(s, key) {
      LosesUnit(c, s, t, key);
    } else {
      SameUnits(c, s, t, key);
      OthersRecorded(c, s, t, key);
      RecordsDecide(c, s, t, key);
    }
  }

  lemma LosesUnit(c: Config, s: State, t: State, key: string)
    requires Overwrites(s, t, key) && Live(s, key) && Count(s.bits) == 2 * |Units(c, s)|
    ensures Count(t.bits) != 2 * |Units(c, t)|
  {
    forall k ensures k in Units(c, t) <==> k in Units(c, s) && k != key {
      assert k != key ==> (k in t.table <==> k in s.table);
    }
    OneFewer(Units(c, s), Units(c, t), key);
  }

  lemma OneFewer<K, V>(m: map<K, V>, n: map<K, V>, key: K)
    requires key in m && forall k :: k in n <==> k in m && k != key
    ensures |n| == |m| - 1
  {
    assert n.Keys == m.Keys - {key};
    KeyCount(m);
    KeyCount(n);
  }

  lemma KeyCount<K, V>(m: map<K, V>)
    ensures |m.Keys| == |m|
  {
  }

  lemma SameUnits(c: Config, s: State, t: State, key: string)
    requires Overwrites(s, t, key) && !Live(s, key)
    ensures Units(c, t) == Units(c, s) && forall k :: Live(t, k) <==> Live(s, k)
  {
    forall k ensures Live(t, k) <==> Live(s, k) {
      assert k != key ==> (k in t.table <==> k in s.table);
    }
    forall k ensures k in Units(c, t) <==> k in Units(c, s) {
      assert Live(t, k) <==> Live(s, k);
    }
  }

  lemma OthersRecorded(c: Config, s: State, t: State, key: string)
    requires Inv(c, s) && Overwrites(s, t, key)
    ensures KeepsRecords(s, t, key) <==> forall k :: Live(s, k) ==> Recorded(t, k, s.table[k].info.outputUrl)
  {
    forall k | Live(s, k) ensures key != k + OUT_PORT ==> Recorded(t, k, s.table[k].info.outputUrl) {
      assert UnitOk(c, s, k);
      var url := k + OUT_PORT;
      assert url != key ==> (url in t.table <==> url in s.table);
    }
  }

  lemma RecordsDecide(c: Config, s: State, t: State, key: string)
    requires Inv(c, s) && Overwrites(s, t, key) && forall k :: Live(t, k) <==> Live(s, k)
    ensures (forall k :: Live(t, k) ==> UnitOk(c, t, k)) <==> forall k :: Live(s, k) ==> Recorded(t, k, s.table[k].info.outputUrl)
  {
    forall k | Live(s, k) ensures UnitOk(c, t, k) <==> Recorded(t, k, s.table[k].info.outputUrl) {
      assert UnitOk(c, s, k) && Live(t, k);
      assert k != key && t.table[k] == s.table[k];
    }
  }

  lemma SmallerByOne<K, V>(m: map<K, V>, key: K)
    requires key in m
    ensures |m - {key}| == |m| - 1
  {
    assert m == (m - {key})[key := m[key]];
  }

  /** `sql_set` keeps the registry sound exactly when its key is no live unit, and no live unit's `.out_port`
      key unless the value is the URL already on record. */
  lemma SqlSetSafe(c: Config, s: State, key: string, val: string)
    requires Inv(c, s)
    ensures Inv(c, SqlSet(s, key, val))
       <==> !Live(s, key) && forall k :: Live(s, k) && key == k + OUT_PORT ==> s.table[k].info.outputUrl == val
  {
    var t := SqlSet(s, key, val);
    OverwriteSafe(c, s, t, key);
    forall k | Live(s, k) && key == k + OUT_PORT
      ensures Recorded(t, k, s.table[k].info.outputUrl) <==> s.table[k].info.outputUrl == val
    {
    }
  }

  /** `sql_unset` keeps it sound exactly when its key is no live unit and no live unit's `.out_port` key. */
  lemma SqlUnsetSafe(c: Config, s: State, key: string)
    requires Inv(c, s)
    ensures Inv(c, SqlUnset(s, key)) <==> !Live(s, key) && forall k :: Live(s, k) ==> key != k + OUT_PORT
  {
    var t := SqlUnset(s, key);
    OverwriteSafe(c, s, t, key);
    forall k | Live(s, k) && key == k + OUT_PORT ensures !Recorded(t, k, s.table[k].info.outputUrl) {
    }
  }

  /** Nodes find a live unit's output URL under its `.out_port` key. */
  lemma OutPortOnRecord(c: Config, s: State, key: string)
    requires Inv(c, s) && Live(s, key)
    ensures SqlSelect(s, key + OUT_PORT) == s.table[key].info.outputUrl
  {
    assert UnitOk(c, s, key);
  }

  /** The reply of `register_unit`. */
  function RegistrationReply(info: UnitData): string {
    SetParam(ToString(info.number), SetParam(info.outputUrl, info.inferenceUrl))
  }

  // ---------------------------------------------------------------- runs

  datatype Op = Register(unit: string, g: nat, h: nat) | Drop(key: string, wild: int) | Put(key: string, val: string)
              | Erase(key: string)

  ghost predicate Allowed(c: Config, s: State, op: Op) {
    match op
    case Register(unit, g, h) => RoomForTwo(s.bits)
    case Drop(key, wild) => true
    case Put(key, val) => !Live(s, key) && forall k :: Live(s, k) && key == k + OUT_PORT ==> s.table[k].info.outputUrl == val
    case Erase(key) => !Live(s, key) && forall k :: Live(s, k) ==> key != k + OUT_PORT
  }

  /** `rpc_release_unit`, which answers the same either way; `None` is a write outside the bitmap. */
  function DropUnit(c: Config, s: State, key: string, wild: int): Option<State> {
    match Release(c, s, key, wild)
    case NotFound => Some(s)
    case OutsideBitmap => None
    case Released(t) => Some(t)
  }

  /** One call; `None` is a write outside the bitmap. */
  function Apply(c: Config, s: State, op: Op): Option<State> {
    match op
    case Register(unit, g, h) => Some(Allocate(c, s, unit, g, h).1)
    case Drop(key, wild) => DropUnit(c, s, key, wild)
    case Put(key, val) => Some(SqlSet(s, key, val))
    case Erase(key) => Some(SqlUnset(s, key))
  }

  /** The units a call leaves. */
  ghost predicate UnitsAfter(c: Config, s: State, t: State, op: Op) {
    match op
    case Register(unit, g, h) =>
      var key := GetWorkId(s.counter, unit);
      key !in Units(c, s) && key in Units(c, t) && Units(c, t) == Units(c, s)[key := Units(c, t)[key]]
    case Drop(key, wild) => Units(c, t) == Units(c, s) - {key}
    case Put(key, val) => Units(c, t) == Units(c, s)
    case Erase(key) => Units(c, t) == Units(c, s)
  }

  lemma DropKeepsInv(c: Config, s: State, key: string, wild: int)
    requires Inv(c, s)
    ensures var t := DropUnit(c, s, key, wild); t.Some? && Inv(c, t.value) && Units(c, t.value) == Units(c, s) - {key}
  {
    if Live(s, key) {
      ReleaseKeepsInv(c, s, key, wild);
    } else {
      NothingToRemove(Units(c, s), key);
    }
  }

  lemma NothingToRemove<K, V>(m: map<K, V>, key: K)
    requires key !in m
    ensures m - {key} == m
  {
  }

  lemma {:induction false} ApplyKeepsInv(c: Config, s: State, op: Op)
    requires Sound(c) && Inv(c, s) && Allowed(c, s, op)
    ensures var t := Apply(c, s, op); t.Some? && Inv(c, t.value) && UnitsAfter(c, s, t.value, op)
  {
    match op
    case Register(unit, g, h) =>
      AllocateKeepsInv(c, s, unit, g, h);
    case Drop(key, wild) =>
      DropKeepsInv(c, s, key, wild);
    case Put(key, val) =>
      SqlSetSafe(c, s, key, val);
      OverwriteSafe(c, s, SqlSet(s, key, val), key);
    case Erase(key) =>
      SqlUnsetSafe(c, s, key);
      OverwriteSafe(c, s, SqlUnset(s, key), key);
  }

  /** A live unit keeps its entry. */
  predicate Kept(s: State, t: State, k: string) { Live(s, k) ==> Live(t, k) && t.table[k] == s.table[k] }

  /** Registering a unit keeps every other one and makes no unit but its own. */
  lemma RegisterFrame(c: Config, s: State, unit: string, g: nat, h: nat, k: string)
    requires Inv(c, s)
    ensures var (info, t) := Allocate(c, s, unit, g, h);
            && Kept(s, t, k) && (Live(t, k) ==> Live(s, k) || k == info.workId)
            && Live(t, info.workId) && t.table[info.workId] == UnitV(info)
  {
    AllocatedLive(c, s, unit, g, h);
    if Live(s, k) {
      assert UnitOk(c, s, k);
      KeyOf(k, s.table[k].info, unit, s.counter);
    }
  }

  lemma DropIs(c: Config, s: State, key: string, wild: int) returns (p: Places)
    requires Inv(c, s) && Live(s, key)
    ensures Owns(s.bits, p) && DropUnit(c, s, key, wild) == Some(Without(s, key, p))
  {
    ReleaseKeepsInv(c, s, key, wild);
    p := Units(c, s)[key];
  }

  /** Releasing a key removes at most that unit. */
  lemma DropFrame(c: Config, s: State, key: string, wild: int, k: string)
    requires Inv(c, s)
    ensures var t := DropUnit(c, s, key, wild).GetOr(s);
            (k != key ==> Kept(s, t, k)) && (Live(t, k) ==> Live(s, k) && k != key)
  {
    if Live(s, key) {
      var p := DropIs(c, s, key, wild);
      if Live(s, k) {
        UnitKeysApart(c, s, k, key);
      }
      WithoutFrame(s, key, p, k);
    }
  }

  lemma WithoutFrame(s: State, key: string, p: Places, k: string)
    requires Owns(s.bits, p) && (Live(s, k) ==> k != key + OUT_PORT)
    ensures var t := Without(s, key, p); (k != key ==> Kept(s, t, k)) && (Live(t, k) ==> Live(s, k) && k != key)
  {
  }

  lemma TableFrame(s: State, key: string, val: string, k: string)
    requires !Live(s, key)
    ensures Kept(s, SqlSet(s, key, val), k) && (Live(SqlSet(s, key, val), k) ==> Live(s, k))
    ensures Kept(s, SqlUnset(s, key), k) && (Live(SqlUnset(s, key), k) ==> Live(s, k))
  {
  }

  lemma {:induction false} UnitKeysApart(c: Config, s: State, j: string, k: string)
    requires Inv(c, s) && Live(s, j) && Live(s, k)
    ensures j != k + OUT_PORT
  {
    assert UnitOk(c, s, j) && UnitOk(c, s, k);
    KeysApart(j, s.table[j].info, k, s.table[k].info);
  }

  lemma {:induction false} KeysApart(j: string, ji: UnitData, k: string, ki: UnitData)
    requires IsKeyOf(j, ji) && IsKeyOf(k, ki)
    ensures j != k + OUT_PORT
  {
    var head := k[..|k| - |"." + ToString(ki.number)|];
    assert k == GetWorkId(ki.number, head);
    KeyOf(j, ji, head, ki.number);
  }

  /** A freshly sized bitmap, and a table of configuration values. */
  predicate Fresh(s: State) {
    (forall i :: 0 <= i < |s.bits| ==> !s.bits[i]) && forall k :: k in s.table ==> !s.table[k].UnitV?
  }

  lemma {:induction false} NoneTaken(bits: seq<bool>)
    requires forall i :: 0 <= i < |bits| ==> !bits[i]
    ensures Count(bits) == 0
    decreases |bits|
  {
    if bits != [] {
      NoneTaken(bits[..|bits| - 1]);
    }
  }

  lemma FreshInv(c: Config, s: State)
    requires Fresh(s)
    ensures Inv(c, s) && Units(c, s) == map[]
  {
    NoneTaken(s.bits);
    assert Units(c, s) == map[];
  }

  /** Every call of the run that is reached is allowed. */
  ghost predicate AllowedRun(c: Config, s: State, ops: seq<Op>)
    decreases |ops|
  {
    ops == []
    || (Allowed(c, s, ops[0]) && (Apply(c, s, ops[0]).Some? ==> AllowedRun(c, Apply(c, s, ops[0]).value, ops[1..])))
  }

  function Run(c: Config, s: State, ops: seq<Op>): Option<State>
    decreases |ops|
  {
    if ops == [] then Some(s)
    else match Apply(c, s, ops[0]) case None => None case Some(t) => Run(c, t, ops[1..])
  }

  /** Over every allowed run the set bits are exactly the ports of the live units, two each and none shared,
      and no release writes outside the bitmap. */
  lemma {:induction false} RunKeepsInv(c: Config, s: State, ops: seq<Op>)
    requires Sound(c) && Inv(c, s) && AllowedRun(c, s, ops)
    ensures Run(c, s, ops).Some? && Inv(c, Run(c, s, ops).value)
    decreases |ops|
  {
    if ops != [] {
      ApplyKeepsInv(c, s, ops[0]);
      RunKeepsInv(c, Apply(c, s, ops[0]).value, ops[1..]);
    }
  }
}

/** The manager's global variables as one object. */
module Managers {
  import opened Common
  import opened Text
  import opened ParamCodec
  import opened Envelopes
  import M = ManagerModel

  class Manager {
    const config: M.Config
    const portList: array<bool>
    var counter: nat
    var keySql: map<string, M.Entry>

    ghost function State(): M.State
      reads this, portList
    {
      M.State(counter, portList[..], keySql)
    }

    /** `remote_server_work`: the bitmap takes its size from the configured ports. */
    constructor (format: M.Format, minPort: nat, maxPort: nat, firstId: nat, settings: map<string, M.Entry>)
      requires minPort <= maxPort && forall k :: k in settings ==> !settings[k].UnitV?
      ensures fresh(portList) && portList.Length == maxPort - minPort && config == M.Config(format, minPort)
      ensures counter == firstId && keySql == settings
      ensures M.Inv(config, State()) && M.Units(config, State()) == map[]
    {
      config := M.Config(format, minPort);
      portList := new bool[maxPort - minPort](i => false);
      counter := firstId;
      keySql := settings;
      new;
      M.FreshInv(config, State());
    }

    /** One of the two first-fit loops; `port` starts with whatever the variable holds. */
    method TakePort(garbage: nat) returns (port: nat)
      modifies portList
      ensures (port, portList[..]) == M.TakePort(old(portList[..]), config.start, garbage)
    {
      port := garbage;
      for i := 0 to portList.Length
        invariant portList[..] == old(portList[..]) && port == garbage
        invariant M.FirstFree(portList[..]) == M.FirstFreeFrom(portList[..], i)
      {
        if !portList[i] {
          port := config.start + i;
          portList[i] := true;
          return;
        }
      }
    }

    /** `sprintf` of a URL into a buffer as long as the format and the number: it always fits. */
    method FormatUrl(unit: string, role: string, port: nat) returns (url: string)
      ensures url == M.PrintUrl(config.format, unit, role, port)
    {
      var ports := ToString(port);
      var text := M.FormatText(config.format);
      var extra := "";
      var sock := Find(text, "sock", 0);
      if sock.Some? {
        extra := "." + unit + role;
      }
      var buff := new char[|text| + |extra| + |ports|](i => '\0');
      var n := Sprintf(buff, 0, config.format.prefix + ports + (config.format.suffix + extra));
      url := buff[..n];
    }

    /** `sys_allocate_unit`. */
    method AllocateUnit(unit: string, g: nat, h: nat) returns (info: M.UnitData)
      modifies this`counter, this`keySql, portList
      ensures (info, State()) == M.Allocate(config, old(State()), unit, g, h)
    {
      var number := counter;
      counter := counter + 1;
      var workId := unit + "." + ToString(number);
      var port := TakePort(g);
      var outputUrl := FormatUrl(unit, ".output_url", port);
      port := TakePort(h);
      var inferenceUrl := FormatUrl(unit, ".inference_url", port);
      info := M.UnitData(workId, number, outputUrl, inferenceUrl);
      keySql := keySql[workId := M.UnitV(info)];
      keySql := keySql[workId + ".out_port" := M.StrV(outputUrl)];
    }

    /** `sys_release_unit`; the requirement is that the two writes stay inside the bitmap. */
    method ReleaseUnit(unit: string, g: int) returns (code: int)
      requires M.Release(config, State(), unit, g) != M.OutsideBitmap
      modifies this`keySql, portList
      ensures match M.Release(config, old(State()), unit, g)
              case NotFound => code == -1 && State() == old(State())
              case OutsideBitmap => false
              case Released(t) => code == 0 && State() == t
    {
      if unit !in keySql || !keySql[unit].UnitV? {
        return -1;
      }
      var info := keySql[unit].info;
      var port := g;
      var scanned := M.ScanUrl(config.format, info.outputUrl);
      if scanned.Some? {
        port := scanned.value;
      }
      portList[port - config.start] := false;
      scanned := M.ScanUrl(config.format, info.inferenceUrl);
      if scanned.Some? {
        port := scanned.value;
      }
      portList[port - config.start] := false;
      keySql := keySql - {unit};
      keySql := keySql - {unit + ".out_port"};
      return 0;
    }

    /** `rpc_allocate_unit`; a sound registry with room stays sound. */
    method RpcAllocateUnit(unit: string, g: nat, h: nat) returns (reply: string)
      modifies this`counter, this`keySql, portList
      ensures var (info, t) := M.Allocate(config, old(State()), unit, g, h);
              State() == t && reply == M.RegistrationReply(info)
      ensures M.Sound(config) && old(M.Inv(config, State()) && M.RoomForTwo(portList[..])) ==> M.Inv(config, State())
    {
      ghost var was := State();
      var info := AllocateUnit(unit, g, h);
      if M.Sound(config) && M.Inv(config, was) && M.RoomForTwo(was.bits) {
        M.AllocateKeepsInv(config, was, unit, g, h);
      }
      reply := SetParam(ToString(info.number), SetParam(info.outputUrl, info.inferenceUrl));
    }

    method SqlSet(key: string, val: string)
      modifies this`keySql
      ensures State() == M.SqlSet(old(State()), key, val)
    {
      keySql := keySql[key := M.StrV(val)];
    }

    method SqlUnset(key: string)
      modifies this`keySql
      ensures State() == M.SqlUnset(old(State()), key)
    {
      keySql := keySql - {key};
    }

    method SqlSelect(key: string) returns (out: string)
      ensures out == M.SqlSelect(State(), key)
    {
      out := "";
      if key in keySql && keySql[key].StrV? {
        out := keySql[key].text;
      }
    }
  }
}
