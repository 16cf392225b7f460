/** The ARP neighbour table (5gc/upf_u/upf_u_arp.c:60-142, 215-247): open addressing with
    linear probing over 64 slots, as a partial map from (port, address) to entries. */
module Arp {

  const NEIGH_MAX := 64
  const TIMEOUT_SEC := 300
  const RETRY_SEC := 1
  const U64 := 0x1_0000_0000_0000_0000

  datatype Key = Key(port: bv16, ip: bv32)

  datatype NeighState = EmptyState | Incomplete | Reachable | Stale

  datatype Neigh = Neigh(inUse: bool, key: Key, mac: seq<nat>, stamp: nat, state: NeighState)

  const ZERO_MAC: seq<nat> := [0, 0, 0, 0, 0, 0]
  const ZERO_NEIGH := Neigh(false, Key(0, 0), ZERO_MAC, 0, EmptyState)

  type Table = t: seq<Neigh> | |t| == 64 witness seq(64, _ => ZERO_NEIGH)

  function Home(k: Key): (h: nat)
    ensures h < NEIGH_MAX
  {
    var p := k.port as bv32;
    ((k.ip ^ (p << 16) ^ (p << 3)) as int) % NEIGH_MAX
  }

  /** The d-th slot of a key's probe sequence. */
  function Pos(key: Key, d: nat): (p: nat)
    ensures p < NEIGH_MAX
  {
    (Home(key) + d) % NEIGH_MAX
  }

  lemma PosStep(key: Key, d: nat)
    ensures Pos(key, 0) == Home(key) && Pos(key, d + 1) == (Pos(key, d) + 1) % NEIGH_MAX
    ensures 0 < d < NEIGH_MAX ==> Pos(key, d) != Home(key)
    ensures Pos(key, NEIGH_MAX) == Home(key)
  {}

  lemma PosCovers(key: Key, p: nat) returns (d: nat)
    requires p < NEIGH_MAX
    ensures d < NEIGH_MAX && Pos(key, d) == p
  {
    d := (p + NEIGH_MAX - Home(key)) % NEIGH_MAX;
  }

  // ----- operations

  predicate Matches(e: Neigh, key: Key) { e.inUse && e.key == key }

  /** Where a lookup that has come to its d-th probe ends, or -1. */
  function Find(t: Table, key: Key, d: nat): (r: int)
    requires d <= NEIGH_MAX
    ensures -1 <= r < NEIGH_MAX && (r >= 0 ==> Matches(t[r], key))
    decreases NEIGH_MAX - d
  {
    if d == NEIGH_MAX || !t[Pos(key, d)].inUse then -1
    else if t[Pos(key, d)].key == key then Pos(key, d)
    else Find(t, key, d + 1)
  }

  /** Where an update that has come to its d-th probe writes: the key's own slot, else the
      first unused one, else, in a full table, the home slot. */
  function Target(t: Table, key: Key, d: nat): (r: nat)
    requires d <= NEIGH_MAX
    ensures r < NEIGH_MAX
    decreases NEIGH_MAX - d
  {
    if d == NEIGH_MAX then Home(key)
    else if !t[Pos(key, d)].inUse || t[Pos(key, d)].key == key then Pos(key, d)
    else Target(t, key, d + 1)
  }

  function Store(t: Table, e: Neigh): Table { t[Target(t, e.key, 0) := e] }

  function Update(t: Table, key: Key, mac: seq<nat>, now: nat): Table {
    Store(t, Neigh(true, key, mac, now, Reachable))
  }

  /** Cycles from `stamp` to `now` in 64-bit arithmetic. */
  function Since(stamp: nat, now: nat): nat { (now - stamp) % U64 }

  /** An entry as a lookup leaves it. */
  function Aged(e: Neigh, now: nat, hz: nat): Neigh {
    if e.state.Reachable? && hz > 0 && Since(e.stamp, now) > TIMEOUT_SEC * hz then e.(state := Stale) else e
  }

  function Look(t: Table, key: Key, now: nat, hz: nat): Table {
    var p := Find(t, key, 0);
    if p < 0 then t else t[p := Aged(t[p], now, hz)]
  }

  /** A request is not repeated within a second. */
  predicate Suppressed(e: Neigh, now: nat, hz: nat) {
    e.state.Incomplete? && hz > 0 && Since(e.stamp, now) < RETRY_SEC * hz
  }

  /** What a request does to the entry it is sent for. */
  function Asked(e: Neigh, now: nat): Neigh {
    if e.state.Stale? || e.state.Incomplete? then e.(state := Incomplete, stamp := now) else e
  }

  /** send_arp_request; `sendable` says whether a packet could be built. */
  function Request(t: Table, key: Key, now: nat, hz: nat, sendable: bool): Table {
    var t1 := Look(t, key, now, hz);
    var p := Find(t, key, 0);
    if p >= 0 then
      if Suppressed(t1[p], now, hz) || !sendable then t1 else t1[p := Asked(t1[p], now)]
    else if !sendable then t1
    else Store(t1, Neigh(true, key, ZERO_MAC, now, Incomplete))
  }

  // ----- the table as a map

  ghost predicate KeysUnique(t: Table) {
    forall i, j :: 0 <= i < j < NEIGH_MAX && t[i].inUse && t[j].inUse ==> t[i].key != t[j].key
  }

  /** Every probe before the d-th meets a slot in use. */
  ghost predicate Chain(t: Table, key: Key, d: nat) {
    forall c :: 0 <= c < d ==> t[Pos(key, c)].inUse
  }

  ghost predicate Placed(t: Table, p: nat)
    requires p < NEIGH_MAX
  {
    exists d :: 0 <= d < NEIGH_MAX && Pos(t[p].key, d) == p && Chain(t, t[p].key, d)
  }

  ghost predicate Valid(t: Table) {
    KeysUnique(t) && forall p :: 0 <= p < NEIGH_MAX && t[p].inUse ==> Placed(t, p)
  }

  predicate Full(t: Table) { forall p :: 0 <= p < NEIGH_MAX ==> t[p].inUse }

  /** What the table says about a key: at most one entry. */
  ghost predicate Holds(t: Table, key: Key, e: Neigh) {
    exists p :: 0 <= p < NEIGH_MAX && t[p] == e && Matches(e, key)
  }

  lemma {:induction false} FindReaches(t: Table, key: Key, d: nat, c: nat)
    requires c <= d < NEIGH_MAX && Chain(t, key, d) && Matches(t[Pos(key, d)], key)
    ensures Find(t, key, c) >= 0
    decreases d - c
  {
    if c < d && t[Pos(key, c)].key != key { FindReaches(t, key, d, c + 1); }
  }

  /** A lookup finds exactly the entry that the table holds for the key. */
  lemma FindIff(t: Table, key: Key, e: Neigh)
    requires Valid(t)
    ensures Holds(t, key, e) <==> Find(t, key, 0) >= 0 && t[Find(t, key, 0)] == e
  {
    if Holds(t, key, e) {
      var p :| 0 <= p < NEIGH_MAX && t[p] == e && Matches(e, key);
      assert Placed(t, p);
      var d :| 0 <= d < NEIGH_MAX && Pos(t[p].key, d) == p && Chain(t, t[p].key, d);
      FindReaches(t, key, d, 0);
      var r := Find(t, key, 0);
      assert r == p;
    }
  }

  /** How the target of a write was reached. */
  lemma {:induction false} TargetChain(t: Table, key: Key, c: nat) returns (d: nat)
    requires c <= NEIGH_MAX && Chain(t, key, c)
    ensures c <= d <= NEIGH_MAX && Chain(t, key, d) && Target(t, key, c) == Pos(key, d)
    ensures d < NEIGH_MAX ==> !t[Pos(key, d)].inUse || t[Pos(key, d)].key == key
    ensures forall b :: c <= b < d ==> t[Pos(key, b)].key != key
    decreases NEIGH_MAX - c
  {
    if c == NEIGH_MAX || !t[Pos(key, c)].inUse || t[Pos(key, c)].key == key {
      d := c;
      PosStep(key, 0);
    } else {
      d := TargetChain(t, key, c + 1);
    }
  }

  /** Only a full table gives up a slot that another key uses, and then the home slot. */
  lemma TargetFull(t: Table, key: Key)
    requires Valid(t)
    ensures var p := Target(t, key, 0); t[p].inUse && t[p].key != key ==> Full(t) && p == Home(key)
    ensures forall q :: 0 <= q < NEIGH_MAX && Matches(t[q], key) ==> q == Target(t, key, 0)
  {
    var d := TargetChain(t, key, 0);
    PosStep(key, 0);
    if d == NEIGH_MAX {
      forall q | 0 <= q < NEIGH_MAX ensures t[q].inUse && t[q].key != key {
        var b := PosCovers(key, q);
      }
    } else {
      forall q | 0 <= q < NEIGH_MAX && Matches(t[q], key) ensures q == Target(t, key, 0) {
        assert Placed(t, q);
        var b :| 0 <= b < NEIGH_MAX && Pos(t[q].key, b) == q && Chain(t, t[q].key, b);
        assert b >= d;
      }
    }
  }

  /** Writing an entry keeps keys unique and chains unbroken. */
  lemma StoreValid(t: Table, e: Neigh)
    requires Valid(t) && e.inUse
    ensures Valid(Store(t, e))
  {
    var p := Target(t, e.key, 0);
    var r := Store(t, e);
    TargetFull(t, e.key);
    var d := TargetChain(t, e.key, 0);
    forall q | 0 <= q < NEIGH_MAX && r[q].inUse ensures Placed(r, q) {
      if q == p {
        if d == NEIGH_MAX { PosStep(e.key, 0); assert Chain(r, e.key, 0); }
        else { assert Chain(r, e.key, d); }
      } else {
        assert Placed(t, q);
        var b :| 0 <= b < NEIGH_MAX && Pos(t[q].key, b) == q && Chain(t, t[q].key, b);
        assert Chain(r, r[q].key, b);
      }
    }
  }

  /** What a write means: the key now has the new entry; every other key keeps its own,
      except that a full table without the key gives up the one in the key's home slot. */
  lemma StoreMeans(t: Table, e: Neigh, key: Key, x: Neigh)
    requires Valid(t) && e.inUse
    ensures
      Holds(Store(t, e), key, x) <==>
        if key == e.key then x == e
        else Holds(t, key, x) && !(Full(t) && Find(t, e.key, 0) < 0 && t[Home(e.key)].key == key)
  {
    var p := Target(t, e.key, 0);
    var r := Store(t, e);
    StoreValid(t, e);
    TargetFull(t, e.key);
    if key == e.key {
      assert r[p] == e;
      if Holds(r, key, x) {
        var q :| 0 <= q < NEIGH_MAX && r[q] == x && Matches(x, key);
      }
    } else {
      Displaced(t, e.key);
      if Holds(r, key, x) {
        var q :| 0 <= q < NEIGH_MAX && r[q] == x && Matches(x, key);
        assert q != p && t[q] == x;
      }
      if Holds(t, key, x) && t[p] != x {
        var q :| 0 <= q < NEIGH_MAX && t[q] == x && Matches(x, key);
        assert r[q] == x;
      }
    }
  }

  /** A slot of another key is overwritten exactly when the table is full and lacks the key. */
  lemma Displaced(t: Table, key: Key)
    requires Valid(t)
    ensures var p := Target(t, key, 0); t[p].inUse && t[p].key != key <==> Full(t) && Find(t, key, 0) < 0
    ensures Full(t) && Find(t, key, 0) < 0 ==> Target(t, key, 0) == Home(key)
  {
    TargetFull(t, key);
    var p := Target(t, key, 0);
    var f := Find(t, key, 0);
    if f < 0 && Full(t) {
      if t[p].key == key { FindIff(t, key, t[p]); assert Holds(t, key, t[p]); }
    }
  }

  lemma EditValid(t: Table, p: nat, e: Neigh)
    requires Valid(t) && p < NEIGH_MAX && t[p].inUse && e.inUse && e.key == t[p].key
    ensures Valid(t[p := e])
  {
    var r: Table := t[p := e];
    forall q | 0 <= q < NEIGH_MAX && r[q].inUse ensures Placed(r, q) {
      assert Placed(t, q);
      var b :| 0 <= b < NEIGH_MAX && Pos(t[q].key, b) == q && Chain(t, t[q].key, b);
      assert Chain(r, r[q].key, b);
    }
  }

  // ----- every run

  datatype Op =
    | Learns(key: Key, mac: seq<nat>, now: nat)
    | Looks(key: Key, now: nat, hz: nat)
    | Asks(key: Key, now: nat, hz: nat, sendable: bool)

  function Do(t: Table, op: Op): Table {
    match op
    case Learns(key, mac, now) => Update(t, key, mac, now)
    case Looks(key, now, hz) => Look(t, key, now, hz)
    case Asks(key, now, hz, sendable) => Request(t, key, now, hz, sendable)
  }

  lemma LookValid(t: Table, key: Key, now: nat, hz: nat)
    requires Valid(t)
    ensures Valid(Look(t, key, now, hz)) && Find(Look(t, key, now, hz), key, 0) == Find(t, key, 0)
  {
    var p := Find(t, key, 0);
    if p >= 0 {
      EditValid(t, p, Aged(t[p], now, hz));
      var r := Look(t, key, now, hz);
      FindIff(r, key, r[p]);
      assert Holds(r, key, r[p]);
    }
  }

  lemma DoValid(t: Table, op: Op)
    requires Valid(t)
    ensures Valid(Do(t, op))
  {
    match op
    case Learns(key, mac, now) => StoreValid(t, Neigh(true, key, mac, now, Reachable));
    case Looks(key, now, hz) => LookValid(t, key, now, hz);
    case Asks(key, now, hz, sendable) =>
      LookValid(t, key, now, hz);
      var t1 := Look(t, key, now, hz);
      var p := Find(t, key, 0);
      if p >= 0 { EditValid(t1, p, Asked(t1[p], now)); }
      else { StoreValid(t1, Neigh(true, key, ZERO_MAC, now, Incomplete)); }
  }

  function Run(t: Table, ops: seq<Op>): Table
    decreases |ops|
  {
    if ops == [] then t else Run(Do(t, ops[0]), ops[1..])
  }

  function Start(): Table { seq(64, _ => ZERO_NEIGH) }

  lemma StartValid()
    ensures Valid(Start())
  {}

  lemma {:induction false} RunValid(t: Table, ops: seq<Op>)
    requires Valid(t)
    ensures Valid(Run(t, ops))
    decreases |ops|
  {
    if ops != [] {
      DoValid(t, ops[0]);
      RunValid(Do(t, ops[0]), ops[1..]);
    }
  }

  /** After any run, learning an address makes it the one that is found. */
  lemma LearnedIsFound(ops: seq<Op>, key: Key, mac: seq<nat>, now: nat)
    ensures
      var t := Update(Run(Start(), ops), key, mac, now);
      Find(t, key, 0) >= 0 && t[Find(t, key, 0)] == Neigh(true, key, mac, now, Reachable)
  {
    StartValid();
    RunValid(Start(), ops);
    var t := Run(Start(), ops);
    var e := Neigh(true, key, mac, now, Reachable);
    StoreValid(t, e);
    StoreMeans(t, e, key, e);
    FindIff(Store(t, e), key, e);
  }

  /** After any run, a key disappears only when another one is stored into a full table,
      and only if it sat in that key's home slot. */
  lemma LostOnlyWhenFull(ops: seq<Op>, op: Op, key: Key)
    requires var t := Run(Start(), ops); Find(t, key, 0) >= 0 && Find(Do(t, op), key, 0) < 0
    ensures var t := Run(Start(), ops); !op.Looks? && Full(t) && Find(t, op.key, 0) < 0 && t[Home(op.key)].key == key
  {
    hide Valid, Run, Find, Target, Full, Home;
    StartValid();
    RunValid(Start(), ops);
    var t := Run(Start(), ops);
    var x := t[Find(t, key, 0)];
    FindIff(t, key, x);
    DoValid(t, op);
    var r := Do(t, op);
    if op.Looks? || (op.Asks? && Find(t, op.key, 0) >= 0) {
      var y := r[Find(t, key, 0)];
      assert Holds(r, key, y);
      FindIff(r, key, y);
    } else if op.Learns? || op.sendable {
      var e :=
        if op.Learns? then Neigh(true, op.key, op.mac, op.now, Reachable)
        else Neigh(true, op.key, ZERO_MAC, op.now, Incomplete);
      var y := if key == op.key then e else x;
      StoreMeans(t, e, key, y);
      FindIff(r, key, y);
    }
  }

  // ----- what becomes of an entry

  /** A lookup keeps every entry, but for marking the one it finds as stale when it was reachable
      and more than 300 seconds went by since it was learned. */
  lemma LookMeans(t: Table, key: Key, now: nat, hz: nat, k: Key, x: Neigh)
    requires Valid(t) && Holds(t, k, x)
    ensures
      var timedOut := k == key && x.state == Reachable && hz > 0 && Since(x.stamp, now) > 300 * hz;
      Holds(Look(t, key, now, hz), k, if timedOut then x.(state := Stale) else x)
  {
    hide Valid, Find;
    var p :| 0 <= p < NEIGH_MAX && t[p] == x && Matches(x, k);
    var r := Look(t, key, now, hz);
    if k == key {
      FindIff(t, key, x);
      var q := Find(t, key, 0);
      assert r[q] == Aged(x, now, hz);
    } else {
      assert r[p] == x;
    }
  }

  /** A request for a key that has no entry makes one, incomplete, without an address, asked for
      now; it repeats itself only after a second; a known address is kept while it is asked for
      again, and an address that is still good is not asked for at all. */
  lemma RequestMeans(t: Table, key: Key, now: nat, hz: nat)
    requires Valid(t)
    ensures (forall x :: !Holds(t, key, x)) ==>
      Holds(Request(t, key, now, hz, true), key, Neigh(true, key, ZERO_MAC, now, Incomplete))
    ensures forall x :: Holds(t, key, x) && x.state == Incomplete && hz > 0 && Since(x.stamp, now) < hz ==>
      Request(t, key, now, hz, true) == t
    ensures forall x :: Holds(t, key, x) && Pending(x, now, hz) ==>
      Holds(Request(t, key, now, hz, true), key, x.(state := Incomplete, stamp := now))
    ensures forall x :: Holds(t, key, x) && x.state == Reachable && !Aged(x, now, hz).state.Stale? ==>
      Request(t, key, now, hz, true) == t
    ensures Request(t, key, now, hz, false) == Look(t, key, now, hz)
  {
    hide Valid;
    var f := Find(t, key, 0);
    if f < 0 {
      forall x ensures !Holds(t, key, x) { FindIff(t, key, x); }
      var e := Neigh(true, key, ZERO_MAC, now, Incomplete);
      StoreMeans(t, e, key, e);
    } else {
      var y := t[f];
      FindIff(t, key, y);
      forall x | Holds(t, key, x) ensures x == y { FindIff(t, key, x); }
      var r := Request(t, key, now, hz, true);
      assert r[f] == t[f] ==> r == t;
      assert Matches(r[f], key) ==> Holds(r, key, r[f]);
    }
  }

  /** An entry to be asked for again: timed out, or asked for a second ago or more. */
  predicate Pending(x: Neigh, now: nat, hz: nat) {
    || x.state == Stale
    || (x.state == Reachable && hz > 0 && Since(x.stamp, now) > 300 * hz)
    || (x.state == Incomplete && !(hz > 0 && Since(x.stamp, now) < hz))
  }

  /** After a request went out, another one within a second does nothing. */
  lemma AskedOncePerSecond(t: Table, key: Key, now: nat, later: nat, hz: nat, sendable: bool)
    requires Valid(t) && now <= later < now + hz && hz < U64
    requires forall x :: Holds(t, key, x) ==> Pending(x, now, hz)
    ensures var r := Request(t, key, now, hz, true); Request(r, key, later, hz, sendable) == r
  {
    hide Valid, Find;
    var r := Request(t, key, now, hz, true);
    DoValid(t, Asks(key, now, hz, true));
    RequestMeans(t, key, now, hz);
    if x :| Holds(t, key, x) {
      JustAsked(r, key, x.(state := Incomplete, stamp := now), later, hz, sendable);
    } else {
      JustAsked(r, key, Neigh(true, key, ZERO_MAC, now, Incomplete), later, hz, sendable);
    }
  }

  lemma JustAsked(r: Table, key: Key, x: Neigh, later: nat, hz: nat, sendable: bool)
    requires Valid(r) && Holds(r, key, x) && x.state == Incomplete && x.stamp <= later < x.stamp + hz && hz < U64
    ensures Request(r, key, later, hz, sendable) == r
  {
    hide Valid, Find;
    FindIff(r, key, x);
    var f := Find(r, key, 0);
    assert Look(r, key, later, hz) == r by { assert r[f := r[f]] == r; }
  }

  // ----- in place

  class NeighTable {
    const tbl: array<Neigh>

    ghost predicate Shaped() { tbl.Length == NEIGH_MAX }

    ghost function Value(): Table
      requires Shaped()
      reads tbl
    {
      tbl[..]
    }

    constructor ()
      ensures Shaped() && fresh(tbl) && Value() == Start()
    {
      tbl := new Neigh[NEIGH_MAX](_ => ZERO_NEIGH);
    }

    /** neigh_lookup: the slot of the key or -1; a timed-out entry is marked stale. */
    method Lookup(key: Key, now: nat, hz: nat) returns (r: int)
      requires Shaped()
      modifies tbl
      ensures r == Find(old(Value()), key, 0) && Value() == Look(old(Value()), key, now, hz)
    {
      hide Pos, Home;
      var start := Home(key);
      var idx := start;
      ghost var d := 0;
      PosStep(key, 0);
      while true
        invariant d < NEIGH_MAX && idx == Pos(key, d) && Value() == old(Value())
        invariant Find(Value(), key, 0) == Find(Value(), key, d)
        decreases NEIGH_MAX - d
      {
        if !tbl[idx].inUse { return -1; }
        if tbl[idx].key == key {
          if tbl[idx].state.Reachable? && hz > 0 && Since(tbl[idx].stamp, now) > TIMEOUT_SEC * hz {
            tbl[idx] := tbl[idx].(state := Stale);
          }
          return idx;
        }
        idx := (idx + 1) % NEIGH_MAX;
        d := d + 1;
        PosStep(key, d - 1);
        PosStep(key, d);
        if idx == start { return -1; }
      }
    }

    /** neigh_update. */
    method Learn(key: Key, mac: seq<nat>, now: nat)
      requires Shaped()
      modifies tbl
      ensures Value() == Update(old(Value()), key, mac, now)
    {
      hide Pos, Home;
      var start := Home(key);
      var idx := start;
      ghost var d := 0;
      PosStep(key, 0);
      while true
        invariant d < NEIGH_MAX && idx == Pos(key, d) && Value() == old(Value())
        invariant Target(Value(), key, 0) == Target(Value(), key, d)
        decreases NEIGH_MAX - d
      {
        if !tbl[idx].inUse { break; }
        if tbl[idx].key == key {
          tbl[idx] := tbl[idx].(mac := mac, stamp := now, state := Reachable);
          return;
        }
        idx := (idx + 1) % NEIGH_MAX;
        d := d + 1;
        PosStep(key, d - 1);
        PosStep(key, d);
        if idx == start { break; }
      }
      tbl[idx] := Neigh(true, key, mac, now, Reachable);
    }

    /** The part of send_arp_request that touches the table. */
    method Ask(key: Key, now: nat, hz: nat, sendable: bool)
      requires Shaped()
      modifies tbl
      ensures Value() == Request(old(Value()), key, now, hz, sendable)
    {
      var e := Lookup(key, now, hz);
      if e >= 0 && tbl[e].state.Incomplete? && hz > 0 && Since(tbl[e].stamp, now) < RETRY_SEC * hz { return; }
      if !sendable { return; }
      if e >= 0 {
        if tbl[e].state.Stale? || tbl[e].state.Incomplete? {
          tbl[e] := tbl[e].(state := Incomplete, stamp := now);
        }
        return;
      }
      InsertIncomplete(key, now);
    }

    /** The first unused slot, or the home slot of a full table, starts to wait for a reply. */
    method InsertIncomplete(key: Key, now: nat)
      requires Shaped() && Find(Value(), key, 0) < 0
      modifies tbl
      ensures Value() == Store(old(Value()), Neigh(true, key, ZERO_MAC, now, Incomplete))
    {
      hide Pos, Home;
      var start := Home(key);
      var idx := start;
      ghost var d := 0;
      PosStep(key, 0);
      while tbl[idx].inUse
        invariant d < NEIGH_MAX && idx == Pos(key, d) && Value() == old(Value())
        invariant Target(Value(), key, 0) == Target(Value(), key, d) && Find(Value(), key, d) < 0
        decreases NEIGH_MAX - d
      {
        idx := (idx + 1) % NEIGH_MAX;
        d := d + 1;
        PosStep(key, d - 1);
        PosStep(key, d);
        if idx == start { break; }
      }
      tbl[idx] := Neigh(true, key, ZERO_MAC, now, Incomplete);
    }
  }
}
