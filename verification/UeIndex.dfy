/** The table of UEs and the linear-probing hash over it (5gc/upf_u/upf_u_trtcm.c:246-256,
    446-474, 611-688): addresses to rows, added one at a time, removed by rebuilding the hash. */
module UeIndex {
  import opened Common
  import opened TokenBucket
  import opened Rates
  import opened BucketState

  type Row = i: nat | i < MAX_UE

  datatype Slot = Slot(inUse: bool, ip: nat, idx: Row)

  datatype Index = Index(hash: seq<Slot>, table: seq<UeTb>)

  predicate Shaped(x: Index) { |x.hash| == MAX_UE && |x.table| == MAX_UE }

  /** The k-th slot of the probe sequence of an address. */
  function Pos(ip: nat, k: nat): (p: nat)
    ensures p < MAX_UE
  {
    (ip % MAX_UE + k) % MAX_UE
  }

  /** The next probe is one slot on, and the first MAX_UE probes meet every slot once. */
  lemma PosStep(ip: nat, k: nat)
    ensures Pos(ip, k + 1) == (Pos(ip, k) + 1) % MAX_UE
    ensures Pos(ip, 0) == ip % MAX_UE
    ensures 0 < k < MAX_UE ==> Pos(ip, k) != Pos(ip, 0)
    ensures Pos(ip, MAX_UE) == Pos(ip, 0)
  {}

  lemma PosCovers(ip: nat, p: nat) returns (k: nat)
    requires p < MAX_UE
    ensures k < MAX_UE && Pos(ip, k) == p
  {
    k := (p + MAX_UE - ip % MAX_UE) % MAX_UE;
  }

  // ----- operations

  /** ueHashSearch from the k-th probe on. */
  function Search(hash: seq<Slot>, ip: nat, k: nat): (r: int)
    requires |hash| == MAX_UE && k <= MAX_UE
    ensures -1 <= r < MAX_UE
    decreases MAX_UE - k
  {
    if k == MAX_UE || !hash[Pos(ip, k)].inUse then -1
    else if hash[Pos(ip, k)].ip == ip then hash[Pos(ip, k)].idx
    else Search(hash, ip, k + 1)
  }

  /** The first unused slot from the k-th probe on. */
  function Vacant(hash: seq<Slot>, ip: nat, k: nat): (r: int)
    requires |hash| == MAX_UE && k <= MAX_UE
    ensures -1 <= r < MAX_UE
    decreases MAX_UE - k
  {
    if k == MAX_UE then -1
    else if !hash[Pos(ip, k)].inUse then Pos(ip, k)
    else Vacant(hash, ip, k + 1)
  }

  datatype Inserted = Inserted(hash: seq<Slot>, ok: bool)

  function Insert(hash: seq<Slot>, ip: nat, idx: Row): (r: Inserted)
    requires |hash| == MAX_UE
    ensures |r.hash| == MAX_UE
  {
    if Search(hash, ip, 0) >= 0 then Inserted(hash, false)
    else
      var p := Vacant(hash, ip, 0);
      if p < 0 then Inserted(hash, false) else Inserted(hash[p := Slot(true, ip, idx)], true)
  }

  /** The first row from i on that no UE uses. */
  function FreeRow(table: seq<UeTb>, i: nat): (r: int)
    requires i <= |table|
    ensures -1 <= r < |table| && (r >= 0 ==> i <= r && table[r].ueIp == 0)
    ensures r < 0 ==> forall j :: i <= j < |table| ==> table[j].ueIp != 0
    decreases |table| - i
  {
    if i == |table| then -1 else if table[i].ueIp == 0 then i else FreeRow(table, i + 1)
  }

  datatype Added = Added(x: Index, idx: int)

  /** addEntrybyUeIp: an address that is present only has its Session-AMBR refreshed. */
  function Add(x: Index, ip: nat, rate: nat, conflict: bool, now: nat): (r: Added)
    requires Shaped(x)
    ensures Shaped(r.x)
  {
    var i := Search(x.hash, ip, 0);
    if i >= 0 then Added(x.(table := x.table[i := RefreshAmbr(x.table[i], rate, conflict, now).tb]), i)
    else
      var j := FreeRow(x.table, 0);
      if j < 0 then Added(x, -1)
      else
        var h := Insert(x.hash, ip, j);
        if h.ok then Added(Index(h.hash, x.table[j := NewUe(ip, rate, conflict, now)]), j)
        else Added(Index(h.hash, x.table[j := ZeroUe()]), Search(h.hash, ip, 0))
  }

  function Unused(hash: seq<Slot>): (r: seq<Slot>)
    ensures |r| == |hash|
  {
    seq(|hash|, p requires 0 <= p < |hash| => hash[p].(inUse := false))
  }

  /** The hash after the first j rows have been put back. */
  function Rebuilt(hash: seq<Slot>, table: seq<UeTb>, j: nat): (r: seq<Slot>)
    requires |hash| == MAX_UE && j <= |table| == MAX_UE
    ensures |r| == MAX_UE
  {
    if j == 0 then Unused(hash)
    else
      var h := Rebuilt(hash, table, j - 1);
      if table[j - 1].ueIp == 0 then h else Insert(h, table[j - 1].ueIp, j - 1).hash
  }

  datatype Removed = Removed(x: Index, ok: bool)

  function Remove(x: Index, ip: nat): (r: Removed)
    requires Shaped(x)
    ensures Shaped(r.x)
  {
    var i := Search(x.hash, ip, 0);
    if i < 0 then Removed(x, false)
    else
      var t := x.table[i := ZeroUe()];
      Removed(Index(Rebuilt(x.hash, t, MAX_UE), t), true)
  }

  // ----- agreement of hash and table

  /** A slot holds row i's address, and every probe before it meets a slot in use. */
  ghost predicate PlacedAt(hash: seq<Slot>, ip: nat, i: Row, d: nat)
    requires |hash| == MAX_UE
  {
    d < MAX_UE && hash[Pos(ip, d)] == Slot(true, ip, i) && forall k :: 0 <= k < d ==> hash[Pos(ip, k)].inUse
  }

  ghost predicate Placed(hash: seq<Slot>, ip: nat, i: Row)
    requires |hash| == MAX_UE
  {
    exists d :: PlacedAt(hash, ip, i, d)
  }

  ghost predicate SlotOk(s: Slot, table: seq<UeTb>)
    requires |table| == MAX_UE
  {
    s.inUse ==> table[s.idx].ueIp == s.ip && s.ip != 0
  }

  /** The hash indexes exactly the rows in use. */
  ghost predicate Indexes(hash: seq<Slot>, table: seq<UeTb>)
    requires |hash| == MAX_UE == |table|
  {
    && (forall p :: 0 <= p < MAX_UE ==> SlotOk(hash[p], table))
    && (forall p, q :: 0 <= p < q < MAX_UE && hash[p].inUse && hash[q].inUse ==> hash[p].idx != hash[q].idx)
    && (forall i :: 0 <= i < MAX_UE && table[i].ueIp != 0 ==> Placed(hash, table[i].ueIp, i))
  }

  ghost predicate AddressesUnique(table: seq<UeTb>) {
    forall i, j :: 0 <= i < j < |table| && table[i].ueIp != 0 ==> table[i].ueIp != table[j].ueIp
  }

  ghost predicate Agrees(x: Index) {
    Shaped(x) && AddressesUnique(x.table) && Indexes(x.hash, x.table)
  }

  /** A search that finds something found an entry with the address. */
  lemma {:induction false} SearchFound(hash: seq<Slot>, ip: nat, k: nat)
    requires |hash| == MAX_UE && k <= MAX_UE && Search(hash, ip, k) >= 0
    ensures exists p :: 0 <= p < MAX_UE && hash[p] == Slot(true, ip, Search(hash, ip, k))
    decreases MAX_UE - k
  {
    if hash[Pos(ip, k)].ip != ip { SearchFound(hash, ip, k + 1); }
    else { assert hash[Pos(ip, k)] == Slot(true, ip, Search(hash, ip, k)); }
  }

  /** Along an unbroken chain, the search finds an entry with the address. */
  lemma {:induction false} SearchReaches(hash: seq<Slot>, ip: nat, i: Row, d: nat, k: nat)
    requires |hash| == MAX_UE && PlacedAt(hash, ip, i, d) && k <= d
    ensures Search(hash, ip, k) >= 0
    decreases d - k
  {
    if k < d && hash[Pos(ip, k)].ip != ip { SearchReaches(hash, ip, i, d, k + 1); }
  }

  /** A nonzero address is found at row i exactly when row i holds it. */
  lemma SearchIff(x: Index, ip: nat, i: nat)
    requires Agrees(x) && ip != 0 && i < MAX_UE
    ensures Search(x.hash, ip, 0) == i <==> x.table[i].ueIp == ip
  {
    var r := Search(x.hash, ip, 0);
    if r >= 0 {
      SearchFound(x.hash, ip, 0);
      var p :| 0 <= p < MAX_UE && x.hash[p] == Slot(true, ip, r);
      assert SlotOk(x.hash[p], x.table);
    }
    if x.table[i].ueIp == ip {
      var d :| PlacedAt(x.hash, ip, i, d);
      SearchReaches(x.hash, ip, i, d, 0);
    }
  }

  /** What a search finds is a row in use. */
  lemma SearchHit(x: Index, ip: nat)
    requires Agrees(x) && Search(x.hash, ip, 0) >= 0
    ensures ip != 0 && x.table[Search(x.hash, ip, 0)].ueIp == ip
  {
    SearchFound(x.hash, ip, 0);
    var p :| 0 <= p < MAX_UE && x.hash[p] == Slot(true, ip, Search(x.hash, ip, 0));
    assert SlotOk(x.hash[p], x.table);
  }

  // ----- insertion cannot fail while a row is free

  /** `n` different naturals below `m` leave out some number below `m` only if n < m. */
  lemma {:induction false} Pigeonhole(q: seq<nat>, m: nat, hole: nat)
    requires hole < m && (forall i :: 0 <= i < |q| ==> q[i] < m && q[i] != hole)
    requires forall i, j :: 0 <= i < j < |q| ==> q[i] != q[j]
    ensures |q| < m
  {
    BelowFacts(m);
    assert |Below(m) - {hole}| == m - 1;
    NoDupSize(q, Below(m) - {hole});
  }

  function Below(m: nat): set<nat> { if m == 0 then {} else Below(m - 1) + {m - 1} }

  lemma {:induction false} BelowFacts(m: nat)
    ensures |Below(m)| == m && forall i: nat :: i in Below(m) <==> i < m
  {
    if m > 0 { BelowFacts(m - 1); }
  }

  lemma {:induction false} NoDupSize(q: seq<nat>, d: set<nat>)
    requires (forall i :: 0 <= i < |q| ==> q[i] in d) && (forall i, j :: 0 <= i < j < |q| ==> q[i] != q[j])
    ensures |q| <= |d|
    decreases |q|
  {
    if q != [] {
      NoDupSize(q[1..], d - {q[0]});
    }
  }

  /** No vacant slot is found only if every slot is in use. */
  lemma {:induction false} VacantNone(hash: seq<Slot>, ip: nat, k: nat, d: nat)
    requires |hash| == MAX_UE && k <= d < MAX_UE && Vacant(hash, ip, k) == -1
    ensures hash[Pos(ip, d)].inUse
    decreases d - k
  {
    if k < d { VacantNone(hash, ip, k + 1, d); }
  }

  /** The vacant slot lies at the end of an unbroken chain. */
  lemma {:induction false} VacantChain(hash: seq<Slot>, ip: nat, k: nat) returns (d: nat)
    requires |hash| == MAX_UE && k <= MAX_UE && Vacant(hash, ip, k) >= 0
    ensures k <= d < MAX_UE && Vacant(hash, ip, k) == Pos(ip, d) && !hash[Pos(ip, d)].inUse
    ensures forall j :: k <= j < d ==> hash[Pos(ip, j)].inUse
    decreases MAX_UE - k
  {
    if !hash[Pos(ip, k)].inUse { d := k; } else { d := VacantChain(hash, ip, k + 1); }
  }

  /** While a row is free, so is a slot, and every probe sequence meets it. */
  lemma VacantExists(x: Index, ip: nat, hole: nat)
    requires Agrees(x) && hole < MAX_UE && x.table[hole].ueIp == 0
    ensures Vacant(x.hash, ip, 0) >= 0
  {
    hide Pos, Vacant, Placed;
    if Vacant(x.hash, ip, 0) < 0 {
      var q := seq(MAX_UE, p requires 0 <= p < MAX_UE => x.hash[p].idx);
      forall p | 0 <= p < MAX_UE ensures x.hash[p].inUse && q[p] < MAX_UE && q[p] != hole {
        var d := PosCovers(ip, p);
        VacantNone(x.hash, ip, 0, d);
        assert SlotOk(x.hash[p], x.table);
      }
      Pigeonhole(q, MAX_UE, hole);
    }
  }

  /** Filling an unused slot breaks no chain. */
  lemma PlacedStays(hash: seq<Slot>, p: nat, s: Slot, ip: nat, i: Row)
    requires |hash| == MAX_UE && p < MAX_UE && !hash[p].inUse && s.inUse && Placed(hash, ip, i)
    ensures Placed(hash[p := s], ip, i)
  {
    var d :| PlacedAt(hash, ip, i, d);
    assert PlacedAt(hash[p := s], ip, i, d);
  }

  /** Indexing one more row always succeeds. */
  lemma InsertAgrees(x: Index, j: nat, row: UeTb)
    requires Agrees(x) && j < MAX_UE && x.table[j].ueIp == 0 && row.ueIp != 0
    requires forall i :: 0 <= i < MAX_UE ==> x.table[i].ueIp != row.ueIp
    ensures var r := Insert(x.hash, row.ueIp, j); r.ok && Agrees(Index(r.hash, x.table[j := row]))
  {
    var ip, table := row.ueIp, x.table[j := row];
    if Search(x.hash, ip, 0) >= 0 { SearchHit(x, ip); }
    VacantExists(x, ip, j);
    var d := VacantChain(x.hash, ip, 0);
    var s := Slot(true, ip, j);
    var h := x.hash[Pos(ip, d) := s];
    assert PlacedAt(h, ip, j, d);
    forall i | 0 <= i < MAX_UE && table[i].ueIp != 0 ensures Placed(h, table[i].ueIp, i) {
      if i != j { PlacedStays(x.hash, Pos(ip, d), s, table[i].ueIp, i); }
    }
    forall p | 0 <= p < MAX_UE ensures SlotOk(h[p], table) {
      assert SlotOk(x.hash[p], x.table);
    }
    forall p, q | 0 <= p < q < MAX_UE && h[p].inUse && h[q].inUse ensures h[p].idx != h[q].idx {
      assert SlotOk(x.hash[p], x.table) && SlotOk(x.hash[q], x.table);
    }
  }

  // ----- rebuilding

  /** The table as far as row j, with no UE from there on. */
  ghost function UpTo(table: seq<UeTb>, j: nat): (r: seq<UeTb>)
    requires j <= |table|
    ensures |r| == |table| && forall i :: 0 <= i < |table| ==> r[i] == if i < j then table[i] else ZeroUe()
  {
    seq(|table|, i requires 0 <= i < |table| => if i < j then table[i] else ZeroUe())
  }

  lemma UpToStep(table: seq<UeTb>, j: nat)
    requires 0 < j <= |table| == MAX_UE && AddressesUnique(table)
    ensures AddressesUnique(UpTo(table, j))
    ensures UpTo(table, j) == UpTo(table, j - 1)[j - 1 := table[j - 1]] && UpTo(table, j - 1)[j - 1].ueIp == 0
    ensures
      var t := UpTo(table, j - 1);
      table[j - 1].ueIp != 0 ==> forall i :: 0 <= i < MAX_UE ==> t[i].ueIp != table[j - 1].ueIp
  {}

  lemma RowChanges(x: Index, j: nat, row: UeTb)
    requires Agrees(x) && j < MAX_UE && row.ueIp == x.table[j].ueIp
    ensures Agrees(x.(table := x.table[j := row]))
  {
    var t := x.table[j := row];
    forall p | 0 <= p < MAX_UE ensures SlotOk(x.hash[p], t) { assert SlotOk(x.hash[p], x.table); }
  }

  lemma UnusedAgrees(hash: seq<Slot>, table: seq<UeTb>)
    requires |hash| == MAX_UE == |table|
    ensures Agrees(Index(Unused(hash), UpTo(table, 0)))
  {
    forall p | 0 <= p < MAX_UE ensures SlotOk(Unused(hash)[p], UpTo(table, 0)) {}
  }

  /** Rebuilding indexes every row, whatever the hash held before. */
  lemma {:induction false} RebuiltAgrees(hash: seq<Slot>, table: seq<UeTb>, j: nat)
    requires |hash| == MAX_UE == |table| && j <= MAX_UE && AddressesUnique(table)
    ensures Agrees(Index(Rebuilt(hash, table, j), UpTo(table, j)))
  {
    hide Indexes, UpTo, Unused, Insert, AddressesUnique;
    if j == 0 {
      UnusedAgrees(hash, table);
    } else {
      RebuiltAgrees(hash, table, j - 1);
      UpToStep(table, j);
      var x := Index(Rebuilt(hash, table, j - 1), UpTo(table, j - 1));
      if table[j - 1].ueIp == 0 { RowChanges(x, j - 1, table[j - 1]); }
      else { InsertAgrees(x, j - 1, table[j - 1]); }
    }
  }

  /** Each row that a rebuild puts back finds a slot. */
  lemma RebuildNeverFails(hash: seq<Slot>, table: seq<UeTb>, j: nat)
    requires |hash| == MAX_UE == |table| && j < MAX_UE && AddressesUnique(table) && table[j].ueIp != 0
    ensures Insert(Rebuilt(hash, table, j), table[j].ueIp, j).ok
  {
    hide Indexes, UpTo, Unused, Insert, Rebuilt;
    RebuiltAgrees(hash, table, j);
    UpToStep(table, j + 1);
    InsertAgrees(Index(Rebuilt(hash, table, j), UpTo(table, j)), j, table[j]);
  }

  // ----- adding and removing

  /** Adding keeps hash and table in agreement exactly when the address is not zero, or
      there is no room anyway. */
  lemma AddAgreesIff(x: Index, ip: nat, rate: nat, conflict: bool, now: nat)
    requires Agrees(x)
    ensures Agrees(Add(x, ip, rate, conflict, now).x) <==> ip != 0 || FreeRow(x.table, 0) < 0
  {
    hide Indexes, AddressesUnique, Insert, Search;
    var i := Search(x.hash, ip, 0);
    var j := FreeRow(x.table, 0);
    if i >= 0 {
      SearchHit(x, ip);
      RowChanges(x, i, RefreshAmbr(x.table[i], rate, conflict, now).tb);
    } else if j >= 0 && ip != 0 {
      forall k | 0 <= k < MAX_UE ensures x.table[k].ueIp != ip { SearchIff(x, ip, k); }
      InsertAgrees(x, j, NewUe(ip, rate, conflict, now));
    } else if j >= 0 {
      ZeroDisagrees(x, j, NewUe(ip, rate, conflict, now));
    }
  }

  /** Address zero gets a hash entry, but its row still reads as free. */
  lemma ZeroDisagrees(x: Index, j: nat, row: UeTb)
    requires Agrees(x) && j < MAX_UE && x.table[j].ueIp == 0 && row.ueIp == 0
    ensures var r := Insert(x.hash, 0, j); r.ok && !Agrees(Index(r.hash, x.table[j := row]))
  {
    if Search(x.hash, 0, 0) >= 0 { SearchHit(x, 0); }
    VacantExists(x, 0, j);
    var h := Insert(x.hash, 0, j).hash;
    assert !SlotOk(h[Vacant(x.hash, 0, 0)], x.table[j := row]);
  }

  /** What adding a nonzero address does: a row is found or given, and only it changes. */
  lemma AddSpec(x: Index, ip: nat, rate: nat, conflict: bool, now: nat)
    requires Agrees(x) && ip != 0
    ensures
      var r := Add(x, ip, rate, conflict, now);
      r.idx >= 0 ==> r.idx < MAX_UE && r.x.table == x.table[r.idx := r.x.table[r.idx]] && r.x.table[r.idx].ueIp == ip
    ensures
      var r := Add(x, ip, rate, conflict, now);
      r.idx < 0 <==> (forall i :: 0 <= i < MAX_UE ==> x.table[i].ueIp != 0 && x.table[i].ueIp != ip)
    ensures var r := Add(x, ip, rate, conflict, now); r.idx < 0 ==> r.x == x
    ensures forall i :: 0 <= i < MAX_UE && x.table[i].ueIp == ip ==> Add(x, ip, rate, conflict, now).idx == i
  {
    hide Indexes, AddressesUnique, Insert, Search;
    var i := Search(x.hash, ip, 0);
    var j := FreeRow(x.table, 0);
    forall k | 0 <= k < MAX_UE ensures x.table[k].ueIp == ip <==> i == k { SearchIff(x, ip, k); }
    if i >= 0 {
      SearchHit(x, ip);
    } else if j >= 0 {
      InsertAgrees(x, j, NewUe(ip, rate, conflict, now));
    }
  }

  lemma RemoveAgrees(x: Index, ip: nat)
    requires Agrees(x)
    ensures Agrees(Remove(x, ip).x)
  {
    hide Indexes, Search, UpTo, Rebuilt;
    var i := Search(x.hash, ip, 0);
    if i >= 0 {
      var t := x.table[i := ZeroUe()];
      assert AddressesUnique(t);
      RebuiltAgrees(x.hash, t, MAX_UE);
      UpToAll(t);
    }
  }

  lemma UpToAll(table: seq<UeTb>)
    ensures UpTo(table, |table|) == table
  {}

  /** What removing does: the row with the address, if any, is zeroed, and only it changes. */
  lemma RemoveSpec(x: Index, ip: nat)
    requires Agrees(x) && ip != 0
    ensures Remove(x, ip).ok <==> exists i :: 0 <= i < MAX_UE && x.table[i].ueIp == ip
    ensures forall i :: 0 <= i < MAX_UE ==>
      Remove(x, ip).x.table[i] == if x.table[i].ueIp == ip then ZeroUe() else x.table[i]
  {
    hide Indexes, AddressesUnique, Search, Rebuilt;
    forall k | 0 <= k < MAX_UE ensures x.table[k].ueIp == ip <==> Search(x.hash, ip, 0) == k { SearchIff(x, ip, k); }
    if Search(x.hash, ip, 0) >= 0 { SearchHit(x, ip); }
  }

  /** Two indexes over tables with an address in the same row find it alike. */
  lemma SearchByTable(x: Index, y: Index, ip: nat)
    requires Agrees(x) && Agrees(y)
    requires ip != 0 ==> forall k :: 0 <= k < MAX_UE ==> (x.table[k].ueIp == ip <==> y.table[k].ueIp == ip)
    ensures Search(x.hash, ip, 0) == Search(y.hash, ip, 0)
  {
    hide Indexes, AddressesUnique, Search;
    var i, j := Search(x.hash, ip, 0), Search(y.hash, ip, 0);
    if i >= 0 {
      SearchHit(x, ip);
      SearchIff(y, ip, i);
    }
    if j >= 0 {
      SearchHit(y, ip);
      SearchIff(x, ip, j);
    }
  }

  // ----- every run

  datatype Change = Adding(ip: nat, rate: nat, conflict: bool, now: nat) | Removing(ip: nat)

  function Start(hash: seq<Slot>): Index
    requires |hash| == MAX_UE
  {
    Index(Unused(hash), seq(MAX_UE, _ => ZeroUe()))
  }

  function Run(x: Index, changes: seq<Change>): (r: Index)
    requires Shaped(x)
    ensures Shaped(r)
    decreases |changes|
  {
    if changes == [] then x
    else
      var c := changes[0];
      Run(if c.Adding? then Add(x, c.ip, c.rate, c.conflict, c.now).x else Remove(x, c.ip).x, changes[1..])
  }

  lemma {:induction false} RunAgrees(x: Index, changes: seq<Change>)
    requires Agrees(x) && forall i :: 0 <= i < |changes| ==> changes[i].ip != 0
    ensures Agrees(Run(x, changes))
    decreases |changes|
  {
    hide Indexes, AddressesUnique, Add, Remove;
    if changes != [] {
      var c := changes[0];
      if c.Adding? {
        AddAgreesIff(x, c.ip, c.rate, c.conflict, c.now);
        RunAgrees(Add(x, c.ip, c.rate, c.conflict, c.now).x, changes[1..]);
      } else {
        RemoveAgrees(x, c.ip);
        RunAgrees(Remove(x, c.ip).x, changes[1..]);
      }
    }
  }

  /** After any additions and removals of nonzero addresses, a search returns i exactly when
      row i holds the address, and fails exactly when no row does. */
  lemma SearchIsExact(hash: seq<Slot>, changes: seq<Change>, ip: nat, i: nat)
    requires |hash| == MAX_UE && ip != 0 && i < MAX_UE && forall k :: 0 <= k < |changes| ==> changes[k].ip != 0
    ensures var x := Run(Start(hash), changes); Search(x.hash, ip, 0) == i <==> x.table[i].ueIp == ip
    ensures
      var x := Run(Start(hash), changes);
      Search(x.hash, ip, 0) == -1 <==> forall k :: 0 <= k < MAX_UE ==> x.table[k].ueIp != ip
  {
    hide Indexes, AddressesUnique, Run, Search;
    StartAgrees(hash);
    RunAgrees(Start(hash), changes);
    var x := Run(Start(hash), changes);
    forall k | 0 <= k < MAX_UE ensures Search(x.hash, ip, 0) == k <==> x.table[k].ueIp == ip { SearchIff(x, ip, k); }
    if Search(x.hash, ip, 0) >= 0 { SearchHit(x, ip); }
  }

  lemma StartAgrees(hash: seq<Slot>)
    requires |hash| == MAX_UE
    ensures Agrees(Start(hash))
  {
    var x := Start(hash);
    forall p | 0 <= p < MAX_UE ensures SlotOk(x.hash[p], x.table) {}
  }

  // ----- in place

  /** `ue_hash` and `ue_table`. */
  class UeTable {
    const hash: array<Slot>
    const rows: seq<UeRow>

    /** The hash and the rows of the table are separate objects, allocated once. */
    ghost predicate Valid() {
      hash.Length == MAX_UE == |rows| && forall i, j :: 0 <= i < j < MAX_UE ==> rows[i] != rows[j]
    }

    ghost function Table(): (t: seq<UeTb>)
      reads rows
      ensures |t| == |rows| && forall i :: 0 <= i < |rows| ==> t[i] == rows[i].tb
    {
      seq(|rows|, i requires 0 <= i < |rows| reads rows => rows[i].tb)
    }

    ghost function Value(): (x: Index)
      requires Valid()
      reads hash, rows
      ensures Shaped(x)
    {
      Index(hash[..], Table())
    }

    /** initUeTable and ueHashInit. */
    constructor ()
      ensures Valid() && fresh(hash) && (forall i :: 0 <= i < MAX_UE ==> fresh(rows[i]) && rows[i].tb == ZeroUe())
      ensures Agrees(Value()) && hash[..] == Unused(hash[..])
    {
      var made: seq<UeRow> := [];
      while |made| < MAX_UE
        invariant |made| <= MAX_UE && forall i :: 0 <= i < |made| ==> fresh(made[i]) && made[i].tb == ZeroUe()
        invariant forall i, j :: 0 <= i < j < |made| ==> made[i] != made[j]
      {
        var row := new UeRow();
        made := made + [row];
      }
      hash, rows := new Slot[MAX_UE](_ => Slot(false, 0, 0)), made;
      new;
      StartAgrees(hash[..]);
      assert hash[..] == Unused(hash[..]) && Table() == seq(MAX_UE, _ => ZeroUe());
    }

    method Find(ip: nat) returns (r: int)
      requires Valid()
      ensures r == Search(hash[..], ip, 0)
    {
      var idx := ip % MAX_UE;
      var start := idx;
      ghost var k := 0;
      PosStep(ip, 0);
      while hash[idx].inUse
        invariant k < MAX_UE && idx == Pos(ip, k) && start == Pos(ip, 0)
        invariant Search(hash[..], ip, 0) == Search(hash[..], ip, k)
        decreases MAX_UE - k
      {
        if hash[idx].ip == ip { return hash[idx].idx; }
        idx := (idx + 1) % MAX_UE;
        k := k + 1;
        PosStep(ip, k - 1);
        PosStep(ip, k);
        if idx == start { return -1; }
      }
      return -1;
    }

    method InsertAt(ip: nat, row: Row) returns (ok: bool)
      requires Valid()
      modifies hash
      ensures Inserted(hash[..], ok) == Insert(old(hash[..]), ip, row)
    {
      var found := Find(ip);
      if found >= 0 { return false; }
      var idx := ip % MAX_UE;
      var start := idx;
      ghost var k := 0;
      PosStep(ip, 0);
      while hash[idx].inUse
        invariant k < MAX_UE && idx == Pos(ip, k) && start == Pos(ip, 0) && hash[..] == old(hash[..])
        invariant Vacant(hash[..], ip, 0) == Vacant(hash[..], ip, k)
        decreases MAX_UE - k
      {
        idx := (idx + 1) % MAX_UE;
        k := k + 1;
        PosStep(ip, k - 1);
        PosStep(ip, k);
        if idx == start { return false; }
      }
      hash[idx] := Slot(true, ip, row);
      ok := true;
    }

    /** The row scan of addEntrybyUeIp. */
    method FindFreeRow() returns (r: int)
      requires Valid()
      ensures r == FreeRow(Table(), 0)
    {
      for i := 0 to MAX_UE
        invariant FreeRow(Table(), 0) == FreeRow(Table(), i)
      {
        if rows[i].tb.ueIp == 0 { return i; }
      }
      r := -1;
    }

    /** Writes a free row and indexes it; the row is cleared again if that fails. */
    method OpenRow(i: Row, ip: nat, rate: nat, conflict: bool, now: nat) returns (ok: bool)
      requires Valid()
      modifies hash, rows[i]
      ensures Inserted(hash[..], ok) == Insert(old(hash[..]), ip, i)
      ensures rows[i].tb == if ok then NewUe(ip, rate, conflict, now) else ZeroUe()
    {
      rows[i].Open(ip, rate, conflict, now);
      ok := InsertAt(ip, i);
      if !ok { rows[i].Clear(); }
    }

    /** Adding an address; the result is its row, or -1 when the table is full. */
    method AddUe(ip: nat, rate: nat, conflict: bool, now: nat) returns (idx: int)
      requires Valid()
      modifies hash, rows
      ensures Added(Value(), idx) == Add(old(Value()), ip, rate, conflict, now)
    {
      hide Search, FreeRow, Insert;
      ghost var t := Table();
      idx := Find(ip);
      if idx >= 0 {
        var _ := rows[idx].SetAmbr(rate, conflict, now);
        assert Table() == t[idx := RefreshAmbr(t[idx], rate, conflict, now).tb];
        return;
      }
      var i := FindFreeRow();
      if i >= 0 {
        var ok := OpenRow(i, ip, rate, conflict, now);
        assert Table() == t[i := rows[i].tb];
        if ok { idx := i; } else { idx := Find(ip); }
      }
    }

    /** Removing an address clears its row and rebuilds the hash. */
    method RemoveUe(ip: nat) returns (ok: bool)
      requires Valid()
      modifies hash, rows
      ensures Removed(Value(), ok) == Remove(old(Value()), ip)
      ensures forall i :: 0 <= i < MAX_UE && i != old(Search(hash[..], ip, 0)) ==> rows[i].tb == old(rows[i].tb)
    {
      hide Indexes, AddressesUnique, Search, Rebuilt, Unused;
      ghost var t := Table();
      var idx := Find(ip);
      if idx < 0 { return false; }
      rows[idx].Clear();
      assert Table() == t[idx := ZeroUe()];
      MarkUnused();
      Reindex(old(hash[..]));
      ok := true;
    }

    method MarkUnused()
      requires Valid()
      modifies hash
      ensures hash[..] == Unused(old(hash[..]))
    {
      for p := 0 to MAX_UE
        invariant forall k :: 0 <= k < p ==> hash[k] == old(hash[k]).(inUse := false)
        invariant forall k :: p <= k < MAX_UE ==> hash[k] == old(hash[k])
      {
        hash[p] := hash[p].(inUse := false);
      }
    }

    /** Puts every row in use back into a hash that was just cleared. */
    method Reindex(ghost before: seq<Slot>)
      requires Valid() && |before| == MAX_UE && hash[..] == Unused(before)
      modifies hash
      ensures hash[..] == Rebuilt(before, Table(), MAX_UE)
    {
      hide Insert;
      for i := 0 to MAX_UE
        invariant hash[..] == Rebuilt(before, Table(), i)
      {
        if rows[i].tb.ueIp != 0 {
          var done := InsertAt(rows[i].tb.ueIp, i);
        }
      }
    }
  }
}
