/** The globals of UPF-U and the operations on them (5gc/upf_u/upf_u.c:941-961, 1291-1334,
    1605-1618, 1893-1903): the table of UEs with its hash, one shaper object per row, the scan
    of active UEs and the pool. Every operation works through the methods of these objects and
    is proved to take the step of `System`. */
module SystemState {
  import opened Common
  import opened Shaper
  import Rates
  import opened BucketState
  import FS = FlowState
  import opened ShaperState
  import opened Ownership
  import opened System
  import Idx = UeIndex
  import RR = RoundRobin

  class Globals {
    const envs: Envs
    const index: Idx.UeTable
    const shapers: seq<UeShaper>
    const tables: seq<FS.FlowTable>
    const scanner: RR.Scanner
    var free: int
    ghost var visits: seq<RR.Visit>
    ghost var log: seq<Rates.Event>
    ghost var archive: seq<Rates.Event>

    /** Every slot has a shaper of its own, over its own row and its own table of flows. */
    ghost predicate Wired() {
      && index.Valid() && |shapers| == MAX_UE == |tables|
      && (forall i :: 0 <= i < MAX_UE ==> shapers[i].row == index.rows[i] && shapers[i].env == envs(i))
      && (forall i :: 0 <= i < MAX_UE ==> shapers[i].table == tables[i])
      && (forall i, j :: 0 <= i < j < MAX_UE ==> shapers[i] != shapers[j] && tables[i] != tables[j])
    }

    /** All pointers between flows and entries are in order. */
    ghost predicate Linked()
      reads tables
    {
      forall i :: 0 <= i < |tables| ==> tables[i].Valid()
    }

    ghost function Slots(): (ues: seq<Ue>)
      requires Wired()
      reads shapers, tables, index.rows
      ensures |ues| == MAX_UE && forall i :: 0 <= i < MAX_UE ==> ues[i] == shapers[i].View()
    {
      seq(MAX_UE, i requires 0 <= i < MAX_UE reads shapers, tables, index.rows => shapers[i].View())
    }

    ghost function View(): (w: World)
      requires Wired()
      reads this, scanner, index.hash, shapers, tables, index.rows
    {
      World(Slots(), index.hash[..], scanner.active, scanner.cursor, free, visits, log, archive)
    }

    ghost predicate Valid()
      reads this, scanner, index.hash, shapers, tables, index.rows
    {
      Wired() && Linked() && Healthy(envs, View())
    }

    constructor (envs: Envs)
      requires forall i: nat :: Steady(envs(i))
      ensures Valid() && this.envs == envs && View() == StartUp(index.hash[..])
    {
      hide Healthy, Idx.Agrees, Good;
      var table := new Idx.UeTable();
      var made, flows := MakeShapers(envs, table.rows);
      this.envs, index, shapers, tables := envs, table, made, flows;
      scanner := new RR.Scanner();
      free, visits, log, archive := POOL, [], [], [];
      new;
      StartHealthy(envs, index.hash[..]);
      SameBits(scanner.active, NoneTried());
      assert Slots() == StartUp(index.hash[..]).ues;
    }

    /** The shaper of slot i has changed: the pool, the bitmap and the log follow. `w` is the
        state before, in which `was` packets waited in the slot. */
    method PutBack(i: nat, ghost w: World, was: int, busy: bool)
      requires Wired() && i < MAX_UE && |w.ues| == MAX_UE && View() == w.(ues := w.ues[i := shapers[i].View()])
      requires tables[i].Valid() && Held(w.ues[i].trace) == was && Held(shapers[i].trace) == tables[i].q.queued
      modifies this`free, this`log, scanner`active
      ensures View() == Put(w, i, shapers[i].View(), busy)
    {
      hide Held, Gain;
      free := free - (shapers[i].table.queued - was);
      log := log + Gain(w.ues[i].trace, shapers[i].trace);
      scanner.Mark(i, busy);
      SameBits(scanner.active, RR.SetBit(w.active, i, busy));
    }

    lemma Sizes()
      requires Wired()
      ensures |shapers| == MAX_UE == |tables| && |index.rows| == MAX_UE == index.hash.Length
    {}

    method FindRow(ip: nat) returns (r: int)
      requires Wired()
      ensures r == Idx.Search(index.hash[..], ip, 0)
    {
      r := index.Find(ip);
    }

    // ----- drains

    /** drain_shaper_queues_budget: visits the active slots round-robin, each at most once. */
    method DrainQueues(budget: nat) returns (total: nat)
      requires Valid()
      modifies this, scanner, shapers, tables, index.rows
      ensures Valid() && Trying(old(View()).visits, NoneTried(), 0)
      ensures Total(View(), total) == DrainFrom(envs, old(View()), NoneTried(), 0, budget)
      ensures total <= budget
    {
      hide Healthy, VisitSlot, DrainUe, Good, RR.NextFrom, RR.IsNext, RR.Eligible, Put, Trying, DrainFrom, Wired,
        FS.FlowTable.Valid, Linked;
      ghost var w := View();
      NoneTriedYet(visits);
      var tried := NoneTried();
      var visited: nat, left: nat := 0, budget;
      total := 0;
      while visited < RR.SCAN_BUDGET && left > 0
        invariant Valid() && 0 <= visited <= RR.SCAN_BUDGET && left + total == budget
        invariant Trying(View().visits, tried, visited)
        invariant
          var t := DrainFrom(envs, View(), tried, visited, left);
          DrainFrom(envs, w, NoneTried(), 0, budget) == Total(t.w, total + t.n)
        decreases RR.SCAN_BUDGET - visited
      {
        var n: nat, r: int;
        DrainFromStep(envs, View(), tried, visited, left);
        n, r := DrainNext(tried, visited, left);
        if r < 0 { break; }
        tried := RR.SetBit(tried, r, true);
        total, left := total + n, left - n;
        visited := visited + 1;
      }
      if visited == RR.SCAN_BUDGET || left == 0 { DrainFromDone(envs, View(), tried, visited, left); }
    }

    /** One visit: the slot the scan returns is drained; -1 if there is none. */
    method DrainNext(tried: RR.Bitmap, ghost visited: nat, left: nat) returns (n: nat, r: int)
      requires Valid() && visited < RR.SCAN_BUDGET && Trying(View().visits, tried, visited)
      modifies this, scanner, shapers, tables, index.rows
      ensures Valid() && n <= left && r == RR.NextFrom(old(scanner.active), tried, old(scanner.cursor), 0)
      ensures r < 0 ==> View() == old(View()) && n == 0
      ensures r >= 0 ==>
        && Total(View(), n) == VisitSlot(envs, old(View()), tried, visited, r, left)
        && Trying(View().visits, RR.SetBit(tried, r, true), visited + 1)
    {
      hide Healthy, Good, RR.NextFrom, RR.IsNext, RR.Eligible, DrainUe, Put, Progress, Trying, Held, VisitSlot,
        FS.FlowTable.Valid, Linked;
      ghost var w := View();
      r := scanner.Next(tried);
      n := 0;
      if r >= 0 {
        VisitFacts(envs, w, tried, visited, r, left);
        visits := visits + [RR.Visit(w.active, tried, w.cursor, r, visited)];
        assert Slots() == w.ues;
        n := DrainSlot(r, left);
      }
    }

    /** drain_ue_shaper on slot r. */
    method DrainSlot(r: nat, left: nat) returns (n: nat)
      requires Wired() && Linked() && r < MAX_UE && Good(envs(r), Slots()[r])
      requires Held(Slots()[r].trace) == Slots()[r].q.queued
      requires var u := DrainUe(envs(r), Slots()[r], left).u; Held(u.trace) == u.q.queued
      modifies this`free, this`log, scanner`active, shapers, tables, index.rows
      ensures
        var d := DrainUe(envs(r), old(Slots())[r], left);
        n == d.n && View() == Put(old(View()), r, d.u, d.u.q.queued > 0) && Linked()
    {
      hide Good, DrainUe, Put, Progress, Held, FS.FlowTable.Valid;
      ghost var w := View();
      var was := shapers[r].table.Waiting();
      var tx, busy;
      n, tx, busy := shapers[r].Drain(left);
      assert Slots() == w.ues[r := shapers[r].View()];
      PutBack(r, w, was, busy);
    }

    // ----- session removal

    /** The handler of a session removal. */
    method OnSessionRemove(ip: nat) returns (removed: bool)
      requires Valid()
      modifies this, scanner, shapers, tables, index.hash, index.rows
      ensures Valid() && View() == RemoveSession(envs, old(View()), ip)
      ensures removed <==> Idx.Search(old(index.hash[..]), ip, 0) >= 0
    {
      hide Healthy, Good, Idx.Search, RemoveSession, FlushedAt, RowRemoved, Closed, Emptied, Linked,
        Wired;
      Sizes();
      ghost var w := View();
      RemoveHealthy(envs, w, ip);
      RemoveFacts(envs, w, ip);
      var i := FindRow(ip);
      if i >= 0 { FlushSlot(i); }
      removed := RemoveRow(i, ip);
      if i >= 0 {
        CloseSlot(i, w.ues[i].trace);
        InSteps(w, i, ip);
      } else {
        RowRemovedNone(w, ip);
      }
    }

    /** The history of the UE that had slot i is put away. */
    ghost method CloseSlot(i: nat, was: seq<Rates.Event>)
      requires Wired() && i < MAX_UE
      modifies this`log, this`archive, shapers[i]
      ensures View() == Closed(old(View()), i, was)
    {
      ghost var v := View();
      var tr := shapers[i].trace + [Rates.Cleared];
      log, archive := log + Gain(was, tr), archive + tr;
      shapers[i].trace := [];
      assert Slots() == v.ues[i := v.ues[i].(trace := [])];
    }

    /** removeEntrybyUeIp, for the address of row i if there is one. */
    method RemoveRow(ghost i: int, ip: nat) returns (removed: bool)
      requires Wired() && i == Idx.Search(index.hash[..], ip, 0)
      modifies index.hash, index.rows
      ensures removed <==> i >= 0
      ensures View() == RowRemoved(old(View()), i, ip)
    {
      hide Idx.Search, Idx.Rebuilt, FS.FlowTable.Valid;
      ghost var v := View();
      assert index.Value() == IndexOf(v);
      removed := index.RemoveUe(ip);
      if i >= 0 {
        assert index.Table()[i] == Rates.ZeroUe();
        assert Slots() == v.ues[i := v.ues[i].(tb := Rates.ZeroUe())];
      } else {
        assert Slots() == v.ues;
      }
    }

    /** shaper_flush_ue on slot i. */
    method FlushSlot(i: nat)
      requires Wired() && Linked() && i < MAX_UE && Good(envs(i), Slots()[i])
      modifies this`free, scanner`active, shapers[i], tables[i]
      ensures View() == FlushedAt(old(View()), i) && Linked()
    {
      hide Good, Flush, FS.FlowTable.Valid;
      ghost var w := View();
      var flushed := shapers[i].FlushAll();
      free := free + flushed;
      scanner.Mark(i, false);
      SameBits(scanner.active, RR.SetBit(w.active, i, false));
      assert Slots() == w.ues[i := Flush(w.ues[i])];
    }

    // ----- packets

    /** A downlink packet: its UE's slot is found or opened and configured, then it is shaped. */
    method OnDownlinkPacket(a: Arrival, rate: nat, conflict: bool, q: QerInfo) returns (decision: Decision)
      requires Valid() && a.key.ueIp != 0
      modifies this, scanner, shapers, tables, index.hash, index.rows
      ensures Valid() && Outcome(View(), decision) == Packet(envs, old(View()), a, rate, conflict, q)
    {
      hide Healthy, Good, Configure, SetQer, Shape, Rates.RefreshQer, Do, Linked;
      PacketHealthy(envs, View(), a, rate, conflict, q);
      var i := FindOrOpen(a.key.ueIp, rate, conflict);
      if i < 0 { return Drop; }
      if q.Gbr? {
        var ok := ConfigureQer(i, q);
        if !ok { return Drop; }
      }
      decision := ShapePacket(i, a);
    }

    /** The Session-AMBR part of ConfigureDlShaperForPdr. */
    method FindOrOpen(ip: nat, rate: nat, conflict: bool) returns (i: int)
      requires Valid() && ip != 0
      modifies this, scanner, shapers, tables, index.hash, index.rows
      ensures Valid() && Found(View(), i) == Configure(envs, old(View()), ip, rate, conflict)
      ensures -1 <= i < MAX_UE && (i >= 0 ==> Slots()[i].tb.ueIp == ip)
    {
      hide Healthy, Good, Put, Idx.Search, Idx.Insert, Idx.FreeRow, Do, Configure, Held, Linked, Tidy,
        Wired;
      Sizes();
      ghost var w := View();
      ConfigureHealthy(envs, w, ip, rate, conflict);
      ConfigureAdds(envs, w, ip, rate, conflict);
      ConfigureFacts(envs, w, ip, rate, conflict);
      i := FindRow(ip);
      if i >= 0 {
        RefreshSlot(i, rate, conflict);
        return;
      }
      i := FreeRowIn();
      if i >= 0 { OpenSlot(i, ip, rate, conflict); }
    }

    method FreeRowIn() returns (r: int)
      requires Wired()
      ensures r == Idx.FreeRow(Tables(Slots()), 0)
    {
      hide Idx.FreeRow;
      assert index.Table() == Tables(Slots());
      r := index.FindFreeRow();
    }

    /** refreshUeSessionAmbr on slot i. */
    method RefreshSlot(i: nat, rate: nat, conflict: bool)
      requires Wired() && Linked() && i < MAX_UE && Tidy(envs, View(), i, OnAmbr(rate, conflict))
      modifies this`free, this`log, scanner`active, shapers[i], index.rows[i]
      ensures
        var w := old(View());
        View() == Put(w, i, Do(envs(i), w.ues[i], OnAmbr(rate, conflict)), RR.Bit(w.active, i))
    {
      hide Good, Put, Do, Held, FS.FlowTable.Valid, RR.Bit;
      ghost var w := View();
      var was := shapers[i].table.Waiting();
      var _ := shapers[i].Refresh(rate, conflict);
      assert Slots() == w.ues[i := shapers[i].View()];
      var busy := RR.Bit(scanner.active, i);
      PutBack(i, w, was, busy);
    }

    /** addEntrybyUeIp on free row i. */
    method OpenSlot(i: nat, ip: nat, rate: nat, conflict: bool)
      requires Wired() && Linked() && i < MAX_UE && Idx.Insert(index.hash[..], ip, i).ok
      requires Tidy(envs, View(), i, OnAdd(ip, rate, conflict))
      modifies this`free, this`log, scanner`active, shapers[i], index.hash, index.rows[i]
      ensures
        var w := old(View());
        var u := Do(envs(i), w.ues[i], OnAdd(ip, rate, conflict));
        View() == Put(w.(hash := Idx.Insert(w.hash, ip, i).hash), i, u, RR.Bit(w.active, i))
    {
      hide Good, Put, Idx.Insert, Held, Do, RR.Bit, FS.FlowTable.Valid;
      ghost var w := View();
      var was := shapers[i].table.Waiting();
      WriteSlot(i, ip, rate, conflict);
      var busy := RR.Bit(scanner.active, i);
      PutBack(i, w.(hash := index.hash[..]), was, busy);
    }

    method WriteSlot(i: nat, ip: nat, rate: nat, conflict: bool)
      requires Wired() && i < MAX_UE && Good(envs(i), Slots()[i]) && Idx.Insert(index.hash[..], ip, i).ok
      modifies shapers[i], index.hash, index.rows[i]
      ensures
        var w := old(View());
        var u := Do(envs(i), w.ues[i], OnAdd(ip, rate, conflict));
        View() == w.(hash := Idx.Insert(w.hash, ip, i).hash, ues := w.ues[i := u])
    {
      hide Good, Idx.Insert, Do, Rates.NewUe, FS.FlowTable.Valid;
      ghost var w := View();
      AddIs(envs(i), w.ues[i], ip, rate, conflict);
      var now := shapers[i].ReadClock();
      var ok := index.OpenRow(i, ip, rate, conflict, now);
      shapers[i].trace := shapers[i].trace + [Rates.Cleared, Rates.Inited(Rates.Ambr, now)];
      assert Slots() == w.ues[i := shapers[i].View()];
    }

    /** The GBR part of ConfigureDlShaperForPdr. */
    method ConfigureQer(i: nat, q: QerInfo) returns (ok: bool)
      requires Valid() && i < MAX_UE && q.Gbr?
      modifies this, scanner, shapers, tables, index.rows
      ensures Valid() && View() == SetQer(envs, old(View()), i, q) && Slots()[i].tb.ueIp == old(Slots())[i].tb.ueIp
      ensures
        var u := old(Slots())[i];
        ok == Rates.RefreshQer(u.tb, q.id, q.qfi, q.gfbr, q.mfbr, Now(envs(i), u)).ok
    {
      hide Healthy, Good, Put, Do, Held, SetQer, Rates.RefreshQer, FS.FlowTable.Valid;
      ghost var w := View();
      SetQerHealthy(envs, w, i, q);
      SetQerFacts(envs, w, i, q);
      var was := shapers[i].table.Waiting();
      ok := shapers[i].RefreshGbr(q.id, q.qfi, q.gfbr, q.mfbr);
      assert Slots() == w.ues[i := shapers[i].View()];
      var busy := RR.Bit(scanner.active, i);
      PutBack(i, w, was, busy);
    }

    /** shape_or_enqueue_packet on slot i, with the pool and the bitmap. */
    method ShapePacket(i: nat, a: Arrival) returns (decision: Decision)
      requires Valid() && i < MAX_UE && a.key.ueIp == Slots()[i].tb.ueIp != 0
      modifies this, scanner, shapers, tables, index.rows
      ensures Wired() && Linked() && Outcome(View(), decision) == System.Shape(envs, old(View()), i, a)
    {
      hide Healthy, Good, Put, Arrive, Held, System.Shape, FS.FlowTable.Valid;
      ghost var w := View();
      ShapeFacts(envs, w, i, a);
      var was := shapers[i].table.Waiting();
      decision := shapers[i].Shape(a, free > 0);
      assert Slots() == w.ues[i := shapers[i].View()];
      var busy := decision == Enqueue || RR.Bit(scanner.active, i);
      PutBack(i, w, was, busy);
    }
  }

  /** One shaper with an empty table of flows per row. */
  method MakeShapers(envs: Envs, rows: seq<UeRow>) returns (made: seq<UeShaper>, flows: seq<FS.FlowTable>)
    requires |rows| == MAX_UE && (forall i: nat :: Steady(envs(i)))
    requires forall i :: 0 <= i < MAX_UE ==> rows[i].tb == Rates.ZeroUe()
    ensures |made| == MAX_UE == |flows|
    ensures forall i :: 0 <= i < MAX_UE ==> fresh(made[i]) && fresh(flows[i]) && made[i].table == flows[i]
    ensures forall i :: 0 <= i < MAX_UE ==> flows[i].Valid() && made[i].View() == Fresh()
    ensures forall i :: 0 <= i < MAX_UE ==> made[i].row == rows[i] && made[i].env == envs(i)
    ensures forall i, j :: 0 <= i < j < MAX_UE ==> made[i] != made[j] && flows[i] != flows[j]
  {
    hide Good, FS.FlowTable.Valid;
    made, flows := [], [];
    while |made| < MAX_UE
      invariant |made| == |flows| <= MAX_UE
      invariant forall i :: 0 <= i < |made| ==> fresh(made[i]) && fresh(flows[i]) && made[i].table == flows[i]
      invariant forall i :: 0 <= i < |made| ==> flows[i].Valid() && made[i].View() == Fresh()
      invariant forall i :: 0 <= i < |made| ==> made[i].row == rows[i] && made[i].env == envs(i)
      invariant forall i, j :: 0 <= i < j < |made| ==> made[i] != made[j] && flows[i] != flows[j]
    {
      var shaper := new UeShaper(envs(|made|), rows[|made|]);
      made, flows := made + [shaper], flows + [shaper.table];
    }
  }

  lemma DrainFromStep(envs: Envs, w: World, tried: RR.Bitmap, visited: nat, budget: nat)
    requires Healthy(envs, w) && visited < RR.SCAN_BUDGET && Trying(w.visits, tried, visited) && budget > 0
    ensures
      var r := RR.NextFrom(w.active, tried, w.cursor, 0);
      var all := DrainFrom(envs, w, tried, visited, budget);
      if r < 0 then all == Total(w, 0)
      else
        var t := VisitSlot(envs, w, tried, visited, r, budget);
        && Healthy(envs, t.w) && Trying(t.w.visits, RR.SetBit(tried, r, true), visited + 1)
        && var rest := DrainFrom(envs, t.w, RR.SetBit(tried, r, true), visited + 1, budget - t.n);
           all == Total(rest.w, t.n + rest.n)
  {
    hide Healthy, VisitSlot, Good, RR.NextFrom, RR.IsNext, RR.Eligible, Trying;
    var r := RR.NextFrom(w.active, tried, w.cursor, 0);
    if r >= 0 { NextHealthy(envs, w, tried, visited, r, budget); }
  }

  lemma DrainFromDone(envs: Envs, w: World, tried: RR.Bitmap, visited: nat, budget: nat)
    requires Healthy(envs, w) && visited <= RR.SCAN_BUDGET && Trying(w.visits, tried, visited)
    requires visited == RR.SCAN_BUDGET || budget == 0
    ensures DrainFrom(envs, w, tried, visited, budget) == Total(w, 0)
  {
    hide Healthy, Trying, VisitSlot;
  }

  /** What a visit does to the slot, and that all entries stay accounted for. */
  lemma VisitFacts(envs: Envs, w: World, tried: RR.Bitmap, visited: nat, r: nat, budget: nat)
    requires Healthy(envs, w) && r < MAX_UE && RR.IsNext(w.active, tried, w.cursor, r)
    requires visited < RR.SCAN_BUDGET && Trying(w.visits, tried, visited)
    ensures |w.ues| == MAX_UE && Good(envs(r), w.ues[r]) && Held(w.ues[r].trace) == w.ues[r].q.queued
    ensures
      var t := VisitSlot(envs, w, tried, visited, r, budget);
      var d := DrainUe(envs(r), w.ues[r], budget);
      var v := RR.Visit(w.active, tried, w.cursor, r, visited);
      && Held(d.u.trace) == d.u.q.queued && Healthy(envs, t.w) && t.n == d.n
      && t.w == Put(w.(cursor := (r + 1) % MAX_UE, visits := w.visits + [v]), r, d.u, d.u.q.queued > 0)
      && Trying(t.w.visits, RR.SetBit(tried, r, true), visited + 1)
  {
    hide Healthy, Good, DrainUe, Held, Put, Trying, RR.IsNext;
    SlotGood(envs, w, r);
    VisitHealthy(envs, w, tried, visited, r, budget);
    VisitHeld(envs, w, r, budget);
  }

  lemma VisitHeld(envs: Envs, w: World, r: nat, budget: nat)
    requires Healthy(envs, w) && r < MAX_UE
    ensures |w.ues| == MAX_UE && Good(envs(r), w.ues[r])
    ensures var u := DrainUe(envs(r), w.ues[r], budget).u; Held(u.trace) == u.q.queued
  {
    hide Good, Booked, Idx.Agrees, Held, DrainUe;
    assert SlotOk(envs(r), w.ues[r], RR.Bit(w.active, r));
    DrainOwns(envs(r), w.ues[r], budget);
  }

  /** Removing the session of an address: without a slot nothing changes. */
  lemma RemoveFacts(envs: Envs, w: World, ip: nat)
    requires Healthy(envs, w)
    ensures |w.hash| == MAX_UE == |w.ues|
    ensures Idx.Search(w.hash, ip, 0) < 0 ==> RemoveSession(envs, w, ip) == w
    ensures
      var i := Idx.Search(w.hash, ip, 0);
      i >= 0 ==> Good(envs(i), w.ues[i]) && RemoveSession(envs, w, ip) == Emptied(w, i, ip)
  {
    hide Good, Owns, Idx.Search, Idx.Rebuilt, Held, Booked, Gain, Flush, RR.SetBit;
    var i := Idx.Search(w.hash, ip, 0);
    if i >= 0 {
      SlotGood(envs, w, i);
      assert SlotOk(envs(i), w.ues[i], RR.Bit(w.active, i));
      RemoveOwns(envs(i), w.ues[i]);
      RemoveHealthy(envs, w, ip);
      assert RemoveSession(envs, w, ip).hash == IndexOf(RemoveSession(envs, w, ip)).hash;
    }
  }

  // The steps of a removal.

  ghost function FlushedAt(w: World, i: nat): (r: World)
    requires |w.hash| == MAX_UE == |w.ues| && i < MAX_UE
    ensures |r.hash| == MAX_UE == |r.ues| && r.hash == w.hash
  {
    w.(ues := w.ues[i := Flush(w.ues[i])], active := RR.SetBit(w.active, i, false), free := w.free + w.ues[i].q.queued)
  }

  ghost function RowRemoved(w: World, i: int, ip: nat): (r: World)
    requires |w.hash| == MAX_UE == |w.ues| && i < MAX_UE
    ensures |r.hash| == MAX_UE == |r.ues|
  {
    w.(hash := Idx.Remove(IndexOf(w), ip).x.hash,
       ues := if i >= 0 then w.ues[i := w.ues[i].(tb := Rates.ZeroUe())] else w.ues)
  }

  ghost function Closed(w: World, i: nat, was: seq<Rates.Event>): World
    requires |w.hash| == MAX_UE == |w.ues| && i < MAX_UE
  {
    var tr := w.ues[i].trace + [Rates.Cleared];
    w.(ues := w.ues[i := w.ues[i].(trace := [])], log := w.log + Gain(was, tr), archive := w.archive + tr)
  }

  lemma InSteps(w: World, i: nat, ip: nat)
    requires |w.hash| == MAX_UE == |w.ues| && i < MAX_UE
    ensures Closed(RowRemoved(FlushedAt(w, i), i, ip), i, w.ues[i].trace) == Emptied(w, i, ip)
  {
    hide Idx.Remove, Gain, RR.SetBit;
    assert Tables(FlushedAt(w, i).ues) == Tables(w.ues);
  }

  lemma RowRemovedNone(w: World, ip: nat)
    requires |w.hash| == MAX_UE == |w.ues| && Idx.Search(w.hash, ip, 0) < 0
    ensures RowRemoved(w, -1, ip) == w
  {
    hide Idx.Search;
  }

  /** The state without the UE of slot i. */
  ghost function Emptied(w: World, i: nat, ip: nat): World
    requires |w.hash| == MAX_UE == |w.ues| && i < MAX_UE
  {
    var f := Flush(w.ues[i]);
    var tr := f.trace + [Rates.Cleared];
    w.(ues := w.ues[i := Vacated(f.ticks)], active := RR.SetBit(w.active, i, false),
       free := w.free + w.ues[i].q.queued, log := w.log + Gain(w.ues[i].trace, tr), archive := w.archive + tr,
       hash := Idx.Remove(IndexOf(w), ip).x.hash)
  }

  // ----- what the packet path does to its slot

  /** Configuring an address: its slot is refreshed, or the first free one is opened. */
  lemma ConfigureFacts(envs: Envs, w: World, ip: nat, rate: nat, conflict: bool)
    requires Healthy(envs, w) && ip != 0
    ensures |w.hash| == MAX_UE == |w.ues|
    ensures
      var i := Idx.Search(w.hash, ip, 0);
      i >= 0 ==>
        && Tidy(envs, w, i, OnAmbr(rate, conflict))
        && var u := Do(envs(i), w.ues[i], OnAmbr(rate, conflict));
           Configure(envs, w, ip, rate, conflict) == Found(Put(w, i, u, RR.Bit(w.active, i)), i)
    ensures
      var j := Idx.FreeRow(Tables(w.ues), 0);
      Idx.Search(w.hash, ip, 0) < 0 ==>
        if j < 0 then Configure(envs, w, ip, rate, conflict) == Found(w, -1)
        else
          && Tidy(envs, w, j, OnAdd(ip, rate, conflict)) && Idx.Insert(w.hash, ip, j).ok
          && var u := Do(envs(j), w.ues[j], OnAdd(ip, rate, conflict));
             Configure(envs, w, ip, rate, conflict) ==
               Found(Put(w.(hash := Idx.Insert(w.hash, ip, j).hash), j, u, RR.Bit(w.active, j)), j)
  {
    hide Good, Owns, Idx.Indexes, Idx.AddressesUnique, LogOk, Held, Idx.Search, Idx.Insert, Booked, Put, Do;
    var x := IndexOf(w);
    var i := Idx.Search(w.hash, ip, 0);
    if i >= 0 {
      OpTidy(envs, w, i, OnAmbr(rate, conflict));
    } else {
      var j := Idx.FreeRow(x.table, 0);
      if j >= 0 {
        OpTidy(envs, w, j, OnAdd(ip, rate, conflict));
        forall k | 0 <= k < MAX_UE ensures x.table[k].ueIp != ip { Idx.SearchIff(x, ip, k); }
        Idx.InsertAgrees(x, j, Rates.NewUe(ip, rate, conflict, 0));
      }
    }
  }

  lemma AddIs(env: Env, u: Ue, ip: nat, rate: nat, conflict: bool)
    requires Good(env, u)
    ensures
      var now := Now(env, u);
      Do(env, u, OnAdd(ip, rate, conflict)) ==
        Ue(u.q, Rates.NewUe(ip, rate, conflict, now), u.ticks + 1,
           u.trace + [Rates.Cleared, Rates.Inited(Rates.Ambr, now)])
  {
    hide Good;
  }

  /** The entries that slot i holds are its waiting packets, before and after an operation. */
  ghost predicate Tidy(envs: Envs, w: World, i: nat, op: Op)
    requires |w.ues| == MAX_UE && i < MAX_UE
  {
    && Good(envs(i), w.ues[i]) && Held(w.ues[i].trace) == w.ues[i].q.queued
    && var u := Do(envs(i), w.ues[i], op); Held(u.trace) == u.q.queued
  }

  lemma OpTidy(envs: Envs, w: World, i: nat, op: Op)
    requires |w.ues| == MAX_UE && SlotsOk(envs, w.ues, w.active) && i < MAX_UE
    requires op.OnAmbr? || op.OnQer? || (op.OnAdd? && w.ues[i].tb.ueIp == 0 && op.ueIp != 0)
    ensures Tidy(envs, w, i, op)
  {
    hide Good, Do;
    assert SlotOk(envs(i), w.ues[i], RR.Bit(w.active, i));
    ConfigureOwns(envs(i), w.ues[i], op);
  }

  lemma SetQerFacts(envs: Envs, w: World, i: nat, q: QerInfo)
    requires Healthy(envs, w) && i < MAX_UE && q.Gbr?
    ensures |w.ues| == MAX_UE && Tidy(envs, w, i, OnQer(q.id, q.qfi, q.gfbr, q.mfbr))
    ensures
      var u := Do(envs(i), w.ues[i], OnQer(q.id, q.qfi, q.gfbr, q.mfbr));
      SetQer(envs, w, i, q) == Put(w, i, u, RR.Bit(w.active, i))
  {
    hide Good, Do, Booked, Idx.Agrees, LogOk, Put, Tidy;
    OpTidy(envs, w, i, OnQer(q.id, q.qfi, q.gfbr, q.mfbr));
    assert Good(envs(i), w.ues[i]) by { SlotGood(envs, w, i); }
  }

  lemma ShapeFacts(envs: Envs, w: World, i: nat, a: Arrival)
    requires Healthy(envs, w) && i < MAX_UE && a.key.ueIp == w.ues[i].tb.ueIp != 0
    ensures |w.ues| == MAX_UE && Tidy(envs, w, i, OnPacket(a, w.free > 0))
    ensures
      var v := Arrive(envs(i), w.ues[i], a, w.free > 0);
      System.Shape(envs, w, i, a) ==
        Outcome(Put(w, i, v.u, v.decision == Enqueue || RR.Bit(w.active, i)), v.decision)
  {
    hide Good, Booked, Idx.Agrees, LogOk, Put, Arrive;
    assert SlotOk(envs(i), w.ues[i], RR.Bit(w.active, i));
    ArriveOwns(envs(i), w.ues[i], a, w.free > 0);
  }

  lemma SlotGood(envs: Envs, w: World, i: nat)
    requires Healthy(envs, w) && i < MAX_UE
    ensures |w.ues| == MAX_UE && Good(envs(i), w.ues[i]) && Held(w.ues[i].trace) == w.ues[i].q.queued
  {
    hide Good, Booked;
    assert SlotOk(envs(i), w.ues[i], RR.Bit(w.active, i));
  }

  /** Bitmaps with the same bits are the same. */
  lemma SameBits(a: RR.Bitmap, b: RR.Bitmap)
    requires forall i :: 0 <= i < MAX_UE ==> RR.Bit(a, i) == RR.Bit(b, i)
    ensures a == b
  {
    forall k | 0 <= k < 4 ensures a[k] == b[k] {
      forall j | 0 <= j < 64 ensures a[k][j] == b[k][j] {
        var i := 64 * k + j;
        assert i / 64 == k && i % 64 == j && RR.Bit(a, i) == RR.Bit(b, i);
      }
    }
  }
}
