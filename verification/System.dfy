/** All UEs together (5gc/upf_u/upf_u.c:280-402, 870-1001, 1291-1334, 1893-1903): the index
    from addresses to slots, one shaper per slot, the bitmap of slots with packets, the
    round-robin cursor and the shared pool of queue entries. */
module System {
  import opened Common
  import opened Sched
  import opened TokenBucket
  import opened Rates
  import History
  import opened Shaper
  import opened Ownership
  import Idx = UeIndex
  import RR = RoundRobin

  const POOL := 256 * MAX_PER_UE

  /** `free` counts the pool entries not in use. `visits` logs the decisions of the scan, `log`
      all that happened to packets in all slots, in order, and `archive` the histories of the
      UEs that were removed; a slot's own trace is about the UE that has it now. */
  datatype World = World(ues: seq<Ue>, hash: seq<Idx.Slot>, active: RR.Bitmap, cursor: nat, free: int,
                         visits: seq<RR.Visit>, log: seq<Rates.Event>, archive: seq<Rates.Event>)

  /** Each slot sees its own readings of the clock. */
  type Envs = nat -> Env

  function Tables(ues: seq<Ue>): (r: seq<UeTb>)
    ensures |r| == |ues| && forall i :: 0 <= i < |ues| ==> r[i] == ues[i].tb
  {
    seq(|ues|, i requires 0 <= i < |ues| => ues[i].tb)
  }

  function IndexOf(w: World): Idx.Index { Idx.Index(w.hash, Tables(w.ues)) }

  function Waiting(ues: seq<Ue>): int {
    if ues == [] then 0 else ues[0].q.queued + Waiting(ues[1..])
  }

  ghost predicate SlotOk(env: Env, u: Ue, bit: bool) {
    Good(env, u) && Owns(u) && (bit <==> u.q.queued > 0) && (u.tb.ueIp == 0 ==> u.trace == [])
  }

  ghost predicate SlotsOk(envs: Envs, ues: seq<Ue>, active: RR.Bitmap)
    requires |ues| == MAX_UE
  {
    forall i :: 0 <= i < MAX_UE ==> SlotOk(envs(i), ues[i], RR.Bit(active, i))
  }

  ghost predicate LogOk(visits: seq<RR.Visit>, cursor: nat) {
    && RR.VisitsFollow(visits) && RR.ScansOk(visits)
    && (visits != [] ==> cursor == (visits[|visits| - 1].served + 1) % MAX_UE)
  }

  /** The history of the UE that a key belongs to, since it got its slot. */
  function Current(w: World, key: FlowKey): seq<Rates.Event>
    requires |w.hash| == MAX_UE == |w.ues|
  {
    var i := Idx.Search(w.hash, key.ueIp, 0);
    if i >= 0 then w.ues[i].trace else []
  }

  /** For this flow, the log is what was archived and then what its slot remembers; and what
      was archived is in order. */
  ghost predicate KeyBooked(w: World, key: FlowKey)
    requires |w.hash| == MAX_UE == |w.ues|
  {
    && History.Departures(w.log, key) == History.Departures(w.archive, key) + History.Departures(Current(w, key), key)
    && History.Arrivals(w.log, key) == History.Arrivals(w.archive, key) + History.Arrivals(Current(w, key), key)
    && History.Subseq(History.Departures(w.archive, key), History.Arrivals(w.archive, key))
  }

  ghost predicate Booked(w: World)
    requires |w.hash| == MAX_UE == |w.ues|
  {
    forall key :: KeyBooked(w, key)
  }

  /** What holds between any two messages or packets. */
  ghost predicate Healthy(envs: Envs, w: World) {
    && |w.ues| == MAX_UE && SlotsOk(envs, w.ues, w.active)
    && Idx.Agrees(IndexOf(w)) && w.free == POOL - Waiting(w.ues) && LogOk(w.visits, w.cursor) && Booked(w)
  }

  // ----- the pool

  lemma {:induction false} WaitingUpdate(ues: seq<Ue>, i: nat, u: Ue)
    requires i < |ues|
    ensures Waiting(ues[i := u]) == Waiting(ues) - ues[i].q.queued + u.q.queued
  {
    if i == 0 {
      assert ues[i := u][1..] == ues[1..];
    } else {
      assert ues[i := u][1..] == ues[1..][i - 1 := u];
      WaitingUpdate(ues[1..], i - 1, u);
    }
  }

  lemma {:induction false} WaitingBounds(ues: seq<Ue>)
    requires forall i :: 0 <= i < |ues| ==> 0 <= ues[i].q.queued <= MAX_PER_UE
    ensures 0 <= Waiting(ues) <= |ues| * MAX_PER_UE
  {
    if ues != [] { WaitingBounds(ues[1..]); }
  }

  /** As long as one UE is below its limit, the pool has an entry for it. */
  lemma EntryAvailable(envs: Envs, w: World, i: nat)
    requires Healthy(envs, w) && i < MAX_UE
    ensures w.free >= MAX_PER_UE - w.ues[i].q.queued && 0 <= w.free <= POOL
  {
    forall j | 0 <= j < MAX_UE ensures 0 <= w.ues[j].q.queued <= MAX_PER_UE {
      assert SlotOk(envs(j), w.ues[j], RR.Bit(w.active, j));
    }
    var full := w.ues[i].(q := w.ues[i].q.(queued := MAX_PER_UE));
    WaitingUpdate(w.ues, i, full);
    WaitingBounds(w.ues[i := full]);
    WaitingBounds(w.ues);
  }

  // ----- steps on one slot

  /** What a slot's trace gained. */
  function Gain(old_: seq<Rates.Event>, new_: seq<Rates.Event>): seq<Rates.Event> {
    if |old_| <= |new_| then new_[|old_|..] else []
  }

  /** Slot i becomes `u`; entries leave the pool and return to it as the trace says. */
  function Put(w: World, i: nat, u: Ue, bit: bool): (r: World)
    requires |w.ues| == MAX_UE && i < MAX_UE
    ensures |r.ues| == MAX_UE
  {
    w.(ues := w.ues[i := u], active := RR.SetBit(w.active, i, bit),
       free := w.free - (Held(u.trace) - Held(w.ues[i].trace)),
       log := w.log + Gain(w.ues[i].trace, u.trace))
  }

  /** A step that keeps its slot in order and its slot's address keeps everything. */
  lemma PutHealthy(envs: Envs, w: World, i: nat, u: Ue, bit: bool)
    requires Healthy(envs, w) && i < MAX_UE && SlotOk(envs(i), u, bit) && u.tb.ueIp == w.ues[i].tb.ueIp
    requires w.ues[i].trace <= u.trace
    ensures Healthy(envs, Put(w, i, u, bit))
  {
    hide Good, Owns, Idx.Indexes, Idx.AddressesUnique, LogOk, Held, Booked, Gain;
    var r := Put(w, i, u, bit);
    PutSlots(envs, w, i, u, bit);
    PutFree(envs, w, i, u, bit);
    Idx.RowChanges(IndexOf(w), i, u.tb);
    assert Tables(r.ues) == Tables(w.ues)[i := u.tb];
    PutBooked(envs, w, i, u, bit);
  }

  /** What a slot gains, the log gains; no other flow is concerned. */
  lemma PutBooked(envs: Envs, w: World, i: nat, u: Ue, bit: bool)
    requires Healthy(envs, w) && i < MAX_UE && Owns(u) && u.tb.ueIp == w.ues[i].tb.ueIp && w.ues[i].trace <= u.trace
    ensures |Put(w, i, u, bit).hash| == MAX_UE && Booked(Put(w, i, u, bit))
  {
    hide Good, Idx.Agrees, LogOk, Held, KeyBooked, Owns, SlotsOk, Put;
    assert |Put(w, i, u, bit).hash| == MAX_UE by { SameHash(w, i, u, bit); }
    forall key ensures KeyBooked(Put(w, i, u, bit), key) {
      PutKeyBooked(envs, w, i, u, bit, key);
    }
  }

  lemma SameHash(w: World, i: nat, u: Ue, bit: bool)
    requires |w.ues| == MAX_UE && i < MAX_UE && Idx.Agrees(IndexOf(w))
    ensures Put(w, i, u, bit).hash == w.hash && |w.hash| == MAX_UE
  {}

  lemma PutKeyBooked(envs: Envs, w: World, i: nat, u: Ue, bit: bool, key: FlowKey)
    requires Healthy(envs, w) && i < MAX_UE && Owns(u) && u.tb.ueIp == w.ues[i].tb.ueIp && w.ues[i].trace <= u.trace
    ensures |Put(w, i, u, bit).hash| == MAX_UE && KeyBooked(Put(w, i, u, bit), key)
  {
    hide Good, Idx.Indexes, Idx.AddressesUnique, LogOk, Held, Idx.Search, RR.SetBit, SlotsOk, OwnFlows, OwnEvents,
      History.Departures, History.Arrivals, History.Subseq;
    var gain := Gain(w.ues[i].trace, u.trace);
    assert w.ues[i].trace + gain == u.trace;
    assert KeyBooked(w, key);
    History.HistoryConcat(w.log, gain, key);
    var j := Idx.Search(w.hash, key.ueIp, 0);
    if j >= 0 { Idx.SearchHit(IndexOf(w), key.ueIp); }
    if key.ueIp == u.tb.ueIp && key.ueIp != 0 {
      Idx.SearchIff(IndexOf(w), key.ueIp, i);
      History.HistoryConcat(w.ues[i].trace, gain, key);
      var old_ := w.ues[i].trace;
      Regrouped(History.Departures(w.archive, key), History.Departures(old_, key), History.Departures(gain, key));
      Regrouped(History.Arrivals(w.archive, key), History.Arrivals(old_, key), History.Arrivals(gain, key));
    } else {
      OthersGain(gain, u, |w.ues[i].trace|, key);
      assert History.Departures(w.log, key) + [] == History.Departures(w.log, key);
      assert History.Arrivals(w.log, key) + [] == History.Arrivals(w.log, key);
    }
  }

  lemma OthersGain(gain: seq<Rates.Event>, u: Ue, from: nat, key: FlowKey)
    requires OwnEvents(u.trace, u.tb.ueIp) && from <= |u.trace| && gain == u.trace[from..]
    requires key.ueIp != u.tb.ueIp || key.ueIp == 0
    ensures History.Departures(gain, key) == [] && History.Arrivals(gain, key) == []
  {
    forall c | 0 <= c < |gain| ensures History.AboutTokens(gain[c]) || gain[c].key != key {
      assert OwnEvent(u.trace[from + c], u.tb.ueIp);
    }
    History.HistoryOfOthers(gain, key);
  }

  lemma PutSlots(envs: Envs, w: World, i: nat, u: Ue, bit: bool)
    requires |w.ues| == MAX_UE && SlotsOk(envs, w.ues, w.active) && i < MAX_UE && SlotOk(envs(i), u, bit)
    ensures SlotsOk(envs, Put(w, i, u, bit).ues, Put(w, i, u, bit).active)
  {
    hide SlotOk;
    var r := Put(w, i, u, bit);
    forall j | 0 <= j < MAX_UE ensures SlotOk(envs(j), r.ues[j], RR.Bit(r.active, j)) {
      assert j != i ==> SlotOk(envs(j), w.ues[j], RR.Bit(w.active, j));
    }
  }

  lemma PutFree(envs: Envs, w: World, i: nat, u: Ue, bit: bool)
    requires Healthy(envs, w) && i < MAX_UE && Owns(u)
    ensures Put(w, i, u, bit).free == POOL - Waiting(Put(w, i, u, bit).ues)
  {
    hide Good, Idx.Agrees, LogOk, Held;
    assert SlotOk(envs(i), w.ues[i], RR.Bit(w.active, i));
    WaitingUpdate(w.ues, i, u);
  }

  // ----- packets

  datatype Found = Found(w: World, idx: int)

  /** ConfigureDlShaperForPdr, Session-AMBR part: the slot of an address, opened if needed. */
  function Configure(envs: Envs, w: World, ip: nat, rate: nat, conflict: bool): (r: Found)
    requires Healthy(envs, w)
    ensures -1 <= r.idx < MAX_UE && |r.w.ues| == MAX_UE
  {
    var i := Idx.Search(w.hash, ip, 0);
    if i >= 0 then
      assert SlotOk(envs(i), w.ues[i], RR.Bit(w.active, i));
      Found(Put(w, i, Do(envs(i), w.ues[i], OnAmbr(rate, conflict)), RR.Bit(w.active, i)), i)
    else
      var j := Idx.FreeRow(Tables(w.ues), 0);
      if j < 0 then Found(w, -1)
      else
        assert SlotOk(envs(j), w.ues[j], RR.Bit(w.active, j));
        var u := Do(envs(j), w.ues[j], OnAdd(ip, rate, conflict));
        var h := Idx.Insert(w.hash, ip, j);
        Found(Put(w.(hash := h.hash), j, u, RR.Bit(w.active, j)), j)
  }

  /** The index inside is the one that addEntrybyUeIp leaves; its insertion never fails. */
  lemma ConfigureAdds(envs: Envs, w: World, ip: nat, rate: nat, conflict: bool)
    requires Healthy(envs, w) && ip != 0
    ensures
      var r := Configure(envs, w, ip, rate, conflict);
      r.idx >= 0 ==>
        && IndexOf(r.w) == Idx.Add(IndexOf(w), ip, rate, conflict, Now(envs(r.idx), w.ues[r.idx])).x
        && r.w.ues[r.idx].tb.ueIp == ip
    ensures var r := Configure(envs, w, ip, rate, conflict); r.idx < 0 ==> r.w == w && Idx.FreeRow(Tables(w.ues), 0) < 0
  {
    hide Good, Owns, Idx.Indexes, Idx.AddressesUnique, LogOk, Held, Idx.Search, Idx.Insert;
    var x := IndexOf(w);
    var i := Idx.Search(w.hash, ip, 0);
    var r := Configure(envs, w, ip, rate, conflict);
    if i >= 0 {
      Idx.SearchHit(x, ip);
      assert Tables(r.w.ues) == x.table[i := r.w.ues[i].tb];
    } else {
      var j := Idx.FreeRow(x.table, 0);
      if j >= 0 {
        forall k | 0 <= k < MAX_UE ensures x.table[k].ueIp != ip { Idx.SearchIff(x, ip, k); }
        Idx.InsertAgrees(x, j, NewUe(ip, rate, conflict, Now(envs(j), w.ues[j])));
        assert Tables(r.w.ues) == x.table[j := r.w.ues[j].tb];
      }
    }
  }

  lemma ConfigureHealthy(envs: Envs, w: World, ip: nat, rate: nat, conflict: bool)
    requires Healthy(envs, w) && ip != 0
    ensures Healthy(envs, Configure(envs, w, ip, rate, conflict).w)
  {
    hide Good, Owns, Idx.Indexes, Idx.AddressesUnique, LogOk, Held, Idx.Search, Idx.Insert, Booked, Gain;
    ConfigureAdds(envs, w, ip, rate, conflict);
    var r := Configure(envs, w, ip, rate, conflict);
    if r.idx >= 0 {
      var i := r.idx;
      var u := w.ues[i];
      assert SlotOk(envs(i), u, RR.Bit(w.active, i));
      Idx.AddAgreesIff(IndexOf(w), ip, rate, conflict, Now(envs(i), u));
      var op := if Idx.Search(w.hash, ip, 0) >= 0 then OnAmbr(rate, conflict) else OnAdd(ip, rate, conflict);
      DoGood(envs(i), u, op);
      ConfigureOwns(envs(i), u, op);
      var v := Do(envs(i), u, op);
      if op.OnAmbr? {
        PutHealthy(envs, w, i, v, RR.Bit(w.active, i));
      } else {
        AddHealthy(envs, w, r.w, i, v, ip);
      }
    }
  }

  /** A slot is given to a new UE. */
  lemma AddHealthy(envs: Envs, w: World, r: World, i: nat, v: Ue, ip: nat)
    requires Healthy(envs, w) && i < MAX_UE && ip != 0 && |w.hash| == MAX_UE && Idx.Search(w.hash, ip, 0) < 0
    requires w.ues[i].tb.ueIp == 0 && w.ues[i].trace == [] && v.tb.ueIp == ip
    requires SlotOk(envs(i), v, RR.Bit(w.active, i))
    requires forall c :: 0 <= c < |v.trace| ==> History.AboutTokens(v.trace[c])
    requires r == Put(w.(hash := r.hash), i, v, RR.Bit(w.active, i)) && Idx.Agrees(IndexOf(r))
    ensures Healthy(envs, r)
  {
    hide Good, Owns, Idx.Indexes, Idx.AddressesUnique, LogOk, Held, Idx.Search, Booked, SlotOk;
    PutSlots(envs, w, i, v, RR.Bit(w.active, i));
    assert Owns(v) by { OwnsIt(envs(i), v, RR.Bit(w.active, i)); }
    PutFree(envs, w, i, v, RR.Bit(w.active, i));
    assert v.trace[0..] == v.trace;
    OpenBooked(envs, w, r, i, v, ip);
  }

  lemma OwnsIt(env: Env, u: Ue, bit: bool)
    requires SlotOk(env, u, bit)
    ensures Owns(u)
  {}

  /** Opening a slot writes nothing about packets. */
  lemma OpenBooked(envs: Envs, w: World, r: World, i: nat, v: Ue, ip: nat)
    requires Healthy(envs, w) && i < MAX_UE && |r.hash| == MAX_UE == |r.ues| && Idx.Agrees(IndexOf(r))
    requires w.ues[i].tb.ueIp == 0 && w.ues[i].trace == [] && ip != 0 && Idx.Search(w.hash, ip, 0) < 0
    requires r.ues == w.ues[i := v] && v.tb.ueIp == ip && r.archive == w.archive && r.log == w.log + v.trace
    requires forall c :: 0 <= c < |v.trace| ==> History.AboutTokens(v.trace[c])
    ensures Booked(r)
  {
    hide Good, Owns, Idx.Indexes, Idx.AddressesUnique, LogOk, Held, Idx.Search, SlotsOk;
    forall key ensures KeyBooked(r, key) {
      assert KeyBooked(w, key);
      History.HistoryConcat(w.log, v.trace, key);
      History.HistoryOfOthers(v.trace, key);
      if key.ueIp == ip {
        Idx.SearchIff(IndexOf(r), ip, i);
      } else {
        Idx.SearchByTable(IndexOf(w), IndexOf(r), key.ueIp);
        if Idx.Search(w.hash, key.ueIp, 0) >= 0 { Idx.SearchHit(IndexOf(w), key.ueIp); }
      }
    }
  }

  /** The QER of a guaranteed-bit-rate flow, as the PDR of the packet carries it. */
  datatype QerInfo = NonGbr | Gbr(id: nat, qfi: nat, gfbr: nat, mfbr: nat)

  datatype Outcome = Outcome(w: World, decision: Decision)

  /** shape_or_enqueue_packet on slot i. */
  function Shape(envs: Envs, w: World, i: nat, a: Arrival): (r: Outcome)
    requires Healthy(envs, w) && i < MAX_UE
    ensures |r.w.ues| == MAX_UE
  {
    assert SlotOk(envs(i), w.ues[i], RR.Bit(w.active, i));
    var v := Arrive(envs(i), w.ues[i], a, w.free > 0);
    Outcome(Put(w, i, v.u, v.decision == Enqueue || RR.Bit(w.active, i)), v.decision)
  }

  lemma ShapeHealthy(envs: Envs, w: World, i: nat, a: Arrival)
    requires Healthy(envs, w) && i < MAX_UE && a.key.ueIp == w.ues[i].tb.ueIp != 0
    ensures Healthy(envs, Shape(envs, w, i, a).w)
  {
    hide Good, Owns, Idx.Indexes, Idx.AddressesUnique, LogOk, Held, Arrive, Booked;
    var u, bit := w.ues[i], RR.Bit(w.active, i);
    assert SlotOk(envs(i), u, bit);
    ArriveGood(envs(i), u, a, w.free > 0);
    ArriveOwns(envs(i), u, a, w.free > 0);
    ArriveExtends(envs(i), u, a, w.free > 0);
    QueuedNat(envs(i), u);
    var v := Arrive(envs(i), u, a, w.free > 0);
    PutHealthy(envs, w, i, v.u, v.decision == Enqueue || bit);
  }

  lemma QueuedNat(env: Env, u: Ue)
    requires Good(env, u)
    ensures 0 <= u.q.queued <= MAX_PER_UE
  {}

  /** The configuration of a GBR flow's QER. */
  function SetQer(envs: Envs, w: World, i: nat, q: QerInfo): (r: World)
    requires Healthy(envs, w) && i < MAX_UE && q.Gbr?
    ensures |r.ues| == MAX_UE
  {
    assert SlotOk(envs(i), w.ues[i], RR.Bit(w.active, i));
    Put(w, i, Do(envs(i), w.ues[i], OnQer(q.id, q.qfi, q.gfbr, q.mfbr)), RR.Bit(w.active, i))
  }

  lemma SetQerHealthy(envs: Envs, w: World, i: nat, q: QerInfo)
    requires Healthy(envs, w) && i < MAX_UE && q.Gbr?
    ensures Healthy(envs, SetQer(envs, w, i, q)) && SetQer(envs, w, i, q).ues[i].tb.ueIp == w.ues[i].tb.ueIp
  {
    hide Good, Owns, Idx.Indexes, Idx.AddressesUnique, LogOk, Held, Booked;
    assert SlotOk(envs(i), w.ues[i], RR.Bit(w.active, i));
    var op := OnQer(q.id, q.qfi, q.gfbr, q.mfbr);
    DoGood(envs(i), w.ues[i], op);
    ConfigureOwns(envs(i), w.ues[i], op);
    PutHealthy(envs, w, i, Do(envs(i), w.ues[i], op), RR.Bit(w.active, i));
  }

  /** A downlink packet for an address: configure, then shape; without a slot it is dropped. */
  function Packet(envs: Envs, w: World, a: Arrival, rate: nat, conflict: bool, q: QerInfo): (r: Outcome)
    requires Healthy(envs, w) && a.key.ueIp != 0
  {
    ConfigureHealthy(envs, w, a.key.ueIp, rate, conflict);
    var c := Configure(envs, w, a.key.ueIp, rate, conflict);
    if c.idx < 0 then Outcome(c.w, Drop)
    else if q.NonGbr? then Shape(envs, c.w, c.idx, a)
    else
      SetQerHealthy(envs, c.w, c.idx, q);
      var w1 := SetQer(envs, c.w, c.idx, q);
      if RefreshQer(c.w.ues[c.idx].tb, q.id, q.qfi, q.gfbr, q.mfbr, Now(envs(c.idx), c.w.ues[c.idx])).ok
      then Shape(envs, w1, c.idx, a) else Outcome(w1, Drop)
  }

  lemma PacketHealthy(envs: Envs, w: World, a: Arrival, rate: nat, conflict: bool, q: QerInfo)
    requires Healthy(envs, w) && a.key.ueIp != 0
    ensures Healthy(envs, Packet(envs, w, a, rate, conflict, q).w)
  {
    hide Healthy, Configure, SetQer, Shape, RefreshQer, Good, Held;
    ConfigureHealthy(envs, w, a.key.ueIp, rate, conflict);
    ConfigureAdds(envs, w, a.key.ueIp, rate, conflict);
    var c := Configure(envs, w, a.key.ueIp, rate, conflict);
    if c.idx >= 0 {
      if q.Gbr? {
        SetQerHealthy(envs, c.w, c.idx, q);
        ShapeHealthy(envs, SetQer(envs, c.w, c.idx, q), c.idx, a);
      } else {
        ShapeHealthy(envs, c.w, c.idx, a);
      }
    }
  }

  // ----- drains

  datatype Total = Total(w: World, n: nat)

  /** One turn of drain_shaper_queues_budget: slot r, chosen by the scan, is drained. */
  function VisitSlot(envs: Envs, w: World, tried: RR.Bitmap, visited: nat, r: nat, budget: nat): (t: Total)
    requires Healthy(envs, w) && r < MAX_UE
    ensures |t.w.ues| == MAX_UE && t.n <= budget
  {
    assert SlotOk(envs(r), w.ues[r], RR.Bit(w.active, r));
    var d := DrainUe(envs(r), w.ues[r], budget);
    var v := RR.Visit(w.active, tried, w.cursor, r, visited);
    var w1 := w.(cursor := (r + 1) % MAX_UE, visits := w.visits + [v]);
    Total(Put(w1, r, d.u, d.u.q.queued > 0), d.n)
  }

  /** The state of a call before its `visited`-th turn: exactly slots that it has visited are
      marked as tried. */
  ghost predicate Trying(visits: seq<RR.Visit>, tried: RR.Bitmap, visited: nat) {
    && visited <= |visits| && (visited > 0 ==> visits[|visits| - 1].turn == visited - 1)
    && (forall ue :: 0 <= ue < MAX_UE && RR.Bit(tried, ue) ==>
          RR.ServedBetween(visits, |visits| - visited, |visits|, ue))
  }

  lemma LogGrows(visits: seq<RR.Visit>, cursor: nat, v: RR.Visit)
    requires LogOk(visits, cursor) && v.cursor == cursor && v.served < MAX_UE
    requires RR.IsNext(v.active, v.skip, v.cursor, v.served)
    requires v.turn < RR.SCAN_BUDGET && Trying(visits, v.skip, v.turn)
    ensures LogOk(visits + [v], (v.served + 1) % MAX_UE)
  {
    hide RR.IsNext, RR.Bit, RR.ServedBetween;
    var vs := visits + [v];
    forall k, ue | 0 <= k < |vs| && 0 <= ue < MAX_UE && RR.Bit(vs[k].skip, ue)
      ensures RR.ServedBetween(vs, k - vs[k].turn, k, ue)
    {
      ServedStays(visits, v, k - vs[k].turn, k, ue);
    }
  }

  lemma ServedStays(visits: seq<RR.Visit>, v: RR.Visit, from: int, to: int, ue: nat)
    requires RR.ServedBetween(visits, from, to, ue)
    ensures RR.ServedBetween(visits + [v], from, to, ue)
  {
    var j :| 0 <= j < |visits| && from <= j < to && visits[j].served == ue;
    assert (visits + [v])[j].served == ue;
  }

  lemma TryingGrows(visits: seq<RR.Visit>, v: RR.Visit)
    requires v.served < MAX_UE && Trying(visits, v.skip, v.turn)
    ensures Trying(visits + [v], RR.SetBit(v.skip, v.served, true), v.turn + 1)
  {
    hide RR.Bit;
    var vs, tried := visits + [v], RR.SetBit(v.skip, v.served, true);
    forall ue | 0 <= ue < MAX_UE && RR.Bit(tried, ue)
      ensures RR.ServedBetween(vs, |vs| - (v.turn + 1), |vs|, ue)
    {
      if ue == v.served {
        assert vs[|visits|].served == ue;
      } else {
        ServedStays(visits, v, |visits| - v.turn, |visits|, ue);
        var j :| 0 <= j < |vs| && |visits| - v.turn <= j < |visits| && vs[j].served == ue;
      }
    }
  }

  lemma VisitHealthy(envs: Envs, w: World, tried: RR.Bitmap, visited: nat, r: nat, budget: nat)
    requires Healthy(envs, w) && r < MAX_UE && RR.IsNext(w.active, tried, w.cursor, r)
    requires visited < RR.SCAN_BUDGET && Trying(w.visits, tried, visited)
    ensures Healthy(envs, VisitSlot(envs, w, tried, visited, r, budget).w)
    ensures Trying(VisitSlot(envs, w, tried, visited, r, budget).w.visits, RR.SetBit(tried, r, true), visited + 1)
  {
    hide Good, Owns, Idx.Agrees, LogOk, Held, DrainUe, Progress, Trying, Booked;
    assert SlotOk(envs(r), w.ues[r], RR.Bit(w.active, r));
    DrainOwns(envs(r), w.ues[r], budget);
    DrainExtends(envs(r), w.ues[r], budget);
    var v := RR.Visit(w.active, tried, w.cursor, r, visited);
    LogGrows(w.visits, w.cursor, v);
    TryingGrows(w.visits, v);
    var d := DrainUe(envs(r), w.ues[r], budget);
    var w1 := w.(cursor := (r + 1) % MAX_UE, visits := w.visits + [v]);
    assert |w.hash| == MAX_UE by { SameHash(w, r, d.u, true); }
    LogOnly(w, w1);
    AddressStays(envs(r), w.ues[r], d.u, budget);
    PutHealthy(envs, w1, r, d.u, d.u.q.queued > 0);
  }

  lemma NextHealthy(envs: Envs, w: World, tried: RR.Bitmap, visited: nat, r: int, budget: nat)
    requires Healthy(envs, w) && r == RR.NextFrom(w.active, tried, w.cursor, 0) && r >= 0
    requires visited < RR.SCAN_BUDGET && Trying(w.visits, tried, visited)
    ensures
      var t := VisitSlot(envs, w, tried, visited, r, budget);
      Healthy(envs, t.w) && Trying(t.w.visits, RR.SetBit(tried, r, true), visited + 1)
  {
    hide Healthy, VisitSlot, RR.NextFrom, RR.IsNext, RR.Eligible, Trying;
    RR.NextFromIsNext(w.active, tried, w.cursor);
    VisitHealthy(envs, w, tried, visited, r, budget);
  }

  lemma LogOnly(w: World, w1: World)
    requires |w.hash| == MAX_UE == |w.ues| && Booked(w)
    requires w1.hash == w.hash && w1.ues == w.ues && w1.log == w.log && w1.archive == w.archive
    ensures Booked(w1)
  {
    hide Idx.Search;
    forall key ensures KeyBooked(w1, key) { assert KeyBooked(w, key); }
  }

  /** A slot that scans visit belongs to a UE; that of a free row holds nothing. */
  lemma AddressStays(env: Env, u: Ue, v: Ue, budget: nat)
    requires Good(env, u) && Owns(u) && v == DrainUe(env, u, budget).u && (u.tb.ueIp == 0 ==> u.trace == [])
    ensures v.tb.ueIp == 0 ==> v.trace == []
  {
    hide Good, DrainRound, Progress;
    DrainOwns(env, u, budget);
    if u.tb.ueIp == 0 { FreeRowEmpty(env, u); }
  }

  /** drain_shaper_queues_budget from its `visited`-th turn on. */
  function DrainFrom(envs: Envs, w: World, tried: RR.Bitmap, visited: nat, budget: nat): (t: Total)
    requires Healthy(envs, w) && visited <= RR.SCAN_BUDGET && Trying(w.visits, tried, visited)
    ensures Healthy(envs, t.w) && t.n <= budget
    decreases RR.SCAN_BUDGET - visited
  {
    if visited == RR.SCAN_BUDGET || budget == 0 then Total(w, 0)
    else
      var r := RR.NextFrom(w.active, tried, w.cursor, 0);
      if r < 0 then Total(w, 0)
      else
        NextHealthy(envs, w, tried, visited, r, budget);
        var t := VisitSlot(envs, w, tried, visited, r, budget);
        var rest := DrainFrom(envs, t.w, RR.SetBit(tried, r, true), visited + 1, budget - t.n);
        Total(rest.w, t.n + rest.n)
  }

  // ----- session removal

  /** The handler of a session removal: flush the slot, clear the row, rebuild the hash. The
      history of the UE in its slot is put away. */
  function RemoveSession(envs: Envs, w: World, ip: nat): (r: World)
    requires Healthy(envs, w)
    ensures |r.ues| == MAX_UE
  {
    var i := Idx.Search(w.hash, ip, 0);
    if i < 0 then w
    else
      assert SlotOk(envs(i), w.ues[i], RR.Bit(w.active, i));
      var v := Do(envs(i), w.ues[i], OnRemove);
      var r := Put(w, i, v, false);
      r.(ues := r.ues[i := Vacated(v.ticks)], archive := r.archive + v.trace,
         hash := Idx.Rebuilt(w.hash, Tables(r.ues), MAX_UE))
  }

  lemma RemoveHealthy(envs: Envs, w: World, ip: nat)
    requires Healthy(envs, w)
    ensures Healthy(envs, RemoveSession(envs, w, ip))
    ensures IndexOf(RemoveSession(envs, w, ip)) == Idx.Remove(IndexOf(w), ip).x
  {
    hide Good, Owns, Idx.Indexes, Idx.AddressesUnique, LogOk, Held, Idx.Search, Idx.Rebuilt, Booked, Gain;
    var i := Idx.Search(w.hash, ip, 0);
    if i >= 0 {
      var u := w.ues[i];
      assert SlotOk(envs(i), u, RR.Bit(w.active, i));
      RemoveOwns(envs(i), u);
      var v := Do(envs(i), u, OnRemove);
      var e := Vacated(v.ticks);
      VacatedGood(envs(i), v.ticks) by { SteadyEnv(envs(i), u); }
      PutSlots(envs, w, i, e, false);
      RemoveFree(envs, w, i, v);
      assert Tables(w.ues[i := v]) == Tables(w.ues)[i := ZeroUe()];
      assert Tables(w.ues[i := e]) == Tables(w.ues)[i := ZeroUe()];
      Idx.RemoveAgrees(IndexOf(w), ip);
      Idx.SearchHit(IndexOf(w), ip);
      var r := RemoveSession(envs, w, ip);
      assert r.ues == w.ues[i := e];
      RemoveBooked(envs, w, r, i, v, ip);
    }
  }

  lemma SteadyEnv(env: Env, u: Ue)
    requires Good(env, u)
    ensures Steady(env)
  {}

  lemma RemoveFree(envs: Envs, w: World, i: nat, v: Ue)
    requires Healthy(envs, w) && i < MAX_UE && v.q == Empty() && Held(v.trace) == 0
    ensures w.free - (Held(v.trace) - Held(w.ues[i].trace)) == POOL - Waiting(w.ues[i := Vacated(v.ticks)])
  {
    hide Good, Idx.Agrees, LogOk, Held, Booked;
    assert SlotOk(envs(i), w.ues[i], RR.Bit(w.active, i));
    WaitingUpdate(w.ues, i, Vacated(v.ticks));
  }

  /** A removal closes the history of its UE in order; no other flow is concerned. */
  lemma RemoveBooked(envs: Envs, w: World, r: World, i: nat, v: Ue, ip: nat)
    requires Healthy(envs, w) && i < MAX_UE && |r.hash| == MAX_UE && Idx.Agrees(IndexOf(r))
    requires w.ues[i].tb.ueIp == ip != 0 && Good(envs(i), w.ues[i]) && v == Do(envs(i), w.ues[i], OnRemove)
    requires w.ues[i].trace <= v.trace && OwnEvents(v.trace, ip) && v.q == Empty()
    requires r.ues == w.ues[i := Vacated(v.ticks)]
    requires r.log == w.log + Gain(w.ues[i].trace, v.trace) && r.archive == w.archive + v.trace
    ensures Booked(r)
  {
    hide Good, Owns, Idx.Agrees, LogOk, Held, KeyBooked, SlotsOk, Do, OwnEvents, Gain;
    forall key ensures KeyBooked(r, key) {
      RemoveKeyBooked(envs, w, r, i, v, ip, key);
    }
  }

  lemma RemoveKeyBooked(envs: Envs, w: World, r: World, i: nat, v: Ue, ip: nat, key: FlowKey)
    requires Healthy(envs, w) && i < MAX_UE && |r.hash| == MAX_UE && Idx.Agrees(IndexOf(r))
    requires w.ues[i].tb.ueIp == ip != 0 && Good(envs(i), w.ues[i]) && v == Do(envs(i), w.ues[i], OnRemove)
    requires w.ues[i].trace <= v.trace && OwnEvents(v.trace, ip)
    requires r.ues == w.ues[i := Vacated(v.ticks)]
    requires r.log == w.log + Gain(w.ues[i].trace, v.trace) && r.archive == w.archive + v.trace
    ensures KeyBooked(r, key)
  {
    hide Good, Owns, Idx.Indexes, Idx.AddressesUnique, LogOk, Held, Idx.Search, SlotsOk, Do, History.Departures,
      History.Arrivals, History.Subseq;
    var u := w.ues[i];
    var gain := Gain(u.trace, v.trace);
    assert u.trace + gain == v.trace;
    assert KeyBooked(w, key);
    History.HistoryConcat(w.log, gain, key);
    History.HistoryConcat(w.archive, v.trace, key);
    NoHistory(key);
    if key.ueIp == ip {
      Idx.SearchIff(IndexOf(w), ip, i);
      var k := Idx.Search(r.hash, ip, 0);
      if k >= 0 {
        Idx.SearchHit(IndexOf(r), ip);
        Idx.SearchIff(IndexOf(w), ip, k);
      }
      History.HistoryConcat(u.trace, gain, key);
      ClosedInOrder(envs(i), u, key);
      History.SubseqConcat(History.Departures(w.archive, key), History.Arrivals(w.archive, key),
                           History.Departures(v.trace, key), History.Arrivals(v.trace, key));
      Regrouped(History.Departures(w.archive, key), History.Departures(u.trace, key), History.Departures(gain, key));
      Regrouped(History.Arrivals(w.archive, key), History.Arrivals(u.trace, key), History.Arrivals(gain, key));
    } else {
      Idx.SearchByTable(IndexOf(w), IndexOf(r), key.ueIp);
      if Idx.Search(w.hash, key.ueIp, 0) >= 0 { Idx.SearchHit(IndexOf(w), key.ueIp); }
      OthersEvents(v.trace, ip, key);
      OthersEvents(gain, ip, key);
      assert History.Departures(w.log, key) + [] == History.Departures(w.log, key);
      assert History.Arrivals(w.log, key) + [] == History.Arrivals(w.log, key);
      assert History.Departures(w.archive, key) + [] == History.Departures(w.archive, key);
      assert History.Arrivals(w.archive, key) + [] == History.Arrivals(w.archive, key);
    }
  }

  lemma Regrouped<T>(a: seq<T>, b: seq<T>, c: seq<T>)
    ensures (a + b) + c == a + (b + c) == (a + (b + c)) + []
  {}

  lemma NoHistory(key: FlowKey)
    ensures History.Departures([], key) == [] && History.Arrivals([], key) == []
  {}

  lemma OthersEvents(evs: seq<Rates.Event>, ip: nat, key: FlowKey)
    requires OwnEvents(evs, ip) && key.ueIp != ip
    ensures History.Departures(evs, key) == [] && History.Arrivals(evs, key) == []
  {
    forall c | 0 <= c < |evs| ensures History.AboutTokens(evs[c]) || evs[c].key != key {
      assert OwnEvent(evs[c], ip);
    }
    History.HistoryOfOthers(evs, key);
  }

  lemma ClosedInOrder(env: Env, u: Ue, key: FlowKey)
    requires Good(env, u)
    ensures
      var tr := Do(env, u, OnRemove).trace;
      History.Subseq(History.Departures(tr, key), History.Arrivals(tr, key))
  {
    hide MeterInv, Inv;
    DoGood(env, u, OnRemove);
    InOrderNow(env, Do(env, u, OnRemove), key);
  }

  lemma InOrderNow(env: Env, u: Ue, key: FlowKey)
    requires Good(env, u)
    ensures History.Subseq(History.Departures(u.trace, key), History.Arrivals(u.trace, key))
  {
    hide MeterInv, Inv;
    assert History.InOrder(u.q.flows, u.trace, key);
    History.SubseqPrefix(History.Departures(u.trace, key), History.QueueOf(u.q.flows, key),
                         History.Arrivals(u.trace, key));
  }

  // ----- whole runs

  datatype Event = Arrives(a: Arrival, rate: nat, conflict: bool, q: QerInfo) | Drains(budget: nat) | Removes(ip: nat)

  /** Events the UPF can see: no packet is addressed to zero. */
  predicate Proper(e: Event) { e.Arrives? ==> e.a.key.ueIp != 0 }

  function NoneTried(): RR.Bitmap { seq(4, _ => seq(64, _ => false)) }

  lemma NoneTriedYet(visits: seq<RR.Visit>)
    ensures Trying(visits, NoneTried(), 0)
  {}

  function Step(envs: Envs, w: World, e: Event): World
    requires Healthy(envs, w) && Proper(e)
  {
    match e
    case Arrives(a, rate, conflict, q) => Packet(envs, w, a, rate, conflict, q).w
    case Drains(budget) =>
      NoneTriedYet(w.visits);
      DrainFrom(envs, w, NoneTried(), 0, budget).w
    case Removes(ip) => RemoveSession(envs, w, ip)
  }

  lemma StepHealthy(envs: Envs, w: World, e: Event)
    requires Healthy(envs, w) && Proper(e)
    ensures Healthy(envs, Step(envs, w, e))
  {
    hide Healthy, Packet, RemoveSession;
    match e
    case Arrives(a, rate, conflict, q) => PacketHealthy(envs, w, a, rate, conflict, q);
    case Drains(budget) =>
    case Removes(ip) => RemoveHealthy(envs, w, ip);
  }

  ghost predicate Reaches(envs: Envs, w: World, es: seq<Event>, v: World)
    decreases |es|
  {
    if es == [] then v == w
    else Healthy(envs, w) && Proper(es[0]) && Reaches(envs, Step(envs, w, es[0]), es[1..], v)
  }

  lemma {:induction false} RunHealthy(envs: Envs, w: World, es: seq<Event>, v: World)
    requires Healthy(envs, w) && Reaches(envs, w, es, v)
    ensures Healthy(envs, v)
    decreases |es|
  {
    hide Healthy, Step;
    if es != [] {
      StepHealthy(envs, w, es[0]);
      RunHealthy(envs, Step(envs, w, es[0]), es[1..], v);
    }
  }

  /** The state after start-up; the hash memory may hold anything. */
  function StartUp(hash: seq<Idx.Slot>): World
    requires |hash| == MAX_UE
  {
    World(seq(MAX_UE, _ => Fresh()), Idx.Unused(hash), NoneTried(), 0, POOL, [], [], [])
  }

  ghost predicate Reachable(envs: Envs, v: World) {
    exists hash: seq<Idx.Slot>, es :: |hash| == MAX_UE && Reaches(envs, StartUp(hash), es, v)
  }

  lemma StartHealthy(envs: Envs, hash: seq<Idx.Slot>)
    requires |hash| == MAX_UE && forall i: nat :: Steady(envs(i))
    ensures Healthy(envs, StartUp(hash))
  {
    hide Good, Inv;
    var w := StartUp(hash);
    forall i | 0 <= i < MAX_UE ensures SlotOk(envs(i), w.ues[i], RR.Bit(w.active, i)) {
      FreshGood(envs(i));
    }
    Idx.StartAgrees(hash);
    assert Tables(w.ues) == Idx.Start(hash).table;
    NothingWaiting(w.ues);
  }

  lemma {:induction false} NothingWaiting(ues: seq<Ue>)
    requires forall i :: 0 <= i < |ues| ==> ues[i].q.queued == 0
    ensures Waiting(ues) == 0
  {
    if ues != [] { NothingWaiting(ues[1..]); }
  }

  /** Over every run of packets, drains and removals, everything stays in order. */
  lemma AlwaysHealthy(envs: Envs, v: World)
    requires Reachable(envs, v) && forall i: nat :: Steady(envs(i))
    ensures Healthy(envs, v)
  {
    hide Healthy;
    var hash: seq<Idx.Slot>, es :| |hash| == MAX_UE && Reaches(envs, StartUp(hash), es, v);
    StartHealthy(envs, hash);
    RunHealthy(envs, StartUp(hash), es, v);
  }

  /** No UE is stranded: the scan sees a slot exactly when packets wait in it, and any
      MAX_UE + SCAN_BUDGET - 1 consecutive visits during which it has packets serve it. */
  lemma NoUeStranded(envs: Envs, v: World, ue: nat, from: nat)
    requires Reachable(envs, v) && (forall i: nat :: Steady(envs(i))) && ue < MAX_UE
    ensures |v.ues| == MAX_UE && (RR.Bit(v.active, ue) <==> v.ues[ue].q.queued > 0)
    ensures
      var to := from + MAX_UE + RR.SCAN_BUDGET - 1;
      to <= |v.visits| && (forall k :: from <= k < to ==> RR.Bit(v.visits[k].active, ue)) ==>
        RR.ServedBetween(v.visits, from, to, ue)
  {
    hide Good, Owns, Idx.Agrees, Booked, RR.ScansOk, RR.VisitsFollow, RR.ServedBetween;
    AlwaysHealthy(envs, v);
    assert SlotOk(envs(ue), v.ues[ue], RR.Bit(v.active, ue));
    var to := from + MAX_UE + RR.SCAN_BUDGET - 1;
    if to <= |v.visits| && (forall k :: from <= k < to ==> RR.Bit(v.visits[k].active, ue)) {
      RR.ServedInAnyWindow(v.visits, from, ue);
    }
  }

  /** The pool never decides: a packet that the limits admit always gets an entry. */
  lemma PoolNeverRefuses(envs: Envs, v: World, i: nat, a: Arrival)
    requires Reachable(envs, v) && (forall k: nat :: Steady(envs(k))) && i < MAX_UE
    ensures |v.ues| == MAX_UE && Good(envs(i), v.ues[i]) && 0 <= v.free <= POOL
    ensures Arrive(envs(i), v.ues[i], a, v.free > 0) == Arrive(envs(i), v.ues[i], a, true)
  {
    hide Owns, Idx.Agrees, History.Tracked, MeterInv, ListsOk, FlowsOk, LogOk;
    AlwaysHealthy(envs, v);
    EntryAvailable(envs, v, i);
    assert SlotOk(envs(i), v.ues[i], RR.Bit(v.active, i));
    if v.free == 0 { FullRefuses(envs(i), v.ues[i], a); }
  }

  /** A UE at its limit refuses or passes packets in the same way without the pool. */
  lemma FullRefuses(env: Env, u: Ue, a: Arrival)
    requires Good(env, u) && u.q.queued == MAX_PER_UE
    ensures Arrive(env, u, a, false) == Arrive(env, u, a, true)
  {
    hide History.Tracked, MeterInv, ListsOk, FlowsOk, UpdatePolicy, Push, Release, FastPath;
    var i := Lookup(u.q.flows, a.key, env.home(a.key), 0);
    if i >= 0 {
      PolicyQueued(u.q, i, a.hasGbr, a.qerId);
    } else if EntryOf(a).len != 0 && Admissible(u.tb, a.hasGbr, a.qerId, EntryOf(a).len) {
      NoFlow(u.q.flows, a.key, env.home(a.key));
      var p := FastPath(env, u, a);
      var free := FreeSlot(p.u.q.flows, env.home(a.key), 0);
      if free >= 0 { PolicyQueued(Claim(p.u.q, free, a.key), free, a.hasGbr, a.qerId); }
    }
  }

  /** Packets wait only in the slot of their own UE, also after the slot was reused, so no
      flow key is queued in two slots. */
  lemma FlowsStayHome(envs: Envs, v: World, i: nat, j: nat, f: nat)
    requires Reachable(envs, v) && (forall k: nat :: Steady(envs(k))) && i < MAX_UE && j < MAX_UE && f < MAX_FLOWS
    ensures |v.ues| == MAX_UE && |v.ues[i].q.flows| == MAX_FLOWS && |v.hash| == MAX_UE
    ensures v.ues[i].q.flows[f].inUse ==> v.ues[i].q.flows[f].key.ueIp == v.ues[i].tb.ueIp != 0
    ensures v.ues[i].q.flows[f].inUse ==> (Idx.Search(v.hash, v.ues[i].q.flows[f].key.ueIp, 0) == j <==> i == j)
  {
    hide History.Tracked, MeterInv, ListsOk, FlowsOk, LogOk, Idx.Indexes, Idx.Search;
    AlwaysHealthy(envs, v);
    assert SlotOk(envs(i), v.ues[i], RR.Bit(v.active, i));
    if v.ues[i].q.flows[f].inUse {
      Idx.SearchIff(IndexOf(v), v.ues[i].tb.ueIp, i);
      Idx.SearchIff(IndexOf(v), v.ues[i].tb.ueIp, j);
    }
  }

  /** In every slot of every run, flows leave in order, buckets honour their rates, packets
      are conserved and the queues are well formed. */
  lemma SlotsKeepTheirPromises(envs: Envs, v: World, i: nat, key: FlowKey, b: BucketId, t: History.Tagged)
    requires Reachable(envs, v) && (forall k: nat :: Steady(envs(k))) && i < MAX_UE
    ensures |v.ues| == MAX_UE && Inv(v.ues[i].q)
    ensures var u := v.ues[i]; History.Subseq(History.Departures(u.trace, key), History.Arrivals(u.trace, key))
    ensures
      var u := v.ues[i];
      BucketOf(u.tb, b) ==> WithinRate(Get(u.tb, b), AccountOf(u.trace, b), Now(envs(i), u), envs(i).hz)
    ensures
      var u := v.ues[i];
      History.Entered(u.trace, t) == History.Released(u.trace, t) + History.Waiting(u.q.flows, t)
  {
    hide Inv, LogOk, Idx.Agrees, Owns, MeterInv, Timely;
    AlwaysHealthy(envs, v);
    assert SlotOk(envs(i), v.ues[i], RR.Bit(v.active, i));
    var u := v.ues[i];
    assert History.InOrder(u.q.flows, u.trace, key) && History.Balanced(u.q.flows, u.trace, t);
    History.SubseqPrefix(History.Departures(u.trace, key), History.QueueOf(u.q.flows, key),
                         History.Arrivals(u.trace, key));
    if BucketOf(u.tb, b) { RateBound(u.tb, u.trace, b, Now(envs(i), u), envs(i).hz); }
  }

  /** Over the whole life of the system, also when its UE is removed and comes back in another
      slot, the packets of a flow leave in the order in which they arrived. */
  lemma KeysLeaveInOrder(envs: Envs, v: World, key: FlowKey)
    requires Reachable(envs, v) && forall k: nat :: Steady(envs(k))
    ensures History.Subseq(History.Departures(v.log, key), History.Arrivals(v.log, key))
  {
    hide Good, Owns, LogOk, Idx.Indexes, Idx.Search;
    AlwaysHealthy(envs, v);
    assert KeyBooked(v, key);
    var i := Idx.Search(v.hash, key.ueIp, 0);
    if i >= 0 {
      assert SlotOk(envs(i), v.ues[i], RR.Bit(v.active, i));
      InOrderNow(envs(i), v.ues[i], key);
    }
    var cur := Current(v, key);
    History.SubseqConcat(History.Departures(v.archive, key), History.Arrivals(v.archive, key),
                         History.Departures(cur, key), History.Arrivals(cur, key));
  }
}
