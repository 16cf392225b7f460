/** What a downlink packet does to all UEs together: the slot it gets, its configuration and the
    shaper's decision (5gc/upf_u/upf_u.c:580-685, 1291-1334, 5gc/upf_u/upf_u_trtcm.c:482-656). */
module PacketPath {
  import opened Common
  import opened Sched
  import opened Rates
  import opened Shaper
  import opened Ownership
  import Idx = UeIndex
  import RR = RoundRobin
  import Sys = System

  /** The row of an address: the one that has it, else the first that no UE has, else none. */
  ghost predicate IsRow(ues: seq<Ue>, ip: nat, i: int) {
    && |ues| == 256 && -1 <= i < 256
    && (forall j :: 0 <= j < 256 && ues[j].tb.ueIp == ip ==> i == j)
    && (i < 0 ==> forall j :: 0 <= j < 256 ==> ues[j].tb.ueIp != 0)
    && (i >= 0 && ues[i].tb.ueIp != ip ==>
          ues[i].tb.ueIp == 0 && forall j :: 0 <= j < i ==> ues[j].tb.ueIp != 0)
  }

  /** The slot with the Session-AMBR of the packet: refreshed, or set for a new UE. */
  ghost function WithAmbr(env: Env, u: Ue, ip: nat, rate: nat, conflict: bool): Ue
    requires Good(env, u)
  {
    if u.tb.ueIp == ip then Do(env, u, OnAmbr(rate, conflict)) else Do(env, u, OnAdd(ip, rate, conflict))
  }

  /** Then with the QER of the packet. */
  ghost function WithQer(env: Env, u: Ue, q: Sys.QerInfo): Ue
    requires Good(env, u)
  {
    if q.NonGbr? then u else Do(env, u, OnQer(q.id, q.qfi, q.gfbr, q.mfbr))
  }

  /** The QER, if there is one, was set. */
  ghost predicate QerSet(env: Env, u: Ue, q: Sys.QerInfo) {
    q.Gbr? ==> RefreshQer(u.tb, q.id, q.qfi, q.gfbr, q.mfbr, Now(env, u)).ok
  }

  /** From the configured slot `u` to `v`: the QER is set and the packet shaped, or it is dropped. */
  ghost predicate Decides(env: Env, u: Ue, a: Arrival, q: Sys.QerInfo, v: Ue, d: Decision) {
    && Good(env, u) && Good(env, WithQer(env, u, q))
    && var x := WithQer(env, u, q);
       if QerSet(env, u, q) then v == Arrive(env, x, a, true).u && d == Arrive(env, x, a, true).decision
       else v == x && d == Drop
  }

  lemma WithGood(env: Env, u: Ue, ip: nat, rate: nat, conflict: bool, q: Sys.QerInfo)
    requires Good(env, u)
    ensures Good(env, WithAmbr(env, u, ip, rate, conflict))
    ensures Good(env, WithQer(env, u, q))
  {
    hide Good, Do;
    DoGood(env, u, OnAmbr(rate, conflict));
    DoGood(env, u, OnAdd(ip, rate, conflict));
    if q.Gbr? { DoGood(env, u, OnQer(q.id, q.qfi, q.gfbr, q.mfbr)); }
  }

  lemma SlotGood(envs: Sys.Envs, w: Sys.World, i: nat)
    requires Sys.Healthy(envs, w) && i < MAX_UE
    ensures |w.ues| == MAX_UE && Good(envs(i), w.ues[i])
  {
    hide Good, Sys.Booked, Idx.Agrees, Owns;
    assert Sys.SlotOk(envs(i), w.ues[i], RR.Bit(w.active, i));
  }

  /** Configuring finds the row of the address, sets its Session-AMBR and touches no other. */
  lemma ConfigureMeans(envs: Sys.Envs, w: Sys.World, ip: nat, rate: nat, conflict: bool)
    requires Sys.Healthy(envs, w) && ip != 0
    ensures
      var c := Sys.Configure(envs, w, ip, rate, conflict);
      && IsRow(w.ues, ip, c.idx) && (c.idx < 0 ==> c.w == w)
      && (c.idx >= 0 ==>
            && Good(envs(c.idx), w.ues[c.idx])
            && c.w.ues == w.ues[c.idx := WithAmbr(envs(c.idx), w.ues[c.idx], ip, rate, conflict)])
  {
    hide Good, Do, Idx.Search, Idx.Insert, Sys.Gain, Held, Sys.Booked, RR.SetBit, RR.Bit, Idx.Indexes;
    var c := Sys.Configure(envs, w, ip, rate, conflict);
    if c.idx >= 0 { SlotGood(envs, w, c.idx); }
    forall j | 0 <= j < MAX_UE ensures Idx.Search(w.hash, ip, 0) == j <==> w.ues[j].tb.ueIp == ip {
      Idx.SearchIff(Sys.IndexOf(w), ip, j);
    }
    if Idx.Search(w.hash, ip, 0) < 0 { FirstFree(Sys.Tables(w.ues), 0); }
  }

  lemma {:induction false} FirstFree(table: seq<UeTb>, i: nat)
    requires i <= |table|
    ensures var r := Idx.FreeRow(table, i); forall j :: i <= j < (if r < 0 then |table| else r) ==> table[j].ueIp != 0
    decreases |table| - i
  {
    if i < |table| && table[i].ueIp != 0 { FirstFree(table, i + 1); }
  }

  /** Shaping in a slot is what the slot decides with a free entry at hand. */
  lemma ShapeMeans(envs: Sys.Envs, w: Sys.World, i: nat, a: Arrival)
    requires Sys.Healthy(envs, w) && i < MAX_UE
    ensures |w.ues| == MAX_UE && Good(envs(i), w.ues[i])
    ensures
      var o, v := Sys.Shape(envs, w, i, a), Arrive(envs(i), w.ues[i], a, true);
      o.decision == v.decision && o.w.ues == w.ues[i := v.u]
  {
    hide Good, Arrive, Sys.Gain, Held, Sys.Booked, Sys.Healthy, RR.SetBit, RR.Bit;
    SlotGood(envs, w, i);
    Sys.EntryAvailable(envs, w, i);
    Sys.QueuedNat(envs(i), w.ues[i]);
    if w.free <= 0 { Sys.FullRefuses(envs(i), w.ues[i], a); }
  }

  /** A packet is dropped without a trace iff no row has or can take its address. Otherwise it
      configures the one row, no other slot changes, and the decision is the one of that slot's
      shaper, unless the QER could not be set: the shared pool of entries never matters. */
  lemma PacketMeans(envs: Sys.Envs, w: Sys.World, a: Arrival, rate: nat, conflict: bool, q: Sys.QerInfo)
    returns (i: int)
    requires Sys.Healthy(envs, w) && a.key.ueIp != 0
    ensures IsRow(w.ues, a.key.ueIp, i)
    ensures
      var o := Sys.Packet(envs, w, a, rate, conflict, q);
      if i < 0 then o.w == w && o.decision == Drop
      else
        && |o.w.ues| == 256 && Good(envs(i), w.ues[i])
        && (forall j :: 0 <= j < 256 && j != i ==> o.w.ues[j] == w.ues[j])
        && Decides(envs(i), WithAmbr(envs(i), w.ues[i], a.key.ueIp, rate, conflict), a, q, o.w.ues[i], o.decision)
  {
    hide Sys.Healthy, Sys.Configure, Sys.Shape, Good, Do, Arrive, RefreshQer;
    var ip := a.key.ueIp;
    ConfigureMeans(envs, w, ip, rate, conflict);
    Sys.ConfigureHealthy(envs, w, ip, rate, conflict);
    var c := Sys.Configure(envs, w, ip, rate, conflict);
    i := c.idx;
    if i >= 0 {
      WithGood(envs(i), w.ues[i], ip, rate, conflict, q);
      var u := WithAmbr(envs(i), w.ues[i], ip, rate, conflict);
      assert c.w.ues[i] == u;
      WithGood(envs(i), u, ip, rate, conflict, q);
      if q.NonGbr? {
        ShapeMeans(envs, c.w, i, a);
      } else {
        Sys.SetQerHealthy(envs, c.w, i, q);
        SetMeans(envs, c.w, i, q);
        ShapeMeans(envs, Sys.SetQer(envs, c.w, i, q), i, a);
      }
    }
  }

  lemma SetMeans(envs: Sys.Envs, w: Sys.World, i: nat, q: Sys.QerInfo)
    requires Sys.Healthy(envs, w) && i < MAX_UE && q.Gbr?
    ensures |w.ues| == MAX_UE && Good(envs(i), w.ues[i])
    ensures Sys.SetQer(envs, w, i, q).ues == w.ues[i := WithQer(envs(i), w.ues[i], q)]
  {
    hide Good, Do, Sys.Gain, Held, Sys.Booked, Sys.Healthy, RR.SetBit, RR.Bit;
    SlotGood(envs, w, i);
  }
}
