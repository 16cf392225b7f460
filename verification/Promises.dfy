/** What holds of one slot from start-up holds of all slots of the system, also of those that
    were vacated and reused: every step of the system is a sequence of operations on slots
    (5gc/upf_u/upf_u.c:941-961, 1291-1334, 1605-1618, 1893-1903). */
module Promises {
  import opened Common
  import opened Sched
  import opened TokenBucket
  import opened Rates
  import opened Shaper
  import opened Turns
  import opened Admission
  import opened Dropping
  import opened Billing
  import opened Ownership
  import Gains
  import Idx = UeIndex
  import RR = RoundRobin
  import Sys = System

  /** An operation on slot i, or the end of its UE. */
  datatype Move = On(i: nat, op: Op) | Vacates(i: nat)

  /** The slots, and what happened to packets in all of them, in order. */
  datatype Slots = Slots(ues: seq<Ue>, log: seq<Event>)

  function SlotsOf(w: Sys.World): Slots { Slots(w.ues, w.log) }

  ghost predicate CanMove(envs: Sys.Envs, s: Slots, m: Move) {
    |s.ues| == MAX_UE && m.i < MAX_UE && Good(envs(m.i), s.ues[m.i])
  }

  ghost function Moved(envs: Sys.Envs, s: Slots, m: Move): Slots
    requires CanMove(envs, s, m)
  {
    match m
    case On(i, op) =>
      var v := Do(envs(i), s.ues[i], op);
      Slots(s.ues[i := v], s.log + Sys.Gain(s.ues[i].trace, v.trace))
    case Vacates(i) => s.(ues := s.ues[i := Vacated(s.ues[i].ticks)])
  }

  ghost predicate Moves(envs: Sys.Envs, s: Slots, ms: seq<Move>, t: Slots)
    decreases |ms|
  {
    if ms == [] then s == t else CanMove(envs, s, ms[0]) && Moves(envs, Moved(envs, s, ms[0]), ms[1..], t)
  }

  lemma MovesFirst(envs: Sys.Envs, s: Slots, m: Move, ms: seq<Move>, t: Slots)
    requires CanMove(envs, s, m) && Moves(envs, Moved(envs, s, m), ms, t)
    ensures Moves(envs, s, [m] + ms, t)
  {
    hide CanMove, Moved;
    assert ([m] + ms)[1..] == ms;
  }

  lemma CanAlways(envs: Sys.Envs, w: Sys.World, i: nat)
    requires Sys.Healthy(envs, w) && i < MAX_UE
    ensures |w.ues| == MAX_UE && Good(envs(i), w.ues[i])
    ensures CanMove(envs, SlotsOf(w), Vacates(i)) && forall op :: CanMove(envs, SlotsOf(w), On(i, op))
  {
    hide Good, Sys.Booked, Idx.Agrees, Owns;
    assert Sys.SlotOk(envs(i), w.ues[i], RR.Bit(w.active, i));
  }

  // ----- the steps of the system as moves

  function ConfigureOp(w: Sys.World, ip: nat, rate: nat, conflict: bool): Op
    requires |w.hash| == MAX_UE
  {
    if Idx.Search(w.hash, ip, 0) >= 0 then OnAmbr(rate, conflict) else OnAdd(ip, rate, conflict)
  }

  lemma ConfigureMoves(envs: Sys.Envs, w: Sys.World, ip: nat, rate: nat, conflict: bool)
    requires Sys.Healthy(envs, w)
    ensures |w.hash| == MAX_UE
    ensures
      var c := Sys.Configure(envs, w, ip, rate, conflict);
      if c.idx < 0 then c.w == w
      else
        var m := On(c.idx, ConfigureOp(w, ip, rate, conflict));
        CanMove(envs, SlotsOf(w), m) && SlotsOf(c.w) == Moved(envs, SlotsOf(w), m)
  {
    hide Good, Do, Idx.Search, Idx.Insert, Sys.Gain, Held, Sys.Booked, RR.SetBit, RR.Bit;
    var c := Sys.Configure(envs, w, ip, rate, conflict);
    if c.idx >= 0 { CanAlways(envs, w, c.idx); }
  }

  lemma SetQerMoves(envs: Sys.Envs, w: Sys.World, i: nat, q: Sys.QerInfo)
    requires Sys.Healthy(envs, w) && i < MAX_UE && q.Gbr?
    ensures
      var m := On(i, OnQer(q.id, q.qfi, q.gfbr, q.mfbr));
      CanMove(envs, SlotsOf(w), m) && SlotsOf(Sys.SetQer(envs, w, i, q)) == Moved(envs, SlotsOf(w), m)
  {
    hide Good, Do, Sys.Gain, Held, Sys.Booked, Sys.Healthy, RR.SetBit, RR.Bit;
    CanAlways(envs, w, i);
  }

  lemma ShapeMoves(envs: Sys.Envs, w: Sys.World, i: nat, a: Arrival)
    requires Sys.Healthy(envs, w) && i < MAX_UE
    ensures
      var m := On(i, OnPacket(a, w.free > 0));
      CanMove(envs, SlotsOf(w), m) && SlotsOf(Sys.Shape(envs, w, i, a).w) == Moved(envs, SlotsOf(w), m)
  {
    hide Good, Arrive, Sys.Gain, Held, Sys.Booked, Sys.Healthy, RR.SetBit, RR.Bit;
    CanAlways(envs, w, i);
  }

  /** A downlink packet configures its slot, then its QER, and is shaped if that went well. */
  ghost function PacketMoves(envs: Sys.Envs, w: Sys.World, a: Arrival, rate: nat, conflict: bool, q: Sys.QerInfo)
    : seq<Move>
    requires Sys.Healthy(envs, w) && a.key.ueIp != 0
  {
    Sys.ConfigureHealthy(envs, w, a.key.ueIp, rate, conflict);
    ConfigureMoves(envs, w, a.key.ueIp, rate, conflict);
    var c := Sys.Configure(envs, w, a.key.ueIp, rate, conflict);
    if c.idx < 0 then []
    else [On(c.idx, ConfigureOp(w, a.key.ueIp, rate, conflict))] + LaterMoves(envs, c.w, c.idx, a, q)
  }

  ghost function LaterMoves(envs: Sys.Envs, w: Sys.World, i: nat, a: Arrival, q: Sys.QerInfo): seq<Move>
    requires Sys.Healthy(envs, w) && i < MAX_UE
  {
    if q.NonGbr? then [On(i, OnPacket(a, w.free > 0))]
    else
      var w1 := Sys.SetQer(envs, w, i, q);
      var config := On(i, OnQer(q.id, q.qfi, q.gfbr, q.mfbr));
      if RefreshQer(w.ues[i].tb, q.id, q.qfi, q.gfbr, q.mfbr, Now(envs(i), w.ues[i])).ok
      then [config] + [On(i, OnPacket(a, w1.free > 0))] else [config]
  }

  lemma PacketMovesSo(envs: Sys.Envs, w: Sys.World, a: Arrival, rate: nat, conflict: bool, q: Sys.QerInfo)
    requires Sys.Healthy(envs, w) && a.key.ueIp != 0
    ensures
      Moves(envs, SlotsOf(w), PacketMoves(envs, w, a, rate, conflict, q),
            SlotsOf(Sys.Packet(envs, w, a, rate, conflict, q).w))
  {
    hide Sys.Healthy, Sys.Configure, Sys.SetQer, Sys.Shape, RefreshQer, Good, CanMove, Moved, LaterMoves;
    Sys.ConfigureHealthy(envs, w, a.key.ueIp, rate, conflict);
    ConfigureMoves(envs, w, a.key.ueIp, rate, conflict);
    var c := Sys.Configure(envs, w, a.key.ueIp, rate, conflict);
    if c.idx >= 0 {
      LaterMovesSo(envs, c.w, c.idx, a, q);
      MovesFirst(envs, SlotsOf(w), On(c.idx, ConfigureOp(w, a.key.ueIp, rate, conflict)),
                 LaterMoves(envs, c.w, c.idx, a, q), SlotsOf(Sys.Packet(envs, w, a, rate, conflict, q).w));
    }
  }

  lemma LaterMovesSo(envs: Sys.Envs, w: Sys.World, i: nat, a: Arrival, q: Sys.QerInfo)
    requires Sys.Healthy(envs, w) && i < MAX_UE
    ensures q.NonGbr? ==> Moves(envs, SlotsOf(w), LaterMoves(envs, w, i, a, q), SlotsOf(Sys.Shape(envs, w, i, a).w))
    ensures
      q.Gbr? ==>
        var w1 := Sys.SetQer(envs, w, i, q);
        var ok := RefreshQer(w.ues[i].tb, q.id, q.qfi, q.gfbr, q.mfbr, Now(envs(i), w.ues[i])).ok;
        && Sys.Healthy(envs, w1)
        && Moves(envs, SlotsOf(w), LaterMoves(envs, w, i, a, q),
                 SlotsOf(if ok then Sys.Shape(envs, w1, i, a).w else w1))
  {
    hide Sys.Healthy, Sys.SetQer, Sys.Shape, RefreshQer, Good, CanMove, Moved;
    if q.NonGbr? {
      ShapeMoves(envs, w, i, a);
      OneMove(envs, SlotsOf(w), On(i, OnPacket(a, w.free > 0)));
    } else {
      var w1 := Sys.SetQer(envs, w, i, q);
      var config := On(i, OnQer(q.id, q.qfi, q.gfbr, q.mfbr));
      Sys.SetQerHealthy(envs, w, i, q);
      SetQerMoves(envs, w, i, q);
      ShapeMoves(envs, w1, i, a);
      OneMove(envs, SlotsOf(w), config);
      OneMove(envs, SlotsOf(w1), On(i, OnPacket(a, w1.free > 0)));
      MovesFirst(envs, SlotsOf(w), config, [On(i, OnPacket(a, w1.free > 0))], SlotsOf(Sys.Shape(envs, w1, i, a).w));
    }
  }

  lemma OneMove(envs: Sys.Envs, s: Slots, m: Move)
    requires CanMove(envs, s, m)
    ensures Moves(envs, s, [m], Moved(envs, s, m))
  {
    hide CanMove, Moved;
    assert [m][1..] == [];
  }

  predicate Drain(m: Move) { m.On? && m.op.OnDrain? }

  lemma VisitMoves(envs: Sys.Envs, w: Sys.World, tried: RR.Bitmap, visited: nat, r: nat, budget: nat)
    requires Sys.Healthy(envs, w) && r < MAX_UE
    ensures
      var m := On(r, OnDrain(budget));
      && CanMove(envs, SlotsOf(w), m)
      && SlotsOf(Sys.VisitSlot(envs, w, tried, visited, r, budget).w) == Moved(envs, SlotsOf(w), m)
  {
    hide Good, DrainUe, Sys.Gain, Held, Sys.Booked, Sys.Healthy, RR.SetBit, RR.Bit;
    CanAlways(envs, w, r);
  }

  lemma {:induction false} DrainFromMoves(envs: Sys.Envs, w: Sys.World, tried: RR.Bitmap, visited: nat, budget: nat)
    returns (ms: seq<Move>)
    requires Sys.Healthy(envs, w) && visited <= RR.SCAN_BUDGET && Sys.Trying(w.visits, tried, visited)
    ensures Moves(envs, SlotsOf(w), ms, SlotsOf(Sys.DrainFrom(envs, w, tried, visited, budget).w))
    ensures forall c :: 0 <= c < |ms| ==> Drain(ms[c])
    decreases RR.SCAN_BUDGET - visited
  {
    hide Sys.Healthy, Sys.VisitSlot, Sys.Trying, RR.NextFrom, RR.Eligible, CanMove, Moved, Good;
    ms := [];
    if visited != RR.SCAN_BUDGET && budget != 0 {
      var r := RR.NextFrom(w.active, tried, w.cursor, 0);
      if r >= 0 {
        Sys.NextHealthy(envs, w, tried, visited, r, budget);
        VisitMoves(envs, w, tried, visited, r, budget);
        var t := Sys.VisitSlot(envs, w, tried, visited, r, budget);
        var rest := DrainFromMoves(envs, t.w, RR.SetBit(tried, r, true), visited + 1, budget - t.n);
        MovesFirst(envs, SlotsOf(w), On(r, OnDrain(budget)), rest,
                   SlotsOf(Sys.DrainFrom(envs, w, tried, visited, budget).w));
        ms := [On(r, OnDrain(budget))] + rest;
      }
    }
  }

  lemma RemoveMoves(envs: Sys.Envs, w: Sys.World, ip: nat) returns (ms: seq<Move>)
    requires Sys.Healthy(envs, w)
    ensures Moves(envs, SlotsOf(w), ms, SlotsOf(Sys.RemoveSession(envs, w, ip)))
    ensures forall c :: 0 <= c < |ms| ==> ms[c].Vacates? || ms[c].op.OnRemove?
  {
    hide Good, Do, Sys.Gain, Held, Sys.Booked, Idx.Search, Idx.Rebuilt, RR.SetBit, RR.Bit;
    ms := [];
    var i := Idx.Search(w.hash, ip, 0);
    if i >= 0 {
      CanAlways(envs, w, i);
      DoGood(envs(i), w.ues[i], OnRemove);
      var s := SlotsOf(w);
      var s1 := Moved(envs, s, On(i, OnRemove));
      OneMove(envs, s1, Vacates(i));
      MovesFirst(envs, s, On(i, OnRemove), [Vacates(i)], Moved(envs, s1, Vacates(i)));
      ms := [On(i, OnRemove)] + [Vacates(i)];
    }
  }

  lemma StepMoves(envs: Sys.Envs, w: Sys.World, e: Sys.Event) returns (ms: seq<Move>)
    requires Sys.Healthy(envs, w) && Sys.Proper(e)
    ensures Moves(envs, SlotsOf(w), ms, SlotsOf(Sys.Step(envs, w, e)))
    ensures e.Arrives? ==> ms == PacketMoves(envs, w, e.a, e.rate, e.conflict, e.q)
    ensures !e.Arrives? ==> forall c :: 0 <= c < |ms| ==> ms[c].Vacates? || ms[c].op.OnRemove? || ms[c].op.OnDrain?
  {
    hide Sys.Healthy, Sys.Packet, Sys.DrainFrom, Sys.RemoveSession, PacketMoves, Moves;
    match e
    case Arrives(a, rate, conflict, q) =>
      PacketMovesSo(envs, w, a, rate, conflict, q);
      ms := PacketMoves(envs, w, a, rate, conflict, q);
    case Drains(budget) =>
      Sys.NoneTriedYet(w.visits);
      ms := DrainFromMoves(envs, w, Sys.NoneTried(), 0, budget);
      assert forall c :: 0 <= c < |ms| ==> Drain(ms[c]);
    case Removes(ip) => ms := RemoveMoves(envs, w, ip);
  }

  // ----- charges and rates in all slots

  ghost predicate AllFine(envs: Sys.Envs, ues: seq<Ue>) {
    |ues| == MAX_UE && forall i :: 0 <= i < MAX_UE ==> Fine(envs(i), ues[i])
  }

  lemma VacatedFine(env: Env, ticks: nat)
    requires Steady(env)
    ensures Fine(env, Vacated(ticks))
  {
    hide Good;
    VacatedGood(env, ticks);
    FreshFine(env);
  }

  lemma {:induction false} MovesFine(envs: Sys.Envs, s: Slots, ms: seq<Move>, t: Slots)
    requires AllFine(envs, s.ues) && Moves(envs, s, ms, t)
    ensures AllFine(envs, t.ues)
    decreases |ms|
  {
    hide Good, AtConfiguredRates, Billed, Do, Vacated;
    if ms != [] {
      var i := ms[0].i;
      assert Fine(envs(i), s.ues[i]);
      if ms[0].On? {
        DoBilled(envs(i), s.ues[i], ms[0].op);
      } else {
        VacatedFine(envs(i), s.ues[i].ticks) by { Sys.SteadyEnv(envs(i), s.ues[i]); }
      }
      MovesFine(envs, Moved(envs, s, ms[0]), ms[1..], t);
    }
  }

  lemma {:induction false} RunFine(envs: Sys.Envs, w: Sys.World, es: seq<Sys.Event>, v: Sys.World)
    requires Sys.Healthy(envs, w) && AllFine(envs, w.ues) && Sys.Reaches(envs, w, es, v)
    ensures AllFine(envs, v.ues)
    decreases |es|
  {
    hide Sys.Healthy, Sys.Step, AllFine, Moves;
    if es != [] {
      Sys.StepHealthy(envs, w, es[0]);
      var ms := StepMoves(envs, w, es[0]);
      MovesFine(envs, SlotsOf(w), ms, SlotsOf(Sys.Step(envs, w, es[0])));
      RunFine(envs, Sys.Step(envs, w, es[0]), es[1..], v);
    }
  }

  /** In every slot of every run of the system, whoever had the slot before, each bucket runs at
      the configured rate and was charged, since it was started, for exactly the packets it
      limits; so those keep to the rate. */
  lemma SlotsKeepRates(envs: Sys.Envs, v: Sys.World, i: nat, b: BucketId)
    requires Sys.Reachable(envs, v) && (forall k: nat :: Steady(envs(k))) && i < MAX_UE
    ensures |v.ues| == MAX_UE && AtConfiguredRates(v.ues[i].tb)
    ensures
      var u := v.ues[i];
      InPlay(u.tb, b) ==>
        var a := AccountOf(u.trace, b);
        && BytesFor(u.trace, b, IdOf(u.tb, b)) == a.spent && Get(u.tb, b).rate == ConfiguredRate(u.tb, b)
        && WithinRate(Get(u.tb, b), a, Now(envs(i), u), envs(i).hz)
  {
    hide Sys.Healthy, AtConfiguredRates, Sys.Reaches, Inv;
    var hash: seq<Idx.Slot>, es :| |hash| == MAX_UE && Sys.Reaches(envs, Sys.StartUp(hash), es, v);
    Sys.StartHealthy(envs, hash);
    forall k | 0 <= k < MAX_UE ensures Fine(envs(k), Sys.StartUp(hash).ues[k]) { FreshFine(envs(k)); }
    RunFine(envs, Sys.StartUp(hash), es, v);
    var u := v.ues[i];
    assert Fine(envs(i), u);
    if InPlay(u.tb, b) {
      assert Charged(u.tb, u.trace, b);
      RateOf(u.tb, b);
      RateBound(u.tb, u.trace, b, Now(envs(i), u), envs(i).hz);
    }
  }

  // ----- no admitted packet is dropped

  ghost predicate AllKeyFit(ues: seq<Ue>, key: FlowKey) {
    |ues| == MAX_UE && forall i :: 0 <= i < MAX_UE ==> KeyFits(ues[i], key)
  }

  /** Every operation among the moves is kind to the flow. */
  ghost predicate KindMoves(envs: Sys.Envs, s: Slots, ms: seq<Move>, key: FlowKey)
    decreases |ms|
  {
    ms == [] ||
    (&& CanMove(envs, s, ms[0])
     && (ms[0].On? ==> KeepsFlow(envs(ms[0].i), s.ues[ms[0].i], ms[0].op, key))
     && KindMoves(envs, Moved(envs, s, ms[0]), ms[1..], key))
  }

  /** Only a packet can be unkind: by what it configures, or by the policy it asks for. */
  ghost predicate KindEvent(envs: Sys.Envs, w: Sys.World, e: Sys.Event, key: FlowKey)
    requires Sys.Healthy(envs, w) && Sys.Proper(e)
  {
    e.Arrives? ==> KindMoves(envs, SlotsOf(w), PacketMoves(envs, w, e.a, e.rate, e.conflict, e.q), key)
  }

  ghost predicate KindReach(envs: Sys.Envs, w: Sys.World, es: seq<Sys.Event>, v: Sys.World, key: FlowKey)
    decreases |es|
  {
    if es == [] then v == w
    else
      && Sys.Healthy(envs, w) && Sys.Proper(es[0]) && KindEvent(envs, w, es[0], key)
      && KindReach(envs, Sys.Step(envs, w, es[0]), es[1..], v, key)
  }

  lemma {:induction false} DropsConcat(tr: seq<Event>, evs: seq<Event>, only: Option<FlowKey>)
    ensures Drops(tr + evs, only) == Drops(tr, only) + Drops(evs, only)
    decreases |evs|
  {
    if evs == [] {
      assert tr + evs == tr;
    } else {
      var n := |evs| - 1;
      assert (tr + evs)[..|tr| + n] == tr + evs[..n] && (tr + evs)[|tr| + n] == evs[n];
      DropsConcat(tr, evs[..n], only);
    }
  }

  lemma MoveKeepsFit(envs: Sys.Envs, s: Slots, m: Move, key: FlowKey)
    requires AllKeyFit(s.ues, key) && CanMove(envs, s, m)
    requires m.On? ==> KeepsFlow(envs(m.i), s.ues[m.i], m.op, key)
    ensures
      var t := Moved(envs, s, m);
      AllKeyFit(t.ues, key) && Drops(t.log, Some(key)) == Drops(s.log, Some(key))
  {
    hide Good, KeepsFlow, Do, Drops;
    var u := s.ues[m.i];
    if m.On? {
      var v := Do(envs(m.i), u, m.op);
      StepKeepsFit(envs(m.i), u, m.op, key);
      Gains.DoAdds(envs(m.i), u, m.op);
      var gain := Sys.Gain(u.trace, v.trace);
      assert v.trace == u.trace + gain;
      DropsConcat(u.trace, gain, Some(key));
      DropsConcat(s.log, gain, Some(key));
    }
  }

  lemma {:induction false} MovesKeepFit(envs: Sys.Envs, s: Slots, ms: seq<Move>, t: Slots, key: FlowKey)
    requires AllKeyFit(s.ues, key) && Moves(envs, s, ms, t) && KindMoves(envs, s, ms, key)
    ensures AllKeyFit(t.ues, key) && Drops(t.log, Some(key)) == Drops(s.log, Some(key))
    decreases |ms|
  {
    hide AllKeyFit, CanMove, Moved, KeepsFlow, Drops;
    if ms != [] {
      MoveKeepsFit(envs, s, ms[0], key);
      MovesKeepFit(envs, Moved(envs, s, ms[0]), ms[1..], t, key);
    }
  }

  /** Drains and removals are kind to everyone. */
  lemma {:induction false} KindAnyway(envs: Sys.Envs, s: Slots, ms: seq<Move>, t: Slots, key: FlowKey)
    requires Moves(envs, s, ms, t)
    requires forall c :: 0 <= c < |ms| ==> ms[c].Vacates? || ms[c].op.OnRemove? || ms[c].op.OnDrain?
    ensures KindMoves(envs, s, ms, key)
    decreases |ms|
  {
    hide Good, Moved;
    if ms != [] { KindAnyway(envs, Moved(envs, s, ms[0]), ms[1..], t, key); }
  }

  /** For every flow, over every run of the whole system that is kind to it, whatever happens to
      other flows, other UEs and other buckets, also when its UE is removed and comes back in
      another slot: no packet of it is dropped once it was admitted. */
  lemma {:induction false} NeverDroppedAnywhere(envs: Sys.Envs, w: Sys.World, es: seq<Sys.Event>, v: Sys.World,
                                                key: FlowKey)
    requires Sys.Healthy(envs, w) && AllKeyFit(w.ues, key) && KindReach(envs, w, es, v, key)
    ensures AllKeyFit(v.ues, key) && Drops(v.log, Some(key)) == Drops(w.log, Some(key))
    decreases |es|
  {
    hide Sys.Healthy, Sys.Step, AllKeyFit, Moves, KindMoves, Drops, PacketMoves;
    if es != [] {
      Sys.StepHealthy(envs, w, es[0]);
      var w1 := Sys.Step(envs, w, es[0]);
      var ms := StepMoves(envs, w, es[0]);
      if !es[0].Arrives? { KindAnyway(envs, SlotsOf(w), ms, SlotsOf(w1), key); }
      MovesKeepFit(envs, SlotsOf(w), ms, SlotsOf(w1), key);
      NeverDroppedAnywhere(envs, w1, es[1..], v, key);
    }
  }

  /** So from start-up on such a flow loses no packet in any drain. */
  lemma NoDropsFromStart(envs: Sys.Envs, hash: seq<Idx.Slot>, es: seq<Sys.Event>, v: Sys.World, key: FlowKey)
    requires |hash| == MAX_UE && (forall i: nat :: Steady(envs(i))) && KindReach(envs, Sys.StartUp(hash), es, v, key)
    ensures Drops(v.log, Some(key)) == 0
  {
    hide Sys.Healthy, KindReach;
    Sys.StartHealthy(envs, hash);
    NeverDroppedAnywhere(envs, Sys.StartUp(hash), es, v, key);
  }
}
