/** What one call of drain_shaper_queues_budget does to all UEs together, without its bitmaps
    (5gc/upf_u/upf_u.c:341-402, 941-961). */
module Scans {
  import opened Common
  import opened Sched
  import opened Shaper
  import opened Ownership
  import Idx = UeIndex
  import RR = RoundRobin
  import Sys = System

  /** UE r has packets, has not been drained in this call, and is the first such UE at or after
      the cursor, going round. */
  ghost predicate FirstWaiting(ues: seq<Ue>, cursor: nat, done: set<nat>, r: nat) {
    && |ues| == 256 && r < 256 && ues[r].q.queued > 0 && r !in done
    && (forall ue :: 0 <= ue < 256 && ues[ue].q.queued > 0 && ue !in done ==>
          RR.Ahead(cursor, r) <= RR.Ahead(cursor, ue))
  }

  /** The UEs of `order` are drained one after the other, each with what the others left of the
      budget and each as the first that waits behind the one before; that leads to `fin` with
      `sent` packets gone. */
  ghost predicate InTurn(envs: Sys.Envs, ues: seq<Ue>, cursor: nat, done: set<nat>, order: seq<nat>, budget: nat,
                         fin: seq<Ue>, sent: int)
    decreases |order|
  {
    if order == [] then fin == ues && sent == 0
    else
      var r := order[0];
      && budget > 0 && FirstWaiting(ues, cursor, done, r) && Good(envs(r), ues[r])
      && var d := DrainUe(envs(r), ues[r], budget);
         InTurn(envs, ues[r := d.u], (r + 1) % 256, done + {r}, order[1..], budget - d.n, fin, sent - d.n)
  }

  /** Why a call ends: it has sent its budget, it has drained 32 UEs, or whoever still has packets
      was drained in this call. */
  ghost predicate MayEnd(ues: seq<Ue>, done: set<nat>, visited: nat, budget: nat) {
    || budget == 0 || visited == 32
    || (|ues| == 256 && forall ue :: 0 <= ue < 256 && ues[ue].q.queued > 0 ==> ue in done)
  }

  /** The bitmap of tried UEs is this set. */
  ghost predicate Marks(tried: RR.Bitmap, done: set<nat>) {
    forall ue :: 0 <= ue < MAX_UE ==> (RR.Bit(tried, ue) <==> ue in done)
  }

  function Elements(order: seq<nat>): set<nat> { set r | r in order }

  lemma BitsOfWaiting(envs: Sys.Envs, w: Sys.World, ue: nat)
    requires Sys.Healthy(envs, w) && ue < MAX_UE
    ensures |w.ues| == MAX_UE && Good(envs(ue), w.ues[ue]) && (RR.Bit(w.active, ue) <==> w.ues[ue].q.queued > 0)
  {
    hide Good, Sys.Booked, Idx.Agrees, Owns;
    assert Sys.SlotOk(envs(ue), w.ues[ue], RR.Bit(w.active, ue));
  }

  /** The scan of the bitmaps finds the first UE that waits, or there is none. */
  lemma ScanFinds(envs: Sys.Envs, w: Sys.World, tried: RR.Bitmap, done: set<nat>)
    requires Sys.Healthy(envs, w) && Marks(tried, done)
    ensures
      var r := RR.NextFrom(w.active, tried, w.cursor, 0);
      if r < 0 then MayEnd(w.ues, done, 0, 1) else FirstWaiting(w.ues, w.cursor, done, r)
  {
    hide Sys.Healthy, Good, RR.Bit, RR.NextFrom, RR.Ahead;
    RR.NextFromIsNext(w.active, tried, w.cursor);
    BitsOfWaiting(envs, w, 0);
    forall ue | 0 <= ue < MAX_UE
      ensures RR.Eligible(w.active, tried, ue) <==> w.ues[ue].q.queued > 0 && ue !in done
    {
      BitsOfWaiting(envs, w, ue);
    }
  }

  lemma MarksGrow(tried: RR.Bitmap, done: set<nat>, r: nat)
    requires Marks(tried, done) && r < MAX_UE
    ensures Marks(RR.SetBit(tried, r, true), done + {r})
  {
    hide RR.Bit;
  }

  /** One visit: the slot is drained, the cursor moves behind it, and no other slot changes. */
  lemma VisitMeans(envs: Sys.Envs, w: Sys.World, tried: RR.Bitmap, visited: nat, r: nat, budget: nat)
    requires Sys.Healthy(envs, w) && r < MAX_UE
    ensures |w.ues| == MAX_UE && Good(envs(r), w.ues[r])
    ensures
      var t, d := Sys.VisitSlot(envs, w, tried, visited, r, budget), DrainUe(envs(r), w.ues[r], budget);
      t.w.ues == w.ues[r := d.u] && t.n == d.n && t.w.cursor == (r + 1) % MAX_UE
  {
    hide Good, DrainUe, Sys.Gain, Held, RR.SetBit, RR.Bit;
    BitsOfWaiting(envs, w, r);
  }

  lemma InTurnNone(envs: Sys.Envs, ues: seq<Ue>, cursor: nat, done: set<nat>, visited: nat, budget: nat)
    ensures InTurn(envs, ues, cursor, done, [], budget, ues, 0)
    ensures budget == 0 || visited == 32 || MayEnd(ues, done, 0, 1) ==> MayEnd(ues, done, visited, budget)
    ensures done + Elements([]) == done
  {}

  lemma InTurnFirst(envs: Sys.Envs, ues: seq<Ue>, cursor: nat, done: set<nat>, r: nat, rest: seq<nat>, budget: nat,
                    fin: seq<Ue>, sent: int)
    requires budget > 0 && FirstWaiting(ues, cursor, done, r) && Good(envs(r), ues[r])
    requires
      var d := DrainUe(envs(r), ues[r], budget);
      InTurn(envs, ues[r := d.u], (r + 1) % 256, done + {r}, rest, budget - d.n, fin, sent)
    ensures
      InTurn(envs, ues, cursor, done, [r] + rest, budget, fin, DrainUe(envs(r), ues[r], budget).n + sent)
    ensures done + {r} + Elements(rest) == done + Elements([r] + rest)
  {
    hide Good, DrainUe;
    assert ([r] + rest)[1..] == rest;
  }

  /** One turn of the call, or its end. */
  lemma DrainFromStep(envs: Sys.Envs, w: Sys.World, tried: RR.Bitmap, visited: nat, budget: nat)
    requires Sys.Healthy(envs, w) && visited <= 32 && Sys.Trying(w.visits, tried, visited)
    ensures
      var r, all := RR.NextFrom(w.active, tried, w.cursor, 0), Sys.DrainFrom(envs, w, tried, visited, budget);
      if visited == 32 || budget == 0 || r < 0 then all == Sys.Total(w, 0)
      else
        var t, now := Sys.VisitSlot(envs, w, tried, visited, r, budget), RR.SetBit(tried, r, true);
        && Sys.Healthy(envs, t.w) && Sys.Trying(t.w.visits, now, visited + 1)
        && var rest := Sys.DrainFrom(envs, t.w, now, visited + 1, budget - t.n);
           all == Sys.Total(rest.w, t.n + rest.n)
  {
    hide Sys.Healthy, Sys.VisitSlot, Sys.Trying, RR.NextFrom, RR.SetBit, RR.Bit, RR.Eligible, Good;
    var r := RR.NextFrom(w.active, tried, w.cursor, 0);
    if visited < 32 && r >= 0 { Sys.NextHealthy(envs, w, tried, visited, r, budget); }
  }

  lemma {:induction false} DrainFromInTurn(envs: Sys.Envs, w: Sys.World, tried: RR.Bitmap, visited: nat, budget: nat,
                                           done: set<nat>) returns (order: seq<nat>)
    requires Sys.Healthy(envs, w) && visited <= 32 && Sys.Trying(w.visits, tried, visited) && Marks(tried, done)
    ensures visited + |order| <= 32
    ensures
      var t := Sys.DrainFrom(envs, w, tried, visited, budget);
      && InTurn(envs, w.ues, w.cursor, done, order, budget, t.w.ues, t.n)
      && MayEnd(t.w.ues, done + Elements(order), visited + |order|, budget - t.n)
    decreases 32 - visited
  {
    hide Sys.Healthy, Sys.VisitSlot, Sys.Trying, RR.NextFrom, RR.SetBit, RR.Bit, Marks, Good, DrainUe,
      FirstWaiting, InTurn, MayEnd, Elements, Sys.DrainFrom, RR.Eligible;
    DrainFromStep(envs, w, tried, visited, budget);
    order := [];
    InTurnNone(envs, w.ues, w.cursor, done, visited, budget);
    if visited != 32 && budget != 0 {
      ScanFinds(envs, w, tried, done);
      var r := RR.NextFrom(w.active, tried, w.cursor, 0);
      if r >= 0 {
        VisitMeans(envs, w, tried, visited, r, budget);
        MarksGrow(tried, done, r);
        var t := Sys.VisitSlot(envs, w, tried, visited, r, budget);
        var rest := DrainFromInTurn(envs, t.w, RR.SetBit(tried, r, true), visited + 1, budget - t.n, done + {r});
        var all := Sys.DrainFrom(envs, w, tried, visited, budget);
        InTurnFirst(envs, w.ues, w.cursor, done, r, rest, budget, all.w.ues, all.n - t.n);
        order := [r] + rest;
      }
    }
  }

  /** UEs drained in turn are different UEs; those not among them stay as they were, and no more
      than the budget is sent. */
  lemma {:induction false} InTurnMeans(envs: Sys.Envs, ues: seq<Ue>, cursor: nat, done: set<nat>, order: seq<nat>,
                                       budget: nat, fin: seq<Ue>, sent: int)
    requires InTurn(envs, ues, cursor, done, order, budget, fin, sent)
    ensures Distinct(order) && 0 <= sent <= budget && |fin| == |ues|
    ensures forall r :: r in order ==> r < |ues| && r !in done
    ensures forall ue :: 0 <= ue < |ues| && ue !in order ==> fin[ue] == ues[ue]
    decreases |order|
  {
    hide Good, DrainUe;
    if order != [] {
      var r := order[0];
      var d := DrainUe(envs(r), ues[r], budget);
      InTurnMeans(envs, ues[r := d.u], (r + 1) % 256, done + {r}, order[1..], budget - d.n, fin, sent - d.n);
      assert order == [r] + order[1..];
    }
  }

  /** A call drains at most 32 different UEs, each time the first one with packets behind the one
      before, each with what is left of the budget, and leaves all others alone. It ends only when
      the budget is sent, 32 UEs were drained, or no UE outside them has packets. */
  lemma DrainCall(envs: Sys.Envs, v: Sys.World, budget: nat) returns (order: seq<nat>, sent: nat)
    requires Sys.Reachable(envs, v) && forall i: nat :: Steady(envs(i))
    ensures Sys.Healthy(envs, v) && |order| <= 32 && Distinct(order) && sent <= budget
    ensures
      var ues := Sys.Step(envs, v, Sys.Drains(budget)).ues;
      && InTurn(envs, v.ues, v.cursor, {}, order, budget, ues, sent)
      && MayEnd(ues, Elements(order), |order|, budget - sent)
      && (|ues| == |v.ues| && forall ue :: 0 <= ue < |ues| && ue !in order ==> ues[ue] == v.ues[ue])
  {
    hide Sys.Healthy, Sys.DrainFrom, Sys.Reachable, InTurn, MayEnd, RR.Bit;
    Sys.AlwaysHealthy(envs, v);
    Sys.NoneTriedYet(v.visits);
    assert Marks(Sys.NoneTried(), {});
    order := DrainFromInTurn(envs, v, Sys.NoneTried(), 0, budget, {});
    var t := Sys.DrainFrom(envs, v, Sys.NoneTried(), 0, budget);
    sent := t.n;
    InTurnMeans(envs, v.ues, v.cursor, {}, order, budget, t.w.ues, sent);
    assert {} + Elements(order) == Elements(order);
  }
}
