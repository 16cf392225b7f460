/** Why the condition of `Stopping` is needed: UEs whose drain stops although a waiting packet
    could be paid for, one for each way in which a token state fails to come to rest, and
    one whose drain ends with a dropped packet. */
module Starving {
  import opened Common
  import opened Sched
  import opened TokenBucket
  import opened Rates
  import opened History
  import opened Shaper
  import opened Turns
  import opened Dropping
  import opened Settling
  import opened Stopping

  // ----- one waiting packet

  function Lone(u: Ue, policy: Policy, len: nat): Arrival {
    Arrival(ZERO_KEY.(ueIp := u.tb.ueIp), policy.hasGbr, policy.qerId, 0, 0, len, len, 0)
  }

  /** The UE with its queues flushed and then one packet waiting. */
  function Waiter(u: Ue, policy: Policy, len: nat): Ue {
    EmptyOk();
    Open(Flush(u), Lone(u, policy, len), 0, true).u
  }

  function HomeList(policy: Policy): nat { if policy.hasGbr then GBR else DEFAULT }

  /** One flow waits, alone on its list. */
  ghost predicate Alone(q: Sched, policy: Policy, len: nat) {
    && Inv(q) && q.queued == 1 && q.nextExcess == GBR
    && q.lists == Empty().lists[HomeList(policy) := [0]] && q.counts == Empty().counts[HomeList(policy) := 1]
    && q.flows[0].inUse && PolicyOf(q.flows[0]) == policy && |q.flows[0].queue| == 1 && q.flows[0].queue[0].len == len
    && forall j :: 0 < j < MAX_FLOWS ==> !q.flows[j].inUse
  }

  lemma WaiterAlone(env: Env, u: Ue, policy: Policy, len: nat)
    requires Good(env, u)
    ensures
      var v := Waiter(u, policy, len);
      Good(env, v) && v.tb == u.tb && v.ticks == u.ticks && Alone(v.q, policy, len)
  {
    hide Tracked, MeterInv, KeysUnique, FlowsOk, UpdatePolicy, Push, Claim;
    var a, w := Lone(u, policy, len), Flush(u);
    FlushGood(env, u);
    QueueOfNone(w.q.flows, a.key);
    OpenGood(env, w, a, 0, true);
    PolicyQueued(Claim(w.q, 0, a.key), 0, a.hasGbr, a.qerId);
    ClaimKeeps(w.q, 0, a.key);
    OpenOk(w.q, 0, a.key, a.hasGbr, a.qerId, EntryOf(a));
    LoneLists(a);
  }

  lemma ClaimKeeps(q: Sched, i: nat, key: FlowKey)
    requires Shaped(q) && i < MAX_FLOWS
    ensures Claim(q, i, key).queued == q.queued
  {}

  lemma LoneLists(a: Arrival)
    requires !a.key.isQos
    ensures
      var l := HomeList(AskedBy(a));
      var r := Push(UpdatePolicy(Claim(Empty(), 0, a.key), 0, a.hasGbr, a.qerId), 0, EntryOf(a));
      r.lists == Empty().lists[l := [0]] && r.counts == Empty().counts[l := 1]
  {
    var q, l := Empty(), HomeList(AskedBy(a));
    var p := UpdatePolicy(Claim(q, 0, a.key), 0, a.hasGbr, a.qerId);
    assert p.lists == q.lists && p.counts == q.counts;
    assert q.lists[l] + [0] == [0];
  }

  // ----- its drain

  lemma AloneRotates(q: Sched, l: nat)
    requires l < |q.lists| && q.lists[l] == [0]
    ensures q.lists[l := q.lists[l][1..] + [q.lists[l][0]]] == q.lists
  {
    var s := q.lists[l];
    assert s[1..] + [s[0]] == s;
  }

  /** The turn of a lone flow that is refused: tokens were looked at, nothing else changed. */
  lemma RefusedTurn(env: Env, w: Ue, l: nat, service: Service, alternate: Service, t: nat)
    requires Good(env, w) && Frozen(env, w, t) && GBR <= l < LISTS && w.q.lists[l] == [0] && w.q.flows[0].queue != []
    requires var f := w.q.flows[0]; Fits(w.tb, service, f.qerId, HeadLen(f)) && Timely(w.tb, t) && env.hz > 0
    requires var f := w.q.flows[0]; !Consume(w.tb, service, f.qerId, HeadLen(f), t, env.hz).ok
    ensures
      var f, r := w.q.flows[0], Try(env, w, l, service, alternate);
      && r.n == 0 && r.u.q == w.q && r.u.tb == Consume(w.tb, service, f.qerId, HeadLen(f), t, env.hz).tb
      && Drops(r.u.trace, None) == Drops(w.trace, None)
  {
    hide Tracked, MeterInv, Consume, Fits, Pop, Activate, Deactivate;
    HeadFlow(w.q, l);
    RotateOk(w.q, l);
    AloneRotates(w.q, l);
    var f := w.q.flows[0];
    var p := Consume(w.tb, service, f.qerId, HeadLen(f), t, env.hz);
    PayGood(env, w, service, f.qerId, f.key, f.queue[0], PolicyOf(f), false);
    DropsSame(w.trace, PaymentEvents(p, f.key, f.queue[0], service, PolicyOf(f), false), None);
  }

  /** A pass over a list with one flow is one turn. */
  lemma OneTurnPass(env: Env, w: Ue, l: nat, service: Service, alternate: Service)
    requires Good(env, w) && GBR <= l < LISTS && w.q.lists[l] == [0] && w.q.counts[l] == 1
    requires Try(env, w, l, service, alternate).n == 0
    ensures DrainService(env, w, l, service, alternate, 1) == Drained(Try(env, w, l, service, alternate).u, 0)
  {
    hide Try, Tracked, MeterInv, Inv;
    TryGood(env, w, l, service, alternate);
    var t := Try(env, w, l, service, alternate);
    assert DrainOne(env, t.u, l, service, alternate, 0) == Drained(t.u, 0);
    assert DrainOne(env, w, l, service, alternate, 1) == Drained(t.u, 0);
  }

  /** A lone flow too long for guaranteed service is passed over in the guaranteed pass. */
  lemma PassedOver(env: Env, v: Ue, policy: Policy, len: nat)
    requires Good(env, v) && Alone(v.q, policy, len)
    requires policy.hasGbr ==> Fits(v.tb, Excess, policy.qerId, len) && !Fits(v.tb, Guaranteed, policy.qerId, len)
    ensures DrainGbr(env, v, 1) == Drained(v, 0)
  {
    hide Tracked, MeterInv, Fits, Consume, ListsOk, FlowsOk;
    if policy.hasGbr {
      HeadFlow(v.q, GBR);
      RotateOk(v.q, GBR);
      AloneRotates(v.q, GBR);
      assert Try(env, v, GBR, Guaranteed, Excess) == Drained(v, 0);
      OneTurnPass(env, v, GBR, Guaranteed, Excess);
    }
  }

  /** Empty lists are skipped. */
  lemma SkipRound(env: Env, w: Ue, tries: nat)
    requires Good(env, w) && tries > 0 && w.q.counts[w.q.nextExcess] == 0
    ensures Good(env, Advance(w)) && ExcessRound(env, w, tries) == ExcessRound(env, Advance(w), tries - 1)
  {
    hide DrainService, Tracked, MeterInv;
    AdvanceGood(env, w);
  }

  /** The round over the lists gives a lone flow one turn. */
  lemma LoneRound(env: Env, v: Ue, policy: Policy, len: nat, t: nat)
    requires Good(env, v) && Frozen(env, v, t) && Alone(v.q, policy, len) && Ready(v.tb, t, env.hz)
    requires Fits(v.tb, ExcessService(HomeList(policy)), policy.qerId, len)
    requires !Consume(v.tb, ExcessService(HomeList(policy)), policy.qerId, len, t, env.hz).ok
    ensures
      var r := ExcessRound(env, v, 3);
      && r.n == 0 && r.u.q == v.q && Drops(r.u.trace, None) == Drops(v.trace, None)
      && r.u.tb == Consume(v.tb, ExcessService(HomeList(policy)), policy.qerId, len, t, env.hz).tb
  {
    hide Tracked, MeterInv, Consume, Fits, Try, DrainService, ExcessRound, ListsOk, FlowsOk, Drops, Progress;
    var l := HomeList(policy);
    var w := v;
    if !policy.hasGbr {
      SkipRound(env, w, 3);
      w := Advance(w);
      SkipRound(env, w, 2);
      w := Advance(w);
    }
    AdvanceGood(env, w);
    var w1 := Advance(w);
    RefusedTurn(env, w1, l, ExcessService(l), ExcessAlternate(l), t);
    OneTurnPass(env, w1, l, ExcessService(l), ExcessAlternate(l));
    var x := Try(env, w1, l, ExcessService(l), ExcessAlternate(l)).u;
    TryGood(env, w1, l, ExcessService(l), ExcessAlternate(l));
    TurnTaken(env, w, if policy.hasGbr then 3 else 1);
    if policy.hasGbr {
      SkipRound(env, x, 2);
      SkipRound(env, Advance(x), 1);
      NoRound(env, Advance(Advance(x)));
    } else {
      NoRound(env, x);
    }
  }

  lemma TurnTaken(env: Env, w: Ue, tries: nat)
    requires Good(env, w) && tries > 0 && Good(env, Advance(w)) && w.q.counts[w.q.nextExcess] != 0
    requires
      var l := w.q.nextExcess;
      DrainService(env, Advance(w), l, ExcessService(l), ExcessAlternate(l), 1).n == 0
    ensures
      var l := w.q.nextExcess;
      var x := DrainService(env, Advance(w), l, ExcessService(l), ExcessAlternate(l), 1).u;
      Good(env, x) && ExcessRound(env, w, tries) == ExcessRound(env, x, tries - 1)
  {
    hide DrainService, Tracked, MeterInv, Inv;
  }

  lemma LoneDrain(env: Env, v: Ue)
    requires Good(env, v) && v.q.queued > 0 && AnyActive(v.q) && DrainGbr(env, v, 1) == Drained(v, 0)
    requires ExcessRound(env, v, 3).n == 0
    ensures DrainUe(env, v, 1) == Drained(ExcessRound(env, v, 3).u, 0)
  {
    hide Good, ExcessRound, Progress, DrainService, DrainGbr;
    assert DrainExcess(env, v, 1) == Drained(ExcessRound(env, v, 3).u, 0);
    assert Burst(1, 0) == 1;
    assert DrainRound(env, v, 1, 0) == Drained(ExcessRound(env, v, 3).u, 0);
  }

  // ----- starvation

  /** A packet as long as what the second look at its bucket finds, and the first does not. */
  ghost predicate Starves(tb: UeTb, policy: Policy, now: nat, hz: nat) {
    && Ready(tb, now, hz) && Meets(tb, ExcessService(HomeList(policy)), policy.qerId)
    && BucketOf(tb, WidestOf(tb, policy)) && !SettlesAt(tb, WidestOf(tb, policy), now, hz)
    && (policy.hasGbr ==> !Fits(tb, Guaranteed, policy.qerId, CeilingOf(tb, WidestOf(tb, policy), now, hz)))
  }

  lemma StarvingFits(tb: UeTb, policy: Policy, now: nat, hz: nat)
    requires Starves(tb, policy, now, hz)
    ensures
      var len, service := CeilingOf(tb, WidestOf(tb, policy), now, hz), ExcessService(HomeList(policy));
      var p := Consume(tb, service, policy.qerId, len, now, hz);
      Fits(tb, service, policy.qerId, len) && !p.ok && Payable(p.tb, service, policy.qerId, len, now, hz)
  {
    hide Refill, Ceiling, Settles, Consume;
    var c, service := WidestOf(tb, policy), ExcessService(HomeList(policy));
    var b, len := Get(tb, c), CeilingOf(tb, c, now, hz);
    CeilingStays(b, now, hz);
    CeilingIs(b, now, hz);
    var p := Consume(tb, service, policy.qerId, len, now, hz);
    ConsumeGet(tb, service, policy.qerId, len, now, hz, c);
    ConsumeKeeps(tb, service, policy.qerId, len, now, hz);
    FindQerSame(tb.qers, p.tb.qers, policy.qerId, 0);
    PayableByWidest(p.tb, policy, len, now, hz);
    PayableByWidest(tb, policy, len, now, hz);
  }

  lemma CeilingIs(b: Bucket, now: nat, hz: nat)
    requires Fillable(b, now, hz)
    ensures Fillable(Refill(b, now, hz), now, hz) && Ceiling(b, now, hz) == Worth(Refill(b, now, hz), now, hz)
    ensures !Settles(b, now, hz) ==> 0 < b.depth && Worth(b, now, hz) != Ceiling(b, now, hz)
  {
    RefillCases(b, now, hz);
    RefillCases(Refill(b, now, hz), now, hz);
  }

  lemma PayableByWidest(tb: UeTb, policy: Policy, len: nat, now: nat, hz: nat)
    requires Ready(tb, now, hz) && Meets(tb, ExcessService(HomeList(policy)), policy.qerId)
    ensures BucketOf(tb, WidestOf(tb, policy))
    ensures
      var p := Consume(tb, ExcessService(HomeList(policy)), policy.qerId, len, now, hz);
      p.ok <==> Worth(Get(tb, WidestOf(tb, policy)), now, hz) >= len
  {
    hide Refill;
  }

  /** The lone packet fits, since no bucket ever holds more than its depth. */
  lemma StarvingAllFit(v: Ue, policy: Policy, now: nat, hz: nat)
    requires Starves(v.tb, policy, now, hz) && Alone(v.q, policy, CeilingOf(v.tb, WidestOf(v.tb, policy), now, hz))
    ensures AllFit(v)
  {
    hide Ceiling, Settles, ListsOk, FlowsOk;
    var c := WidestOf(v.tb, policy);
    CeilingStays(Get(v.tb, c), now, hz);
    CeilingIs(Get(v.tb, c), now, hz);
    assert HasRoom(v.tb, policy, CeilingOf(v.tb, c, now, hz));
    forall key ensures KeyFits(v, key) {}
  }

  /** A drain of that packet stops with its budget unspent although the packet can be paid. */
  lemma WaiterStarves(env: Env, u: Ue, policy: Policy, t: nat)
    requires Good(env, u) && Frozen(env, u, t) && Starves(u.tb, policy, t, env.hz)
    ensures
      var v := Waiter(u, policy, CeilingOf(u.tb, WidestOf(u.tb, policy), t, env.hz));
      && Good(env, v) && v.tb == u.tb && v.ticks == u.ticks && AllFit(v)
      && !Conserves(env, v, 1, t) && Drops(DrainUe(env, v, 1).u.trace, None) == Drops(v.trace, None)
  {
    hide DrainUe, ExcessRound, DrainGbr, Tracked, MeterInv, ListsOk, FlowsOk, Waiter, Consume, Fits, Ceiling,
      Settles, Drops, AllFit;
    var len := CeilingOf(u.tb, WidestOf(u.tb, policy), t, env.hz);
    var v := Waiter(u, policy, len);
    WaiterAlone(env, u, policy, len);
    StarvingAllFit(v, policy, t, env.hz);
    StarvingFits(u.tb, policy, t, env.hz);
    PassedOver(env, v, policy, len);
    LoneRound(env, v, policy, len, t);
    LoneDrain(env, v);
    var w := ExcessRound(env, v, 3).u;
    assert !FlowStuck(w, 0, t, env.hz);
  }

  // ----- the exact condition

  /** UEs with the token state of u, drained no earlier than u. */
  ghost predicate Alike(env: Env, u: Ue, v: Ue) { Good(env, v) && v.tb == u.tb && u.ticks <= v.ticks }

  /** Draining a known UE at a standing clock is work-conserving, for all queues of packets that
      fit and all budgets, exactly when its token state comes to rest at the first look; and
      exactly then, for all queues whatsoever, is it so unless the drain drops a packet. */
  lemma WorkConservingIff(env: Env, u: Ue, t: nat)
    requires Good(env, u) && Frozen(env, u, t) && u.tb.ueIp != 0
    ensures
      (forall v: Ue, budget: nat | Alike(env, u, v) && AllFit(v) :: Conserves(env, v, budget, t))
        <==> Restful(u.tb, t, env.hz)
    ensures
      (forall v: Ue, budget: nat | Alike(env, u, v) :: ConservesOrDrops(env, v, budget, t))
        <==> Restful(u.tb, t, env.hz)
  {
    hide Good, Conserves, Waiter, SettlesAt, CeilingOf, AllFit, StopsFairly;
    GoodReady(env, u, t);
    if Restful(u.tb, t, env.hz) {
      forall v: Ue, budget: nat | Alike(env, u, v)
        ensures ConservesOrDrops(env, v, budget, t) && (AllFit(v) ==> Conserves(env, v, budget, t))
      {
        DrainStopsOrDrops(env, v, budget, t);
        if AllFit(v) { DrainIsWorkConserving(env, v, budget, t); }
      }
    } else {
      var policy := Policy(false, 0);
      if SettlesAt(u.tb, Ambr, t, env.hz) {
        var id: nat :| !QerRests(u.tb, id, t, env.hz);
        policy := Policy(true, id);
        TooLongForGuaranteed(u.tb, id, t, env.hz);
      }
      assert Starves(u.tb, policy, t, env.hz);
      WaiterStarves(env, u, policy, t);
      var v := Waiter(u, policy, CeilingOf(u.tb, WidestOf(u.tb, policy), t, env.hz));
      assert !Conserves(env, v, 1, t) && Alike(env, u, v);
      NeitherNor(env, v, 1, t);
    }
  }

  ghost predicate ConservesOrDrops(env: Env, v: Ue, budget: nat, t: nat)
    requires Good(env, v)
  {
    var r := DrainUe(env, v, budget);
    StopsFairlyOrDrops(v, r.u, r.n, budget, 0, t, env.hz)
  }

  lemma NeitherNor(env: Env, v: Ue, budget: nat, t: nat)
    requires Good(env, v) && !Conserves(env, v, budget, t)
    requires Drops(DrainUe(env, v, budget).u.trace, None) == Drops(v.trace, None)
    ensures !ConservesOrDrops(env, v, budget, t)
  {
    hide DrainUe, StopsFairly;
  }

  lemma TooLongForGuaranteed(tb: UeTb, id: nat, now: nat, hz: nat)
    requires Ready(tb, now, hz) && tb.ueIp != 0 && !QerRests(tb, id, now, hz)
    ensures Starves(tb, Policy(true, id), now, hz)
  {
    hide Ceiling, Settles;
  }

  // ----- a drop ends the drain

  /** Two packets of one flow without guaranteed bit rate wait: the first longer than the
      Session-AMBR bucket is deep, as after the rate was lowered, the second of one byte. */
  ghost predicate TooLongThenShort(v: Ue) {
    && v.tb.ueIp != 0 && v.q.queued == 2 && v.q.nextExcess == GBR && |v.q.flows| == MAX_FLOWS
    && v.q.lists == Empty().lists[DEFAULT := [0]] && v.q.counts == Empty().counts[DEFAULT := 1]
    && v.q.flows[0].inUse && PolicyOf(v.q.flows[0]) == Policy(false, 0) && |v.q.flows[0].queue| == 2
    && v.q.flows[0].queue[0].len > v.tb.ambrTb.depth && v.q.flows[0].queue[1].len == 1
  }

  /** The turn of a flow whose head no bucket can ever carry. */
  lemma DroppedTurn(env: Env, w: Ue)
    requires Good(env, w) && w.q.lists[DEFAULT] == [0] && |w.q.flows[0].queue| == 2
    requires !Fits(w.tb, SessionAmbr, w.q.flows[0].qerId, w.q.flows[0].queue[0].len)
    ensures
      var r := Try(env, w, DEFAULT, SessionAmbr, NoService);
      && r.n == 0 && r.u.tb == w.tb && r.u.q.queued == w.q.queued - 1
      && r.u.q.flows == w.q.flows[0 := Served(w.q.flows[0])]
      && Drops(r.u.trace, None) == Drops(w.trace, None) + 1
  {
    hide Tracked, MeterInv, Pop, Activate, Deactivate, Consume, ListsOk, FlowsOk;
    HeadFlow(w.q, DEFAULT);
    ServeOk(w.q, DEFAULT);
    DropsAppend(w.trace, Discarded(w.q.flows[0].key, w.q.flows[0].queue[0]), None);
  }

  lemma DroppedRound(env: Env, v: Ue)
    requires Good(env, v) && v.q.nextExcess == GBR && v.q.counts == Empty().counts[DEFAULT := 1]
    requires v.q.lists[DEFAULT] == [0] && |v.q.flows[0].queue| == 2
    requires !Fits(v.tb, SessionAmbr, v.q.flows[0].qerId, v.q.flows[0].queue[0].len)
    ensures
      var r := ExcessRound(env, v, 3);
      && r.n == 0 && r.u.tb == v.tb && r.u.q.queued == v.q.queued - 1
      && r.u.q.flows == v.q.flows[0 := Served(v.q.flows[0])]
      && Drops(r.u.trace, None) == Drops(v.trace, None) + 1
  {
    hide Tracked, MeterInv, Consume, Try, DrainService, ExcessRound, ListsOk, FlowsOk, Drops, Progress, Fits;
    SkipRound(env, v, 3);
    SkipRound(env, Advance(v), 2);
    var w := Advance(Advance(v));
    AdvanceGood(env, w);
    var w1 := Advance(w);
    DroppedTurn(env, w1);
    OneTurnPass(env, w1, DEFAULT, SessionAmbr, NoService);
    TurnTaken(env, w, 1);
    NoRound(env, Try(env, w1, DEFAULT, SessionAmbr, NoService).u);
  }

  /** However calm the buckets, a drain that drops a packet may stop with its budget unspent
      although the packet behind the dropped one can be paid for. */
  lemma DropEndsDrain(env: Env, v: Ue, t: nat)
    requires Good(env, v) && Frozen(env, v, t) && TooLongThenShort(v)
    requires Ready(v.tb, t, env.hz) && 0 < Worth(v.tb.ambrTb, t, env.hz)
    ensures !Conserves(env, v, 1, t) && !AllFit(v)
    ensures Drops(DrainUe(env, v, 1).u.trace, None) == Drops(v.trace, None) + 1
  {
    hide Tracked, MeterInv, Consume, ExcessRound, ListsOk, FlowsOk, Drops, Progress, DrainUe, DrainGbr, Worth;
    DroppedRound(env, v);
    NoGbr(env, v);
    LoneDrain(env, v);
    var x := ExcessRound(env, v, 3).u;
    PayableByWidest(x.tb, Policy(false, 0), 1, t, env.hz);
    assert x.q.flows[0].queue == v.q.flows[0].queue[1..];
    assert !FlowStuck(x, 0, t, env.hz);
    var f := v.q.flows[0];
    assert !HasRoom(v.tb, PolicyOf(f), f.queue[0].len);
    assert !FlowFits(v.tb, f) && !KeyFits(v, f.key);
  }

  lemma NoGbr(env: Env, v: Ue)
    requires Good(env, v) && v.q.counts[GBR] == 0
    ensures DrainGbr(env, v, 1) == Drained(v, 0)
  {}
}
