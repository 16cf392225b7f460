/** Runs from start-up that end in the failures of `Starving`: a UE is added, one packet takes
    all tokens, others wait, and a drain stops although the first of them can be paid for
    (5gc/upf_u/upf_u.c:580-735, 829-939). */
module FailingRuns {
  import opened Common
  import opened Arith
  import opened Sched
  import opened TokenBucket
  import opened Rates
  import opened History
  import opened Shaper
  import opened Turns
  import opened Dropping
  import opened Settling
  import opened Stopping
  import opened Starving

  const PLAIN := Policy(false, 0)

  /** Packets of one flow of UE 1, without guaranteed bit rate. */
  function Plain(len: nat): Arrival { Arrival(ZERO_KEY.(ueIp := 1), false, 0, 0, 0, len, len, 0) }

  /** The only bucket in use of UE 1. */
  function Holding(rate: nat, b: Bucket): UeTb { UeTb(1, rate, false, b, ZeroQers()) }

  // ----- single steps

  /** A UE without waiting packets that has just looked at its bucket. */
  ghost predicate Idle(env: Env, u: Ue, rate: nat, b: Bucket) {
    && Good(env, u) && u.q == Empty() && u.tb == Holding(rate, b) && b.last == Now(env, u)
    && forall k: FlowKey :: env.home(k) == 0
  }

  lemma Begins(env: Env, rate: nat)
    requires Steady(env) && env.clk(0) == env.clk(1) && forall k: FlowKey :: env.home(k) == 0
    ensures Good(env, Fresh())
    ensures
      var u := Do(env, Fresh(), OnAdd(1, rate, false));
      Idle(env, u, rate, Init(rate, env.clk(0))) && u.ticks == 1
  {
    hide Good;
    FreshGood(env);
    DoGood(env, Fresh(), OnAdd(1, rate, false));
  }

  lemma NobodyWaits(key: FlowKey)
    ensures Lookup(Empty().flows, key, 0, 0) == -1 && FreeSlot(Empty().flows, 0, 0) == 0
    ensures QueueOf(Empty().flows, key) == []
  {
    QueueOfNone(Empty().flows, key);
    if Lookup(Empty().flows, key, 0, 0) >= 0 { assert false; }
  }

  /** What a packet finds that arrives when no time has passed. */
  lemma PaysAtOnce(rate: nat, b: Bucket, len: nat, hz: nat)
    requires hz > 0 && WellFormed(b) && Timely(Holding(rate, b), b.last)
    ensures
      var p := Consume(Holding(rate, b), SessionAmbr, 0, len, b.last, hz);
      if len <= b.tokens then p.ok && p.tb == Holding(rate, b.(tokens := b.tokens - len))
      else !p.ok && p.tb == Holding(rate, b)
  {
    RefillAtOnce(b, hz);
  }

  lemma IdleBucket(env: Env, u: Ue, rate: nat, b: Bucket)
    requires Idle(env, u, rate, b)
    ensures env.hz > 0 && WellFormed(b) && Timely(u.tb, Now(env, u)) && Inv(u.q)
  {
    MeterWellFormed(u.tb, u.trace, env.hz);
  }

  /** A packet for which there are tokens passes. */
  lemma Passes(env: Env, u: Ue, rate: nat, b: Bucket, len: nat)
    requires Idle(env, u, rate, b) && 0 < len <= b.tokens && env.clk(u.ticks + 1) == b.last
    ensures
      var v := Do(env, u, OnPacket(Plain(len), true));
      Idle(env, v, rate, b.(tokens := b.tokens - len)) && v.ticks == u.ticks + 1
  {
    hide Tracked, MeterInv, Inv, Lookup, FreeSlot, Consume, Open;
    IdleBucket(env, u, rate, b);
    NobodyWaits(Plain(len).key);
    PaysAtOnce(rate, b, len, env.hz);
    DoGood(env, u, OnPacket(Plain(len), true));
  }

  /** A packet for which there are none opens a flow. */
  lemma Waits(env: Env, u: Ue, rate: nat, b: Bucket, len: nat) returns (w: Ue)
    requires Idle(env, u, rate, b) && b.tokens < len <= b.depth
    ensures Good(env, w) && w.tb == u.tb && w.ticks == u.ticks + 1
    ensures Do(env, u, OnPacket(Plain(len), true)) == Waiter(w, PLAIN, len)
  {
    hide Tracked, MeterInv, Inv, Lookup, FreeSlot, Consume, Open;
    var a := Plain(len);
    IdleBucket(env, u, rate, b);
    NobodyWaits(a.key);
    PaysAtOnce(rate, b, len, env.hz);
    PayNowGood(env, u, a, SessionAmbr);
    w := PayNow(env, u, a, SessionAmbr).u;
    NothingToFlush(w);
  }

  lemma NothingToFlush(u: Ue)
    requires u.q == Empty()
    ensures Flush(u) == u
  {
    NoEvents(u.q.flows);
    assert u.trace + [] == u.trace;
  }

  lemma {:induction false} NoEvents(flows: seq<Flow>)
    requires forall i :: 0 <= i < |flows| ==> flows[i].queue == []
    ensures FlushEvents(flows) == []
  {
    if flows != [] { NoEvents(flows[1..]); }
  }

  // ----- a drain that overlooks a token

  /** The clock stands at 0 while packets arrive and at 5 from the drain on. */
  function LateClock(): Env { Env(n => if n < 3 then 0 else 5, 1000, _ => 0) }

  /** At 3 kbit/s: a packet of the full depth passes, then one of two bytes waits. */
  function OverlookingRun(): seq<Op> {
    [OnAdd(1, 3, false), OnPacket(Plain(MIN_DEPTH), true), OnPacket(Plain(2), true)]
  }

  lemma EmptyAfterFive()
    ensures
      var b := Bucket(3, MIN_DEPTH, 0, 0);
      Fillable(b, 5, 1000) && !Settles(b, 5, 1000) && Ceiling(b, 5, 1000) == 2
  {
    SomeBucketsDoNotSettle();
    var b := Bucket(3, MIN_DEPTH, 0, 0);
    assert Produced(b, 5, 1000) == 1 && CyclesUsed(1, 375, 1000) == 2;
    var r := Refill(b, 5, 1000);
    assert r == Bucket(3, MIN_DEPTH, 1, 2) && Produced(r, 5, 1000) == 1;
  }

  /** A state that the code reaches: every waiting packet fits, the head can be paid for, and
      yet a drain with a budget of one sends nothing. */
  lemma OverlookedIsReached() returns (v: Ue)
    ensures Steady(LateClock()) && Reaches(LateClock(), Fresh(), OverlookingRun(), v)
    ensures Good(LateClock(), v) && Frozen(LateClock(), v, 5) && v.tb.ueIp != 0 && AllFit(v)
    ensures !Conserves(LateClock(), v, 1, 5) && DrainUe(LateClock(), v, 1).n == 0
  {
    hide Do, Good, AllFit, Waiter, DrainUe, Stuck, Settles, Ceiling, FindQer;
    var env, ops := LateClock(), OverlookingRun();
    assert Depth(3) == MIN_DEPTH;
    Begins(env, 3);
    var u1 := Do(env, Fresh(), ops[0]);
    Passes(env, u1, 3, Init(3, 0), MIN_DEPTH);
    var u2 := Do(env, u1, ops[1]);
    var b := Bucket(3, MIN_DEPTH, 0, 0);
    var w := Waits(env, u2, 3, b, 2);
    v := Do(env, u2, ops[2]);
    EmptyAfterFive();
    GoodReady(env, w, 5);
    assert Starves(w.tb, PLAIN, 5, 1000);
    WaiterStarves(env, w, PLAIN, 5);
    OneMore(env, u2, ops[2], [], v);
    OneMore(env, u1, ops[1], [ops[2]], v);
    OneMore(env, Fresh(), ops[0], [ops[1], ops[2]], v);
    assert ops == [ops[0]] + [ops[1], ops[2]];
  }

  lemma OneMore(env: Env, u: Ue, op: Op, rest: seq<Op>, v: Ue)
    requires Good(env, u) && Reaches(env, Do(env, u, op), rest, v)
    ensures Reaches(env, u, [op] + rest, v)
  {
    hide Good, Do;
    assert ([op] + rest)[1..] == rest;
  }

  // ----- a drain that ends with a drop

  function StoppedClock(): Env { Env(_ => 0, 1000, _ => 0) }

  /** The rate of a bucket of 12500 bytes. */
  const WIDE := 1000

  /** A packet of the full depth passes, another one and one of a byte wait, and then the
      Session-AMBR is lowered. */
  function LoweringRun(): seq<Op> {
    var long := Depth(WIDE);
    [OnAdd(1, WIDE, false), OnPacket(Plain(long), true), OnPacket(Plain(long), true), OnPacket(Plain(1), true),
     OnAmbr(3, false)]
  }

  /** A packet behind the one that waits. */
  lemma Follows(env: Env, w: Ue, long: nat)
    requires Good(env, w) && w.tb.ueIp == 1 && Admissible(w.tb, false, 0, 1) && forall k: FlowKey :: env.home(k) == 0
    ensures Good(env, Waiter(w, PLAIN, long))
    ensures
      var v := Do(env, Waiter(w, PLAIN, long), OnPacket(Plain(1), true));
      && Good(env, v) && v.tb == w.tb && v.ticks == w.ticks && v.q.queued == 2 && v.q.nextExcess == GBR
      && v.q.lists == Empty().lists[DEFAULT := [0]] && v.q.counts == Empty().counts[DEFAULT := 1]
      && v.q.flows[0].inUse && PolicyOf(v.q.flows[0]) == PLAIN && |v.q.flows[0].queue| == 2
      && v.q.flows[0].queue[0].len == long && v.q.flows[0].queue[1].len == 1
  {
    hide Tracked, MeterInv, ListsOk, FlowsOk, Waiter, Admissible;
    var x, a := Waiter(w, PLAIN, long), Plain(1);
    WaiterAlone(env, w, PLAIN, long);
    WaiterKey(w, PLAIN, long);
    assert Lookup(x.q.flows, a.key, 0, 0) == 0;
    assert FlowOk(x.q.flows[0]) by { InUseOk(x.q); }
    BehindGood(env, x, a, 0, true);
    PushOk(x.q, 0, EntryOf(a));
  }

  lemma InUseOk(q: Sched)
    requires Inv(q) && q.flows[0].inUse
    ensures FlowOk(q.flows[0])
  {}

  lemma WaiterKey(u: Ue, policy: Policy, len: nat)
    ensures
      var v := Waiter(u, policy, len);
      |v.q.flows| == MAX_FLOWS && (v.q.flows[0].inUse ==> v.q.flows[0].key == ZERO_KEY.(ueIp := u.tb.ueIp))
  {
    EmptyOk();
    var a := Lone(u, policy, len);
    OpenOk(Empty(), 0, a.key, a.hasGbr, a.qerId, EntryOf(a));
  }

  lemma Lowers(env: Env, u: Ue)
    requires Good(env, u) && u.tb == Holding(WIDE, u.tb.ambrTb)
    ensures
      var v := Do(env, u, OnAmbr(3, false));
      Good(env, v) && v.q == u.q && v.tb == Holding(3, Init(3, Now(env, u))) && v.ticks == u.ticks + 1
  {
    hide Good;
    DoGood(env, u, OnAmbr(3, false));
  }

  /** A state that the code reaches: the drain drops the head, which no longer fits, and stops
      although the packet behind it can be paid for. */
  lemma DropIsReached() returns (v: Ue)
    ensures Steady(StoppedClock()) && Reaches(StoppedClock(), Fresh(), LoweringRun(), v)
    ensures Good(StoppedClock(), v) && Frozen(StoppedClock(), v, 0) && v.tb.ueIp != 0 && Restful(v.tb, 0, 1000)
    ensures !Conserves(StoppedClock(), v, 1, 0) && !AllFit(v)
    ensures Drops(DrainUe(StoppedClock(), v, 1).u.trace, None) == Drops(v.trace, None) + 1
  {
    hide Do, Good, AllFit, Waiter, Restful, Conserves, DrainUe, Drops;
    var env, ops, long := StoppedClock(), LoweringRun(), Depth(WIDE);
    assert Depth(3) == MIN_DEPTH < long;
    Begins(env, WIDE);
    var u1 := Do(env, Fresh(), ops[0]);
    Passes(env, u1, WIDE, Init(WIDE, 0), long);
    var u2 := Do(env, u1, ops[1]);
    var w := Waits(env, u2, WIDE, Bucket(WIDE, long, 0, 0), long);
    Follows(env, w, long);
    var u3 := Do(env, u2, ops[2]);
    var u4 := Do(env, u3, ops[3]);
    Lowers(env, u4);
    v := Do(env, u4, ops[4]);
    var b := Init(3, 0);
    RefillAtOnce(b, 1000);
    GoodReady(env, v, 0);
    DropEndsDrain(env, v, 0);
    FullRests(v.tb, 1000);
    OneMore(env, u4, ops[4], [], v);
    OneMore(env, u3, ops[3], [ops[4]], v);
    OneMore(env, u2, ops[2], [ops[3], ops[4]], v);
    OneMore(env, u1, ops[1], [ops[2], ops[3], ops[4]], v);
    OneMore(env, Fresh(), ops[0], [ops[1], ops[2], ops[3], ops[4]], v);
    assert ops == [ops[0]] + [ops[1], ops[2], ops[3], ops[4]];
  }

  lemma FullRests(tb: UeTb, hz: nat)
    requires Ready(tb, 0, hz) && tb == Holding(3, Init(3, 0))
    ensures Restful(tb, 0, hz)
  {
    RefillAtOnce(tb.ambrTb, hz);
    forall id: nat ensures FindQer(tb.qers, id, 0) < 0 {}
  }
}
