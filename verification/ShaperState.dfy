/** The shaper as the source has it: the operations on the flow table and the token row of one
    UE, which are updated in place. Each method is proved equal to the function that the
    theorems of the other modules are about. */
module ShaperState {
  import opened Sched
  import opened TokenBucket
  import opened Rates
  import opened BucketState
  import opened FlowState
  import Links
  import opened History
  import opened Shaper

  /** Entries handed to the transmit buffer, in order. */
  function Out(tr: seq<Event>): seq<Entry> {
    if tr == [] then []
    else if tr[|tr| - 1].Sent? then Out(tr[..|tr| - 1]) + [tr[|tr| - 1].e]
    else Out(tr[..|tr| - 1])
  }

  lemma OutAppend(tr: seq<Event>, ev: Event)
    ensures Out(tr + [ev]) == if ev.Sent? then Out(tr) + [ev.e] else Out(tr)
  {
    assert (tr + [ev])[..|tr|] == tr;
  }

  lemma {:induction false} OutSame(tr: seq<Event>, evs: seq<Event>)
    requires forall i :: 0 <= i < |evs| ==> !evs[i].Sent?
    ensures Out(tr + evs) == Out(tr)
    decreases |evs|
  {
    if evs == [] {
      assert tr + evs == tr;
    } else {
      OutAppend(tr, evs[0]);
      OutSame(tr + [evs[0]], evs[1..]);
      assert tr + evs == tr + [evs[0]] + evs[1..];
    }
  }

  /** A turn that sends hands the head of the first flow to the transmit buffer. */
  lemma TryOut(env: Env, u: Ue, l: nat, service: Service, alternate: Service)
    requires Good(env, u) && GBR <= l < LISTS && u.q.lists[l] != []
    ensures var i := u.q.lists[l][0]; i < MAX_FLOWS && u.q.flows[i].queue != []
    ensures var r := Try(env, u, l, service, alternate);
      Out(r.u.trace) == if r.n == 1 then Out(u.trace) + [u.q.flows[u.q.lists[l][0]].queue[0]] else Out(u.trace)
  {
    hide Tracked, MeterInv, Consume, Fits, Pop, Activate, Deactivate;
    HeadFlow(u.q, l);
    var f := u.q.flows[u.q.lists[l][0]];
    var e := f.queue[0];
    OutAppend(u.trace, Discarded(f.key, e));
    PayGood(env, u, service, f.qerId, f.key, e, PolicyOf(f), false);
    var p := Consume(u.tb, service, f.qerId, e.len, Now(env, u), env.hz);
    OutSame(u.trace, p.credits);
    OutAppend(u.trace + p.credits, Sent(f.key, e, service, p.slot, PolicyOf(f)));
    assert u.trace + (p.credits + [Sent(f.key, e, service, p.slot, PolicyOf(f))])
        == u.trace + p.credits + [Sent(f.key, e, service, p.slot, PolicyOf(f))];
    assert p.credits + [] == p.credits;
  }

  lemma GoodQueues(env: Env, u: Ue)
    requires Good(env, u)
    ensures Inv(u.q) && Shaped(u.q) && Timely(u.tb, Now(env, u)) && env.hz > 0
    ensures |u.q.lists| == LISTS && |u.q.counts| == LISTS && GBR <= u.q.nextExcess <= DEFAULT
  {}

  /** Between two moments exactly n packets were sent, and they were appended to the
      transmit buffer in the order they were sent. */
  ghost predicate Handed(tr0: seq<Event>, tr1: seq<Event>, tx0: seq<Entry>, tx1: seq<Entry>, n: nat) {
    tx0 <= tx1 && |tx1| == |tx0| + n && Out(tr1) == Out(tr0) + tx1[|tx0|..]
  }

  lemma HandedNone(tr: seq<Event>, tx: seq<Entry>)
    ensures Handed(tr, tr, tx, tx, 0)
  {}

  lemma HandedSize(tr0: seq<Event>, tr1: seq<Event>, tx0: seq<Entry>, tx1: seq<Entry>, n: nat)
    requires Handed(tr0, tr1, tx0, tx1, n)
    ensures |tx1| == |tx0| + n
  {}

  lemma HandedAll(tr0: seq<Event>, tr1: seq<Event>, tx: seq<Entry>, n: nat)
    requires Handed(tr0, tr1, [], tx, n)
    ensures Out(tr1) == Out(tr0) + tx && |tx| == n
  {
    assert tx[0..] == tx;
  }

  lemma HandedTrans(tr0: seq<Event>, tr1: seq<Event>, tr2: seq<Event>,
                    tx0: seq<Entry>, tx1: seq<Entry>, tx2: seq<Entry>, m: nat, n: nat)
    requires Handed(tr0, tr1, tx0, tx1, m) && Handed(tr1, tr2, tx1, tx2, n)
    ensures Handed(tr0, tr2, tx0, tx2, m + n)
  {
    assert tx2[|tx0|..] == tx1[|tx0|..] + tx2[|tx1|..];
  }

  lemma KeysOk(env: Env, u: Ue)
    requires Good(env, u)
    ensures |u.q.flows| == MAX_FLOWS && KeysUnique(u.q.flows)
  {}

  lemma {:induction false} FlushQueueSize(key: FlowKey, s: seq<Entry>)
    ensures |FlushQueue(key, s)| == |s|
  {
    if s != [] { FlushQueueSize(key, s[1..]); }
  }

  lemma {:induction false} FlushSize(flows: seq<Flow>)
    ensures |FlushEvents(flows)| == Total(flows)
  {
    if flows != [] {
      FlushQueueSize(flows[0].key, flows[0].queue);
      FlushSize(flows[1..]);
    }
  }

  lemma FlushCount(env: Env, u: Ue)
    requires Good(env, u)
    ensures |FlushEvents(u.q.flows)| == u.q.queued
  {
    FlushSize(u.q.flows);
  }

  class UeShaper {
    const env: Env
    const row: UeRow
    const table: FlowTable
    var ticks: nat
    ghost var trace: seq<Event>

    ghost function View(): Ue
      reads this, row, table
    {
      Ue(table.q, row.tb, ticks, trace)
    }

    ghost predicate Valid()
      reads this, row, table
    {
      table.Valid() && Good(env, View())
    }

    constructor (env: Env, row: UeRow)
      requires Steady(env) && row.tb == ZeroUe()
      ensures Valid() && this.env == env && this.row == row && fresh(table) && View() == Fresh()
    {
      this.env, this.row := env, row;
      table := new FlowTable();
      ticks, trace := 0, [];
      new;
      FreshGood(env);
    }

    // ----- drains

    method ReadClock() returns (now: nat)
      modifies this`ticks
      ensures now == env.clk(old(ticks)) && ticks == old(ticks) + 1
    {
      now := env.clk(ticks);
      ticks := ticks + 1;
    }

    /** One consume call on the UE's row. */
    method Pay(service: Service, qerId: nat, key: FlowKey, e: Entry, policy: Policy, fast: bool) returns (ok: bool)
      requires Timely(row.tb, env.clk(ticks)) && env.hz > 0
      modifies this`ticks, this`trace, row
      ensures
        var p := Consume(old(row.tb), service, qerId, e.len, env.clk(old(ticks)), env.hz);
        && ok == p.ok && row.tb == p.tb && ticks == old(ticks) + 1
        && trace == old(trace) + PaymentEvents(p, key, e, service, policy, fast)
    {
      hide Consume;
      ghost var p := Consume(row.tb, service, qerId, e.len, env.clk(ticks), env.hz);
      var now := ReadClock();
      ok := row.Pay(service, qerId, e.len, now, env.hz);
      trace := trace + PaymentEvents(p, key, e, service, policy, fast);
    }

    /** One turn of the loop below. */
    method TryHead(l: nat, service: Service, alternate: Service, tx: seq<Entry>)
      returns (sent: bool, tx': seq<Entry>)
      requires Valid() && GBR <= l < LISTS && table.q.lists[l] != []
      modifies this, row, table
      ensures Valid()
      ensures var r := Try(env, old(View()), l, service, alternate); View() == r.u && sent == (r.n == 1)
      ensures Handed(old(trace), trace, tx, tx', if sent then 1 else 0)
    {
      hide Good, Inv, Consume, Fits, Pop, Activate, Deactivate, Out, FlowTable.Valid;
      ghost var u := View();
      GoodQueues(env, u);
      HeadFlow(table.q, l);
      TryGood(env, u, l, service, alternate);
      TryOut(env, u, l, service, alternate);
      ServeOk(table.q, l);
      var i := table.First(l);
      var f := table.Facts(i);
      var e := table.HeadEntry(i);
      table.Deactivate(i);
      sent, tx' := false, tx;
      var fits := row.CanCarry(service, f.policy.qerId, e.len);
      if !fits {
        var later := row.CanCarry(alternate, f.policy.qerId, e.len);
        if later {
          table.Activate(i);
        } else {
          var _ := table.PopHead(i);
          trace := trace + [Discarded(f.key, e)];
        }
      } else {
        var paid := Pay(service, f.policy.qerId, f.key, e, f.policy, false);
        if paid {
          var _ := table.PopHead(i);
          sent, tx' := true, tx + [e];
        } else {
          table.Activate(i);
        }
      }
    }

    /** shaper_drain_one_from_list_locked. */
    method DrainOneFrom(l: nat, service: Service, alternate: Service, tx: seq<Entry>)
      returns (sent: bool, tx': seq<Entry>)
      requires Valid() && GBR <= l < LISTS && table.counts[l] >= 0
      modifies this, row, table
      ensures Valid()
      ensures var r := DrainOne(env, old(View()), l, service, alternate, old(table.counts[l]));
        View() == r.u && sent == (r.n == 1)
      ensures Handed(old(trace), trace, tx, tx', if sent then 1 else 0)
    {
      hide Good, Inv, Try, Handed;
      ghost var u := View();
      GoodQueues(env, u);
      var attempts := table.counts[l];
      sent, tx' := false, tx;
      HandedNone(trace, tx);
      while attempts > 0
        invariant 0 <= attempts && Valid() && !sent && tx' == tx
        invariant
          DrainOne(env, u, l, service, alternate, u.q.counts[l])
          == DrainOne(env, View(), l, service, alternate, attempts)
        invariant Handed(u.trace, trace, tx, tx', 0)
      {
        GoodQueues(env, View());
        var first := table.First(l);
        if first == Links.NIL { return; }
        ghost var trace1 := trace;
        sent, tx' := TryHead(l, service, alternate, tx);
        HandedTrans(u.trace, trace1, trace, tx, tx, tx', 0, if sent then 1 else 0);
        if sent { return; }
        attempts := attempts - 1;
      }
    }

    /** shaper_drain_service_locked. */
    method DrainServiceFrom(l: nat, service: Service, alternate: Service, tx: seq<Entry>, budget: nat)
      returns (sent: nat, tx': seq<Entry>)
      requires Valid() && GBR <= l < LISTS
      modifies this, row, table
      ensures Valid()
      ensures Drained(View(), sent) == DrainService(env, old(View()), l, service, alternate, budget)
      ensures Handed(old(trace), trace, tx, tx', sent)
    {
      hide Good, Inv, DrainOne, Handed, Progress, Shaped, Timely;
      ghost var u := View();
      sent, tx' := 0, tx;
      HandedNone(trace, tx);
      GoodQueues(env, View());
      while sent < budget && table.counts[l] > 0
        invariant sent <= budget && Valid() && |table.counts| == LISTS
        invariant var r := DrainService(env, View(), l, service, alternate, budget - sent);
          DrainService(env, u, l, service, alternate, budget) == Drained(r.u, sent + r.n)
        invariant Handed(u.trace, trace, tx, tx', sent)
      {
        var ok: bool;
        ghost var trace1, tx1 := trace, tx';
        ok, tx' := DrainOneFrom(l, service, alternate, tx');
        HandedTrans(u.trace, trace1, trace, tx, tx1, tx', sent, if ok then 1 else 0);
        GoodQueues(env, View());
        if !ok { break; }
        sent := sent + 1;
      }
    }

    /** The inner loop of shaper_drain_excess_locked: one packet from the first of the three
        lists, in turn, that has one to send. */
    method DrainNextList(tx: seq<Entry>) returns (n: nat, tx': seq<Entry>)
      requires Valid()
      modifies this, row, table
      ensures Valid()
      ensures Drained(View(), n) == ExcessRound(env, old(View()), 3)
      ensures Handed(old(trace), trace, tx, tx', n)
    {
      hide Good, Inv, DrainService, Handed, Progress, Shaped, Timely;
      ghost var v := View();
      n, tx' := 0, tx;
      var attempt := 0;
      HandedNone(trace, tx');
      while attempt < 3 && n == 0
        invariant attempt <= 3 && n <= 1 && Valid()
        invariant n == 0 ==> ExcessRound(env, v, 3) == ExcessRound(env, View(), 3 - attempt)
        invariant n == 1 ==> ExcessRound(env, v, 3) == Drained(View(), 1)
        invariant Handed(v.trace, trace, tx, tx', n)
      {
        GoodQueues(env, View());
        var l := table.nextExcess;
        AdvanceGood(env, View());
        table.Advance(NextList(l));
        if table.counts[l] != 0 {
          ghost var trace1, tx1 := trace, tx';
          n, tx' := DrainServiceFrom(l, ExcessService(l), ExcessAlternate(l), tx', 1);
          HandedTrans(v.trace, trace1, trace, tx, tx1, tx', 0, n);
        }
        attempt := attempt + 1;
      }
    }

    /** shaper_drain_excess_locked. */
    method DrainExcessFrom(tx: seq<Entry>, budget: nat) returns (sent: nat, tx': seq<Entry>)
      requires Valid()
      modifies this, row, table
      ensures Valid()
      ensures Drained(View(), sent) == DrainExcess(env, old(View()), budget)
      ensures Handed(old(trace), trace, tx, tx', sent)
    {
      hide Good, Inv, ExcessRound, Handed, Progress, Shaped, Timely;
      ghost var u := View();
      sent, tx' := 0, tx;
      HandedNone(trace, tx);
      GoodQueues(env, View());
      while sent < budget && (table.counts[GBR] > 0 || table.counts[NON_GBR] > 0 || table.counts[DEFAULT] > 0)
        invariant sent <= budget && Valid() && |table.counts| == LISTS
        invariant var r := DrainExcess(env, View(), budget - sent);
          DrainExcess(env, u, budget) == Drained(r.u, sent + r.n)
        invariant Handed(u.trace, trace, tx, tx', sent)
      {
        ghost var trace1, tx1 := trace, tx';
        var n: nat;
        n, tx' := DrainNextList(tx');
        HandedTrans(u.trace, trace1, trace, tx, tx1, tx', sent, n);
        GoodQueues(env, View());
        if n == 0 { break; }
        sent := sent + n;
      }
    }

    /** One turn of drain_ue_shaper: a guaranteed burst, then an excess burst. */
    method DrainBursts(tx: seq<Entry>, left: nat) returns (n: nat, tx': seq<Entry>)
      requires Valid() && 0 < left && |tx| < DRAIN_CHUNK
      modifies this, row, table
      ensures Valid()
      ensures Drained(View(), n) == DrainRound(env, old(View()), left, |tx|)
      ensures Handed(old(trace), trace, tx, tx', n)
    {
      hide Good, Inv, DrainService, DrainExcess, Handed, Progress, Shaped, Timely;
      ghost var u := View();
      n, tx' := DrainServiceFrom(GBR, Guaranteed, Excess, tx, Burst(left, |tx|));
      HandedSize(u.trace, trace, tx, tx', n);
      if n == left || |tx'| == DRAIN_CHUNK { return; }
      ghost var trace1, tx1 := trace, tx';
      var m: nat;
      m, tx' := DrainExcessFrom(tx', Burst(left - n, |tx'|));
      HandedTrans(u.trace, trace1, trace, tx, tx1, tx', n, m);
      n := n + m;
    }

    /** drain_ue_shaper, up to handing `tx` to the transmit thread. The result also says
        whether the UE's bit in the active bitmap is to be set. */
    method Drain(budget: nat) returns (total: nat, tx: seq<Entry>, active: bool)
      requires Valid()
      modifies this, row, table
      ensures Valid()
      ensures Drained(View(), total) == DrainUe(env, old(View()), budget)
      ensures total == |tx| && total <= budget && total <= DRAIN_CHUNK
      ensures Out(trace) == old(Out(trace)) + tx
      ensures active <==> table.q.queued > 0
    {
      hide Good, Inv, DrainRound, Handed, Progress, Shaped, Timely;
      ghost var u := View();
      total, tx := 0, [];
      var left: nat := budget;
      HandedNone(trace, tx);
      while left > 0 && |tx| < DRAIN_CHUNK && table.queued > 0
        invariant Valid() && left + total == budget && |tx| == total <= DRAIN_CHUNK
        invariant var r := DrainLoop(env, View(), left, |tx|);
          DrainLoop(env, u, budget, 0) == Drained(r.u, total + r.n)
        invariant Handed(u.trace, trace, [], tx, total)
      {
        ghost var trace1, tx1 := trace, tx;
        var n: nat;
        n, tx := DrainBursts(tx, left);
        HandedTrans(u.trace, trace1, trace, [], tx1, tx, total, n);
        HandedSize(u.trace, trace, [], tx, total + n);
        total, left := total + n, left - n;
        if n == 0 { break; }
      }
      HandedAll(u.trace, trace, tx, total);
      active := table.queued > 0;
    }

    // ----- arrivals

    /** shaper_consume_fast_path for a packet whose flow has none waiting. */
    method TryFastPath(a: Arrival) returns (passed: bool)
      requires Valid() && QueueOf(table.q.flows, a.key) == []
      modifies this`ticks, this`trace, row
      ensures Valid()
      ensures var r := FastPath(env, old(View()), a); View() == r.u && passed == (r.n == 1)
    {
      hide Good, Consume;
      ghost var u := View();
      var e := EntryOf(a);
      GoodQueues(env, u);
      if !a.hasGbr {
        PayNowGood(env, u, a, SessionAmbr);
        passed := Pay(SessionAmbr, a.qerId, a.key, e, AskedBy(a), true);
      } else {
        PayNowGood(env, u, a, Guaranteed);
        passed := Pay(Guaranteed, a.qerId, a.key, e, AskedBy(a), true);
        if !passed {
          GoodQueues(env, View());
          PayNowGood(env, View(), a, Excess);
          passed := Pay(Excess, a.qerId, a.key, e, AskedBy(a), true);
        }
      }
    }

    /** Drops the arriving packet. */
    method RefusePacket(a: Arrival)
      modifies this`trace
      ensures trace == old(trace) + [Refused(a.key, EntryOf(a))]
    {
      trace := trace + [Refused(a.key, EntryOf(a))];
    }

    /** The tail of shape_or_enqueue_packet, for an existing flow. */
    method QueueBehind(a: Arrival, i: nat, entryFree: bool) returns (d: Decision)
      requires Valid() && i < MAX_FLOWS && table.q.flows[i].inUse && table.q.flows[i].key == a.key
      modifies this, table
      ensures Valid()
      ensures Verdict(View(), d) == Behind(old(View()), a, i, entryFree)
    {
      hide Good, Inv, Push, UpdatePolicy, FlowTable.Valid;
      GoodQueues(env, View());
      BehindGood(env, View(), a, i, entryFree);
      table.UpdatePolicy(i, a.hasGbr, a.qerId);
      var pkts := table.Packets(i);
      var waiting := table.Waiting();
      if pkts >= MAX_PER_FLOW || waiting >= MAX_PER_UE || !entryFree {
        RefusePacket(a);
        return Drop;
      }
      table.PushTail(i, EntryOf(a));
      trace := trace + [Queued(a.key, EntryOf(a))];
      d := Enqueue;
    }

    /** The tail of shape_or_enqueue_packet, for a flow opened in free slot i. */
    method QueueFirst(a: Arrival, i: nat, entryFree: bool) returns (d: Decision)
      requires Valid() && i < MAX_FLOWS && !table.q.flows[i].inUse && QueueOf(table.q.flows, a.key) == []
      requires forall j :: 0 <= j < MAX_FLOWS && table.q.flows[j].inUse ==> table.q.flows[j].key != a.key
      modifies this, table
      ensures Valid()
      ensures Verdict(View(), d) == Open(old(View()), a, i, entryFree)
    {
      hide Good, Inv, Push, UpdatePolicy, Release, FlowTable.Valid;
      GoodQueues(env, View());
      OpenGood(env, View(), a, i, entryFree);
      FreeIsZero(env, View(), i);
      table.Claim(i, a.key);
      PolicyQueue(table.q, i, a.hasGbr, a.qerId);
      table.UpdatePolicy(i, a.hasGbr, a.qerId);
      var waiting := table.Waiting();
      if waiting >= MAX_PER_UE || !entryFree {
        table.Release(i);
        RefusePacket(a);
        return Drop;
      }
      table.PushTail(i, EntryOf(a));
      trace := trace + [Queued(a.key, EntryOf(a))];
      d := Enqueue;
    }

    /** shape_or_enqueue_packet. */
    method Shape(a: Arrival, entryFree: bool) returns (d: Decision)
      requires Valid()
      modifies this, row, table
      ensures Valid()
      ensures Verdict(View(), d) == Arrive(env, old(View()), a, entryFree)
    {
      hide Good, Inv, Behind, Open, FastPath, Fits, FlowTable.Valid, Lookup, FreeSlot, QueueOf, Shaped, Timely;
      ghost var u := View();
      GoodQueues(env, u);
      ArriveGood(env, u, a, entryFree);
      var e := EntryOf(a);
      var fits := row.CanCarry(if a.hasGbr then Excess else SessionAmbr, a.qerId, e.len);
      if e.len == 0 || !fits {
        RefusePacket(a);
        return Drop;
      }
      KeysOk(env, u);
      var i := table.FindFlow(a.key, env.home(a.key));
      if i >= 0 {
        d := QueueBehind(a, i, entryFree);
        return;
      }
      NoFlow(table.q.flows, a.key, env.home(a.key));
      var passed := TryFastPath(a);
      if passed { return Pass; }
      GoodQueues(env, View());
      var free := table.FindFree(env.home(a.key));
      if free < 0 {
        RefusePacket(a);
        return Drop;
      }
      d := QueueFirst(a, free, entryFree);
    }

    // ----- configuration

    /** A refreshed Session-AMBR. */
    method Refresh(rate: nat, conflict: bool) returns (ok: bool)
      requires Valid()
      modifies this`ticks, this`trace, row
      ensures Valid() && View() == Do(env, old(View()), OnAmbr(rate, conflict)) && ok == (old(row.tb.ueIp) != 0)
    {
      hide Good, Inv;
      ghost var u := View();
      DoGood(env, u, OnAmbr(rate, conflict));
      var now := ReadClock();
      ok := row.SetAmbr(rate, conflict, now);
      trace := trace + RefreshAmbr(u.tb, rate, conflict, now).events;
    }

    /** A refreshed GBR QER. */
    method RefreshGbr(id: nat, qfi: nat, gfbr: nat, mfbr: nat) returns (ok: bool)
      requires Valid()
      modifies this`ticks, this`trace, row
      ensures Valid() && View() == Do(env, old(View()), OnQer(id, qfi, gfbr, mfbr))
      ensures ok == RefreshQer(old(row.tb), id, qfi, gfbr, mfbr, env.clk(old(ticks))).ok
    {
      hide Good, Inv, RefreshQer;
      ghost var u := View();
      DoGood(env, u, OnQer(id, qfi, gfbr, mfbr));
      var now := ReadClock();
      ok := row.SetQer(id, qfi, gfbr, mfbr, now);
      trace := trace + RefreshQer(u.tb, id, qfi, gfbr, mfbr, now).events;
    }

    // ----- removal

    /** shaper_flush_ue: frees every waiting packet and resets the queues. */
    method FlushAll() returns (flushed: nat)
      requires Valid()
      modifies this`trace, table
      ensures Valid() && View() == Flush(old(View())) && flushed == old(table.q.queued)
    {
      hide Good, Inv, FlowTable.Valid;
      ghost var u := View();
      FlushGood(env, u);
      FlushCount(env, u);
      FlushSize(u.q.flows);
      flushed := table.Flush();
      trace := trace + FlushEvents(u.q.flows);
    }
  }

  lemma FreeIsZero(env: Env, u: Ue, i: nat)
    requires Good(env, u) && i < MAX_FLOWS && !u.q.flows[i].inUse
    ensures u.q.flows[i] == ZERO_FLOW
  {
    assert FlowOk(u.q.flows[i]);
  }

  lemma PolicyQueue(q: Sched, i: nat, hasGbr: bool, qerId: nat)
    requires Shaped(q) && i < MAX_FLOWS
    ensures UpdatePolicy(q, i, hasGbr, qerId).flows[i].queue == q.flows[i].queue
  {}
}
