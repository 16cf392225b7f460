/** When queued packets are dropped (5gc/upf_u/upf_u.c:530-568, 602-606, 713-735): never, for
    a flow whose policy stays and whose widest bucket does not shrink while it waits. */
module Dropping {
  import opened Common
  import opened Sched
  import opened TokenBucket
  import opened Rates
  import opened History
  import opened Shaper
  import opened Turns

  /** The longest packet that a policy admits: the depth of the widest bucket it may use. */
  function RoomFor(tb: UeTb, policy: Policy): nat {
    if tb.ueIp == 0 then 0
    else if !policy.hasGbr then tb.ambrTb.depth
    else var k := FindQer(tb.qers, policy.qerId, 0); if k < 0 then 0 else tb.qers[k].mfbrTb.depth
  }

  lemma RoomAdmits(tb: UeTb, policy: Policy, len: nat)
    ensures Admissible(tb, policy.hasGbr, policy.qerId, len) <==> 0 < RoomFor(tb, policy) && len <= RoomFor(tb, policy)
  {}

  predicate HasRoom(tb: UeTb, policy: Policy, len: nat) { 0 < RoomFor(tb, policy) && len <= RoomFor(tb, policy) }

  ghost predicate FlowFits(tb: UeTb, f: Flow) {
    forall j :: 0 <= j < |f.queue| ==> HasRoom(tb, PolicyOf(f), f.queue[j].len)
  }

  /** Every waiting packet of the flow passes the test that admission made. */
  ghost predicate KeyFits(u: Ue, key: FlowKey) {
    forall i :: 0 <= i < |u.q.flows| && u.q.flows[i].inUse && u.q.flows[i].key == key ==> FlowFits(u.tb, u.q.flows[i])
  }

  lemma SameRatesRoom(tb: UeTb, tc: UeTb, policy: Policy)
    requires SameRates(tb, tc)
    ensures RoomFor(tb, policy) == RoomFor(tc, policy)
  {
    FindQerSame(tb.qers, tc.qers, policy.qerId, 0);
    var k := FindQer(tb.qers, policy.qerId, 0);
    if k >= 0 { assert SameQer(tb.qers[k], tc.qers[k]); }
  }

  // ----- drains

  lemma TryKeepsFit(env: Env, u: Ue, l: nat, service: Service, alternate: Service, key: FlowKey)
    requires Good(env, u) && GBR <= l < LISTS && u.q.lists[l] != [] && Paired(l, service, alternate)
    requires KeyFits(u, key)
    ensures
      var v := Try(env, u, l, service, alternate).u;
      KeyFits(v, key) && Drops(v.trace, Some(key)) == Drops(u.trace, Some(key))
  {
    hide Tracked, MeterInv, Try, Admissible, RoomFor, ListsOk;
    TryFlows(env, u, l, service, alternate);
    TryDropsIff(env, u, l, service, alternate, Some(key));
    TryProgress(env, u, l, service, alternate);
    var i, v := u.q.lists[l][0], Try(env, u, l, service, alternate).u;
    var f := u.q.flows[i];
    RoomAdmits(u.tb, PolicyOf(f), f.queue[0].len);
    if f.key == key { assert FlowFits(u.tb, f) && HasRoom(u.tb, PolicyOf(f), f.queue[0].len); }
    forall j | 0 <= j < |v.q.flows| && v.q.flows[j].inUse && v.q.flows[j].key == key
      ensures FlowFits(v.tb, v.q.flows[j])
    {
      SameRatesRoom(u.tb, v.tb, PolicyOf(v.q.flows[j]));
      if v.q.flows[j] != u.q.flows[j] { ServedFits(u.tb, f); }
    }
  }

  lemma ServedFits(tb: UeTb, f: Flow)
    requires FlowFits(tb, f) && f.queue != []
    ensures FlowFits(tb, Served(f))
  {
    var g := Served(f);
    forall j | 0 <= j < |g.queue| ensures HasRoom(tb, PolicyOf(g), g.queue[j].len) {
      assert HasRoom(tb, PolicyOf(f), f.queue[j + 1].len);
    }
  }

  lemma {:induction false} ActsKeepFit(env: Env, u: Ue, acts: seq<Act>, v: Ue, key: FlowKey)
    requires Good(env, u) && KeyFits(u, key) && Acts(env, u, acts, v)
    ensures KeyFits(v, key) && Drops(v.trace, Some(key)) == Drops(u.trace, Some(key))
    decreases |acts|
  {
    hide Good, Try, FlowFits, Drops;
    if acts != [] {
      var a := acts[0];
      if a.TurnOf? { TryKeepsFit(env, u, a.l, a.service, a.alternate, key); }
      ActsKeepFit(env, Perform(env, u, a), acts[1..], v, key);
    }
  }

  /** While the packets of a flow fit, a drain drops none of them. */
  lemma DrainKeepsFit(env: Env, u: Ue, budget: nat, key: FlowKey)
    requires Good(env, u) && KeyFits(u, key)
    ensures
      var v := DrainUe(env, u, budget).u;
      KeyFits(v, key) && Drops(v.trace, Some(key)) == Drops(u.trace, Some(key))
  {
    var acts := DrainLoopActs(env, u, budget, 0);
    ActsKeepFit(env, u, acts, DrainUe(env, u, budget).u, key);
  }

  /** Every waiting packet passes the test that admission made. */
  ghost predicate AllFit(u: Ue) { forall key :: KeyFits(u, key) }

  lemma TryDropsNone(env: Env, u: Ue, l: nat, service: Service, alternate: Service)
    requires Good(env, u) && GBR <= l < LISTS && u.q.lists[l] != [] && Paired(l, service, alternate) && AllFit(u)
    ensures
      var v := Try(env, u, l, service, alternate).u;
      AllFit(v) && Drops(v.trace, None) == Drops(u.trace, None)
  {
    hide Tracked, MeterInv, Try, Admissible, RoomFor, ListsOk, Drops;
    TryFlows(env, u, l, service, alternate);
    TryDropsIff(env, u, l, service, alternate, None);
    var f := u.q.flows[u.q.lists[l][0]];
    assert KeyFits(u, f.key) && FlowFits(u.tb, f) && HasRoom(u.tb, PolicyOf(f), f.queue[0].len);
    RoomAdmits(u.tb, PolicyOf(f), f.queue[0].len);
    forall key ensures KeyFits(Try(env, u, l, service, alternate).u, key) {
      TryKeepsFit(env, u, l, service, alternate, key);
    }
  }

  lemma {:induction false} ActsDropNone(env: Env, u: Ue, acts: seq<Act>, v: Ue)
    requires Good(env, u) && AllFit(u) && Acts(env, u, acts, v)
    ensures AllFit(v) && Drops(v.trace, None) == Drops(u.trace, None)
    decreases |acts|
  {
    hide Good, Try, KeyFits, Drops;
    if acts != [] {
      var a := acts[0];
      if a.TurnOf? {
        TryDropsNone(env, u, a.l, a.service, a.alternate);
      } else {
        AdvanceFits(u);
      }
      ActsDropNone(env, Perform(env, u, a), acts[1..], v);
    }
  }

  lemma AdvanceFits(u: Ue)
    requires AllFit(u)
    ensures AllFit(Advance(u))
  {
    forall key ensures KeyFits(Advance(u), key) { assert KeyFits(u, key); }
  }

  /** While all waiting packets fit, a drain drops nothing. */
  lemma DrainDropsNothing(env: Env, u: Ue, budget: nat)
    requires Good(env, u) && AllFit(u)
    ensures var v := DrainUe(env, u, budget).u; AllFit(v) && Drops(v.trace, None) == Drops(u.trace, None)
  {
    var acts := DrainLoopActs(env, u, budget, 0);
    ActsDropNone(env, u, acts, DrainUe(env, u, budget).u);
  }

  // ----- arrivals

  /** Same flows, same rates, and no drop on the way. */
  ghost predicate Quiet(u: Ue, v: Ue, key: FlowKey) {
    v.q == u.q && SameRates(u.tb, v.tb) && Drops(v.trace, Some(key)) == Drops(u.trace, Some(key))
  }

  lemma QuietFits(u: Ue, v: Ue, key: FlowKey)
    requires KeyFits(u, key) && Quiet(u, v, key)
    ensures KeyFits(v, key)
  {
    forall i | 0 <= i < |v.q.flows| && v.q.flows[i].inUse && v.q.flows[i].key == key
      ensures FlowFits(v.tb, v.q.flows[i])
    {
      SameRatesRoom(u.tb, v.tb, PolicyOf(v.q.flows[i]));
      assert FlowFits(u.tb, u.q.flows[i]);
    }
  }

  lemma PayNowQuiet(env: Env, u: Ue, a: Arrival, service: Service, key: FlowKey)
    requires Good(env, u)
    ensures Quiet(u, PayNow(env, u, a, service).u, key)
  {
    hide Tracked, MeterInv, Inv, SameRates;
    PayGood(env, u, service, a.qerId, a.key, EntryOf(a), AskedBy(a), true);
    var p := Consume(u.tb, service, a.qerId, EntryOf(a).len, Now(env, u), env.hz);
    DropsSame(u.trace, PaymentEvents(p, a.key, EntryOf(a), service, AskedBy(a), true), Some(key));
  }

  lemma FastPathQuiet(env: Env, u: Ue, a: Arrival, key: FlowKey)
    requires Good(env, u) && QueueOf(u.q.flows, a.key) == []
    ensures Quiet(u, FastPath(env, u, a).u, key)
  {
    hide Tracked, MeterInv, Inv, SameRates, PayNow;
    if !a.hasGbr {
      PayNowQuiet(env, u, a, SessionAmbr, key);
    } else {
      PayNowQuiet(env, u, a, Guaranteed, key);
      PayNowGood(env, u, a, Guaranteed);
      var g := PayNow(env, u, a, Guaranteed);
      if g.n != 1 {
        PayNowQuiet(env, g.u, a, Excess, key);
        SameRatesTrans(u.tb, g.u.tb, PayNow(env, g.u, a, Excess).u.tb);
      }
    }
  }

  /** Slot i becomes `f`; if that is the flow, what waits in it fits. */
  lemma SlotFits(u: Ue, v: Ue, i: nat, f: Flow, key: FlowKey)
    requires KeyFits(u, key) && i < |u.q.flows| && v.q.flows == u.q.flows[i := f] && v.tb == u.tb
    requires f.inUse && f.key == key ==> FlowFits(u.tb, f)
    ensures KeyFits(v, key)
  {}

  lemma OpenKeepsFit(env: Env, u: Ue, a: Arrival, i: nat, entryFree: bool, key: FlowKey)
    requires Good(env, u) && KeyFits(u, key) && i < MAX_FLOWS && !u.q.flows[i].inUse
    requires forall j :: 0 <= j < MAX_FLOWS && u.q.flows[j].inUse ==> u.q.flows[j].key != a.key
    requires HasRoom(u.tb, AskedBy(a), EntryOf(a).len)
    ensures
      var v := Open(u, a, i, entryFree).u;
      KeyFits(v, key) && Drops(v.trace, Some(key)) == Drops(u.trace, Some(key))
  {
    hide Tracked, MeterInv, ListsOk, RoomFor;
    var e := EntryOf(a);
    ReleaseClaimed(u.q, i, a.key, a.hasGbr, a.qerId);
    DropsAppend(u.trace, Refused(a.key, e), Some(key));
    DropsAppend(u.trace, Queued(a.key, e), Some(key));
    if Open(u, a, i, entryFree).decision == Enqueue {
      OpenOk(u.q, i, a.key, a.hasGbr, a.qerId, e);
      SlotFits(u, Open(u, a, i, entryFree).u, i, Opened(a.key, a.hasGbr, a.qerId, e), key);
    }
  }

  lemma BehindKeepsFit(env: Env, u: Ue, a: Arrival, i: nat, entryFree: bool, key: FlowKey)
    requires Good(env, u) && KeyFits(u, key) && i < MAX_FLOWS && u.q.flows[i].inUse && u.q.flows[i].key == a.key
    requires a.key == key ==> PolicyOf(u.q.flows[i]) == AskedBy(a)
    requires HasRoom(u.tb, AskedBy(a), EntryOf(a).len)
    ensures
      var v := Behind(u, a, i, entryFree).u;
      KeyFits(v, key) && Drops(v.trace, Some(key)) == Drops(u.trace, Some(key))
  {
    hide Tracked, MeterInv, ListsOk, RoomFor;
    var e := EntryOf(a);
    PolicyOk(u.q, i, a.hasGbr, a.qerId);
    var q := UpdatePolicy(u.q, i, a.hasGbr, a.qerId);
    SlotFits(u, u.(q := q), i, q.flows[i], key);
    DropsAppend(u.trace, Refused(a.key, e), Some(key));
    DropsAppend(u.trace, Queued(a.key, e), Some(key));
    if Behind(u, a, i, entryFree).decision == Enqueue {
      PushOk(q, i, e);
      SlotFits(u.(q := q), Behind(u, a, i, entryFree).u, i, Push(q, i, e).flows[i], key);
    }
  }

  lemma FirstKeepsFit(env: Env, u: Ue, a: Arrival, entryFree: bool, key: FlowKey)
    requires Good(env, u) && KeyFits(u, key) && QueueOf(u.q.flows, a.key) == []
    requires forall j :: 0 <= j < MAX_FLOWS && u.q.flows[j].inUse ==> u.q.flows[j].key != a.key
    requires HasRoom(u.tb, AskedBy(a), EntryOf(a).len)
    ensures
      var v := First(env, u, a, entryFree).u;
      KeyFits(v, key) && Drops(v.trace, Some(key)) == Drops(u.trace, Some(key))
  {
    hide Tracked, MeterInv, ListsOk, FlowsOk, RoomFor, FlowFits, SameRates, FastPath, Open;
    FastPathQuiet(env, u, a, key);
    var p := FastPath(env, u, a);
    QuietFits(u, p.u, key);
    SameRatesRoom(u.tb, p.u.tb, AskedBy(a));
    DropsAppend(p.u.trace, Refused(a.key, EntryOf(a)), Some(key));
    var free := FreeSlot(p.u.q.flows, env.home(a.key), 0);
    if free >= 0 { OpenKeepsFit(env, p.u, a, free, entryFree, key); }
  }

  lemma ArriveKeepsFit(env: Env, u: Ue, a: Arrival, entryFree: bool, key: FlowKey)
    requires Good(env, u) && KeyFits(u, key) && KeepsFlow(env, u, OnPacket(a, entryFree), key)
    ensures
      var v := Arrive(env, u, a, entryFree).u;
      KeyFits(v, key) && Drops(v.trace, Some(key)) == Drops(u.trace, Some(key))
  {
    hide Tracked, MeterInv, ListsOk, FlowFits, RoomFor, Behind, First;
    DropsAppend(u.trace, Refused(a.key, EntryOf(a)), Some(key));
    RoomAdmits(u.tb, AskedBy(a), EntryOf(a).len);
    var i := Lookup(u.q.flows, a.key, env.home(a.key), 0);
    if EntryOf(a).len != 0 && Admissible(u.tb, a.hasGbr, a.qerId, EntryOf(a).len) {
      if i >= 0 {
        BehindKeepsFit(env, u, a, i, entryFree, key);
      } else {
        NoFlow(u.q.flows, a.key, env.home(a.key));
        FirstKeepsFit(env, u, a, entryFree, key);
      }
    }
  }

  // ----- whole runs

  /** The operation is kind to one flow: an arrival of the flow does not change the policy of
      packets that wait, and a configuration does not lower the depth of the widest bucket
      that their policy allows. Other flows and other buckets may do as they like. */
  ghost predicate KeepsFlow(env: Env, u: Ue, op: Op, key: FlowKey)
    requires Good(env, u)
  {
    match op
    case OnPacket(a, _) => a.key == key ==> forall i: nat :: WaitsIn(u, i, key) ==> PolicyOf(u.q.flows[i]) == AskedBy(a)
    case OnDrain(_) => true
    case OnRemove => true
    case _ => forall i: nat :: WaitsIn(u, i, key) ==> KeepsRoom(u.tb, Do(env, u, op).tb, PolicyOf(u.q.flows[i]))
  }

  predicate WaitsIn(u: Ue, i: nat, key: FlowKey) {
    i < |u.q.flows| && u.q.flows[i].inUse && u.q.flows[i].key == key
  }

  predicate KeepsRoom(tb: UeTb, tc: UeTb, policy: Policy) { RoomFor(tb, policy) <= RoomFor(tc, policy) }

  lemma ConfigureKeepsFit(env: Env, u: Ue, op: Op, key: FlowKey)
    requires Good(env, u) && KeyFits(u, key) && KeepsFlow(env, u, op, key)
    requires !op.OnPacket? && !op.OnDrain? && !op.OnRemove?
    ensures var v := Do(env, u, op); KeyFits(v, key) && Drops(v.trace, Some(key)) == Drops(u.trace, Some(key))
  {
    hide Tracked, MeterInv, Inv, RoomFor;
    var v := Do(env, u, op);
    forall i | 0 <= i < |v.q.flows| && v.q.flows[i].inUse && v.q.flows[i].key == key
      ensures FlowFits(v.tb, v.q.flows[i])
    {
      assert WaitsIn(u, i, key) && FlowFits(u.tb, u.q.flows[i]);
      forall j | 0 <= j < |v.q.flows[i].queue|
        ensures HasRoom(v.tb, PolicyOf(v.q.flows[i]), v.q.flows[i].queue[j].len)
      {
        assert HasRoom(u.tb, PolicyOf(u.q.flows[i]), u.q.flows[i].queue[j].len);
      }
    }
    DropsSame(u.trace, v.trace[|u.trace|..], Some(key));
    assert u.trace + v.trace[|u.trace|..] == v.trace;
  }

  lemma RemoveKeepsFit(env: Env, u: Ue, key: FlowKey)
    requires Good(env, u)
    ensures var v := Do(env, u, OnRemove); KeyFits(v, key) && Drops(v.trace, Some(key)) == Drops(u.trace, Some(key))
  {
    hide Tracked, MeterInv, Inv, Drops, FlowFits, FlushEvents, QueueOf;
    FlushSilent(u.q.flows);
    DropsSame(u.trace, FlushEvents(u.q.flows), Some(key));
    DropsAppend(Flush(u).trace, Cleared, Some(key));
  }

  ghost predicate KindRun(env: Env, u: Ue, ops: seq<Op>, v: Ue, key: FlowKey)
    decreases |ops|
  {
    if ops == [] then u == v
    else Good(env, u) && KeepsFlow(env, u, ops[0], key) && KindRun(env, Do(env, u, ops[0]), ops[1..], v, key)
  }

  /** For every flow: over every run that is kind to it, whatever happens to other flows and
      other buckets, no packet of it is dropped once it was admitted. It leaves only by
      transmission or flush. */
  lemma {:induction false} NeverDropped(env: Env, u: Ue, ops: seq<Op>, v: Ue, key: FlowKey)
    requires Good(env, u) && KeyFits(u, key) && KindRun(env, u, ops, v, key)
    ensures KeyFits(v, key) && Drops(v.trace, Some(key)) == Drops(u.trace, Some(key))
    decreases |ops|
  {
    hide Good, KeyFits, KeepsFlow, Do, Drops;
    if ops != [] {
      StepKeepsFit(env, u, ops[0], key);
      DoGood(env, u, ops[0]);
      NeverDropped(env, Do(env, u, ops[0]), ops[1..], v, key);
    }
  }

  lemma StepKeepsFit(env: Env, u: Ue, op: Op, key: FlowKey)
    requires Good(env, u) && KeyFits(u, key) && KeepsFlow(env, u, op, key)
    ensures var v := Do(env, u, op); KeyFits(v, key) && Drops(v.trace, Some(key)) == Drops(u.trace, Some(key))
  {
    hide Good, KeyFits, KeepsFlow, Drops, Arrive, DrainUe;
    match op
    case OnPacket(a, entryFree) => ArriveKeepsFit(env, u, a, entryFree, key);
    case OnDrain(budget) => DrainKeepsFit(env, u, budget, key);
    case OnRemove => RemoveKeepsFit(env, u, key);
    case _ => ConfigureKeepsFit(env, u, op, key);
  }

  /** A new QER takes no room from any flow that waits under another one. */
  lemma NewQerIsKind(env: Env, u: Ue, id: nat, qfi: nat, gfbr: nat, mfbr: nat, key: FlowKey)
    requires Good(env, u)
    requires forall i: nat :: WaitsIn(u, i, key) && u.q.flows[i].hasGbr ==> u.q.flows[i].qerId != id
    ensures KeepsFlow(env, u, OnQer(id, qfi, gfbr, mfbr), key)
  {
    hide Tracked, MeterInv, Inv;
    var tc := Do(env, u, OnQer(id, qfi, gfbr, mfbr)).tb;
    forall i: nat | WaitsIn(u, i, key) ensures KeepsRoom(u.tb, tc, PolicyOf(u.q.flows[i])) {
      var f := u.q.flows[i];
      if f.hasGbr { OtherQerFound(u.tb.qers, tc.qers, id, f.qerId, 0); }
    }
  }

  /** A changed Session-AMBR takes no room from a flow with guaranteed bit rate. */
  lemma AmbrIsKind(env: Env, u: Ue, rate: nat, conflict: bool, key: FlowKey)
    requires Good(env, u) && forall i: nat :: WaitsIn(u, i, key) ==> u.q.flows[i].hasGbr
    ensures KeepsFlow(env, u, OnAmbr(rate, conflict), key)
  {
    hide Tracked, MeterInv, Inv;
  }

  /** Slots of other ids are where they were. */
  lemma {:induction false} OtherQerFound(qers: seq<Qer>, qers': seq<Qer>, id: nat, other: nat, from: nat)
    requires |qers| == |qers'| && from <= |qers| && id != other
    requires forall k :: 0 <= k < |qers| ==> qers'[k] == qers[k] || OfId(qers[k], qers'[k], id)
    ensures FindQer(qers', other, from) == FindQer(qers, other, from)
    ensures
      var k := FindQer(qers, other, from);
      k >= 0 ==> qers'[k] == qers[k]
    decreases |qers| - from
  {
    if from < |qers| { OtherQerFound(qers, qers', id, other, from + 1); }
  }

  predicate OfId(q: Qer, r: Qer, id: nat) { (!q.used || q.id == id) && r.used && r.id == id }
}
