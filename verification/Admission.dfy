/** What the shaper decides about an arriving packet and what becomes of it
    (5gc/upf_u/upf_u.c:580-685), and that every bucket runs at the configured rate
    (5gc/upf_u/upf_u_trtcm.c:482-609). */
module Admission {
  import opened Sched
  import opened TokenBucket
  import opened Rates
  import opened History
  import opened Shaper

  // ----- decisions

  /** Tokens for the packet are there: guaranteed ones, else excess ones at the next reading
      of the clock; Session-AMBR ones for a flow without guaranteed bit rate. */
  ghost predicate PaysOnArrival(env: Env, u: Ue, a: Arrival)
    requires Good(env, u) && QueueOf(u.q.flows, a.key) == []
  {
    if !a.hasGbr then PayNow(env, u, a, SessionAmbr).n == 1
    else
      PayNowGood(env, u, a, Guaranteed);
      PayNow(env, u, a, Guaranteed).n == 1 || PayNow(env, PayNow(env, u, a, Guaranteed).u, a, Excess).n == 1
  }

  predicate AllInUse(flows: seq<Flow>) { forall i :: 0 <= i < |flows| ==> flows[i].inUse }

  /** No room for one more packet of the UE. */
  predicate NoRoom(u: Ue, entryFree: bool) { u.q.queued >= MAX_PER_UE || !entryFree }

  /** The decision from the packets that wait, the tokens and the limits alone. */
  ghost function Decided(env: Env, u: Ue, a: Arrival, entryFree: bool): Decision
    requires Good(env, u)
  {
    var waiting := QueueOf(u.q.flows, a.key);
    if EntryOf(a).len == 0 || !Admissible(u.tb, a.hasGbr, a.qerId, EntryOf(a).len) then Drop
    else if waiting != [] then (if |waiting| >= MAX_PER_FLOW || NoRoom(u, entryFree) then Drop else Enqueue)
    else if PaysOnArrival(env, u, a) then Pass
    else if AllInUse(u.q.flows) || NoRoom(u, entryFree) then Drop
    else Enqueue
  }

  /** The queue of a key after an arrival for flow `mine`. */
  ghost predicate QueuedBehind(u: Ue, v: Ue, mine: FlowKey, e: Entry, enqueued: bool, key: FlowKey) {
    QueueOf(v.q.flows, key) == QueueOf(u.q.flows, key) + (if enqueued && key == mine then [e] else [])
  }

  lemma BehindDecides(env: Env, u: Ue, a: Arrival, i: nat, entryFree: bool, key: FlowKey)
    requires Good(env, u) && i < MAX_FLOWS && u.q.flows[i].inUse && u.q.flows[i].key == a.key
    ensures
      var r := Behind(u, a, i, entryFree);
      r.decision == if |QueueOf(u.q.flows, a.key)| >= MAX_PER_FLOW || NoRoom(u, entryFree) then Drop else Enqueue
    ensures var r := Behind(u, a, i, entryFree); QueuedBehind(u, r.u, a.key, EntryOf(a), r.decision == Enqueue, key)
  {
    hide Tracked, MeterInv, ListsOk;
    PolicyOk(u.q, i, a.hasGbr, a.qerId);
    var q := UpdatePolicy(u.q, i, a.hasGbr, a.qerId);
    QueueOfSlot(u.q.flows, i);
    SlotReplaced(u.q.flows, i, q.flows[i], key);
    if Behind(u, a, i, entryFree).decision == Enqueue {
      PushOk(q, i, EntryOf(a));
      SlotReplaced(q.flows, i, Push(q, i, EntryOf(a)).flows[i], key);
    }
  }

  /** Replacing a flow by one with the same key: its own queue changes, no other does. */
  lemma SlotReplaced(flows: seq<Flow>, i: nat, f: Flow, key: FlowKey)
    requires i < |flows| && KeysUnique(flows) && flows[i].inUse && f.inUse && f.key == flows[i].key
    ensures QueueOf(flows[i := f], key) == if key == f.key then f.queue else QueueOf(flows, key)
  {
    if key == f.key { QueueOfSlot(flows[i := f], i); } else { QueueOfOther(flows, i, f, key); }
  }

  lemma OpenDecides(env: Env, u: Ue, a: Arrival, i: nat, entryFree: bool, key: FlowKey)
    requires Good(env, u) && i < MAX_FLOWS && !u.q.flows[i].inUse && QueueOf(u.q.flows, a.key) == []
    requires forall j :: 0 <= j < MAX_FLOWS && u.q.flows[j].inUse ==> u.q.flows[j].key != a.key
    ensures var r := Open(u, a, i, entryFree); r.decision == if NoRoom(u, entryFree) then Drop else Enqueue
    ensures var r := Open(u, a, i, entryFree); QueuedBehind(u, r.u, a.key, EntryOf(a), r.decision == Enqueue, key)
  {
    hide Tracked, MeterInv, ListsOk;
    ReleaseClaimed(u.q, i, a.key, a.hasGbr, a.qerId);
    PolicyQueued(Claim(u.q, i, a.key), i, a.hasGbr, a.qerId);
    if Open(u, a, i, entryFree).decision == Enqueue {
      var f := Opened(a.key, a.hasGbr, a.qerId, EntryOf(a));
      OpenOk(u.q, i, a.key, a.hasGbr, a.qerId, EntryOf(a));
      if key == a.key { QueueOfSlot(u.q.flows[i := f], i); } else { QueueOfOther(u.q.flows, i, f, key); }
    }
  }

  lemma FirstDecides(env: Env, u: Ue, a: Arrival, entryFree: bool, key: FlowKey)
    requires Good(env, u) && QueueOf(u.q.flows, a.key) == []
    requires forall j :: 0 <= j < MAX_FLOWS && u.q.flows[j].inUse ==> u.q.flows[j].key != a.key
    ensures
      var r := First(env, u, a, entryFree);
      r.decision ==
        if PaysOnArrival(env, u, a) then Pass
        else if AllInUse(u.q.flows) || NoRoom(u, entryFree) then Drop
        else Enqueue
    ensures var r := First(env, u, a, entryFree); QueuedBehind(u, r.u, a.key, EntryOf(a), r.decision == Enqueue, key)
  {
    hide Tracked, MeterInv, ListsOk, FlowsOk, Open, FreeSlot;
    var p := FastPath(env, u, a);
    assert p.n == 1 <==> PaysOnArrival(env, u, a);
    hide FastPath, PaysOnArrival;
    var free := FreeSlot(p.u.q.flows, env.home(a.key), 0);
    if free < 0 {
      forall i | 0 <= i < MAX_FLOWS ensures u.q.flows[i].inUse {
        if !u.q.flows[i].inUse { FreeSlotFinds(u.q.flows, env.home(a.key), 0, i); }
      }
    } else if p.n != 1 {
      OpenDecides(env, p.u, a, free, entryFree, key);
    }
  }

  /** The shaper passes a packet iff none of its flow waits and tokens pay for it, drops it
      iff it can never fit or a limit stops it, and queues it otherwise: then it waits behind
      exactly the packets of its flow, and no other flow's queue changes. */
  lemma ArriveDecides(env: Env, u: Ue, a: Arrival, entryFree: bool, key: FlowKey)
    requires Good(env, u)
    ensures Arrive(env, u, a, entryFree).decision == Decided(env, u, a, entryFree)
    ensures var r := Arrive(env, u, a, entryFree); QueuedBehind(u, r.u, a.key, EntryOf(a), r.decision == Enqueue, key)
  {
    hide Tracked, MeterInv, ListsOk, Behind, First, PaysOnArrival;
    if EntryOf(a).len != 0 && Admissible(u.tb, a.hasGbr, a.qerId, EntryOf(a).len) {
      var i := Lookup(u.q.flows, a.key, env.home(a.key), 0);
      if i >= 0 {
        BehindDecides(env, u, a, i, entryFree, key);
        QueueOfSlot(u.q.flows, i);
        assert FlowOk(u.q.flows[i]);
      } else {
        NoFlow(u.q.flows, a.key, env.home(a.key));
        FirstDecides(env, u, a, entryFree, key);
      }
    }
  }

  // ----- what the packet brings along

  /** Every flow with this key is limited as the arrival says. */
  ghost predicate LimitedBy(flows: seq<Flow>, a: Arrival) {
    forall i :: 0 <= i < |flows| && flows[i].inUse && flows[i].key == a.key ==>
      flows[i].hasGbr == a.hasGbr && flows[i].qerId == a.qerId
  }

  /** The flows of other keys are where they were. */
  ghost predicate OthersKept(before: seq<Flow>, after: seq<Flow>, key: FlowKey) {
    && |before| == |after|
    && forall i :: 0 <= i < |before| && before[i].inUse && before[i].key != key ==> after[i] == before[i]
  }

  lemma BehindPolicy(u: Ue, a: Arrival, i: nat, entryFree: bool)
    requires Inv(u.q) && i < MAX_FLOWS && u.q.flows[i].inUse && u.q.flows[i].key == a.key
    ensures var r := Behind(u, a, i, entryFree).u.q.flows; LimitedBy(r, a) && OthersKept(u.q.flows, r, a.key)
  {
    hide ListsOk, FlowsOk, Total, Bytes;
    PolicyOk(u.q, i, a.hasGbr, a.qerId);
    if Behind(u, a, i, entryFree).decision == Enqueue {
      PushOk(UpdatePolicy(u.q, i, a.hasGbr, a.qerId), i, EntryOf(a));
    }
  }

  lemma OpenPolicy(u: Ue, a: Arrival, i: nat, entryFree: bool)
    requires Inv(u.q) && i < MAX_FLOWS && !u.q.flows[i].inUse
    requires forall j :: 0 <= j < MAX_FLOWS && u.q.flows[j].inUse ==> u.q.flows[j].key != a.key
    ensures var r := Open(u, a, i, entryFree).u.q.flows; LimitedBy(r, a) && OthersKept(u.q.flows, r, a.key)
  {
    hide ListsOk, FlowsOk, Total, Bytes;
    ReleaseClaimed(u.q, i, a.key, a.hasGbr, a.qerId);
    PolicyQueued(Claim(u.q, i, a.key), i, a.hasGbr, a.qerId);
    if Open(u, a, i, entryFree).decision == Enqueue {
      OpenOk(u.q, i, a.key, a.hasGbr, a.qerId, EntryOf(a));
    }
  }

  /** An arriving packet that some bucket could carry sets the policy of its flow, for the
      packets that wait already too and even if it is itself dropped for a limit; no other
      flow changes. */
  lemma ArrivePolicy(env: Env, u: Ue, a: Arrival, entryFree: bool)
    requires Good(env, u)
    ensures
      EntryOf(a).len != 0 && Admissible(u.tb, a.hasGbr, a.qerId, EntryOf(a).len) ==>
        LimitedBy(Arrive(env, u, a, entryFree).u.q.flows, a)
    ensures OthersKept(u.q.flows, Arrive(env, u, a, entryFree).u.q.flows, a.key)
  {
    hide Tracked, MeterInv, ListsOk, FlowsOk, Behind, Open, FastPath;
    if EntryOf(a).len != 0 && Admissible(u.tb, a.hasGbr, a.qerId, EntryOf(a).len) {
      var i := Lookup(u.q.flows, a.key, env.home(a.key), 0);
      if i >= 0 {
        BehindPolicy(u, a, i, entryFree);
      } else {
        NoFlow(u.q.flows, a.key, env.home(a.key));
        assert LimitedBy(u.q.flows, a);
        var p := FastPath(env, u, a);
        var free := FreeSlot(p.u.q.flows, env.home(a.key), 0);
        if p.n != 1 && free >= 0 { OpenPolicy(p.u, a, free, entryFree); }
      }
    }
  }

  /** A packet that passes at once is charged to the Session-AMBR without a guaranteed bit
      rate, to GFBR and MFBR as long as both can pay, and to the MFBR alone only then. */
  lemma PassedAs(env: Env, u: Ue, a: Arrival, entryFree: bool)
    requires Good(env, u) && Arrive(env, u, a, entryFree).decision == Pass
    ensures
      var tr := Arrive(env, u, a, entryFree).u.trace;
      var guaranteed := Consume(u.tb, Guaranteed, a.qerId, EntryOf(a).len, Now(env, u), env.hz).ok;
      && 0 < |tr| && tr[|tr| - 1].Passed? && tr[|tr| - 1].policy == Policy(a.hasGbr, a.qerId)
      && tr[|tr| - 1].service == if !a.hasGbr then SessionAmbr else if guaranteed then Guaranteed else Excess
  {
    hide Tracked, MeterInv, ListsOk, FlowsOk, FastPath, Consume, UpdatePolicy, Push, Claim, Release, FreeSlot;
    var i := Lookup(u.q.flows, a.key, env.home(a.key), 0);
    if i < 0 {
      NoFlow(u.q.flows, a.key, env.home(a.key));
      assert Arrive(env, u, a, entryFree).u == FastPath(env, u, a).u;
      FastPathAs(env, u, a);
    }
  }

  lemma FastPathAs(env: Env, u: Ue, a: Arrival)
    requires Good(env, u) && QueueOf(u.q.flows, a.key) == [] && FastPath(env, u, a).n == 1
    ensures
      var tr := FastPath(env, u, a).u.trace;
      var guaranteed := Consume(u.tb, Guaranteed, a.qerId, EntryOf(a).len, Now(env, u), env.hz).ok;
      && 0 < |tr| && tr[|tr| - 1].Passed? && tr[|tr| - 1].policy == Policy(a.hasGbr, a.qerId)
      && tr[|tr| - 1].service == if !a.hasGbr then SessionAmbr else if guaranteed then Guaranteed else Excess
  {
    hide Tracked, MeterInv, ListsOk, FlowsOk, Consume;
  }

  // ----- configured rates

  /** Every bucket in use runs at the rate that was configured, and QER ids are unique. */
  ghost predicate AtConfiguredRates(tb: UeTb) {
    && tb.ambrTb.rate == tb.ambr
    && (forall k :: 0 <= k < |tb.qers| && tb.qers[k].used ==> QerAtRates(tb.qers[k]))
    && (forall j, k :: 0 <= j < k < |tb.qers| && tb.qers[j].used && tb.qers[k].used ==> tb.qers[j].id != tb.qers[k].id)
  }

  predicate QerAtRates(q: Qer) { q.gfbrTb.rate == q.gfbr && q.mfbrTb.rate == q.mfbr }

  lemma SameRatesConfigured(tb: UeTb, tc: UeTb)
    requires AtConfiguredRates(tb) && SameRates(tb, tc)
    ensures AtConfiguredRates(tc)
  {
    forall k | 0 <= k < |tc.qers| ensures SameQer(tb.qers[k], tc.qers[k]) {}
  }

  lemma {:induction false} FindQerMisses(qers: seq<Qer>, id: nat, from: nat, k: nat)
    requires from <= k < |qers| && FindQer(qers, id, from) < 0
    ensures !(qers[k].used && qers[k].id == id)
    decreases |qers| - from
  {
    if from < k { FindQerMisses(qers, id, from + 1, k); }
  }

  lemma {:induction false} FindQerUnique(qers: seq<Qer>, id: nat, from: nat, k: nat)
    requires from <= k < |qers| && qers[k].used && qers[k].id == id
    requires forall j :: 0 <= j < |qers| && j != k && qers[j].used ==> qers[j].id != id
    ensures FindQer(qers, id, from) == k
    decreases |qers| - from
  {
    if from < k { FindQerUnique(qers, id, from + 1, k); }
  }

  lemma {:induction false} FreeQerMisses(qers: seq<Qer>, from: nat, k: nat)
    requires from <= k < |qers| && FreeQer(qers, from) < 0
    ensures qers[k].used
    decreases |qers| - from
  {
    if from < k { FreeQerMisses(qers, from + 1, k); }
  }

  /** Configuring a GBR QER of a UE in use: it fails iff an identifier or a rate is zero, or
      the QER is new and all slots are taken; otherwise the QER is found under its id with
      exactly these rates. */
  lemma RefreshQerSets(tb: UeTb, id: nat, qfi: nat, gfbr: nat, mfbr: nat, now: nat)
    requires AtConfiguredRates(tb)
    ensures
      var r := RefreshQer(tb, id, qfi, gfbr, mfbr, now);
      AtConfiguredRates(r.tb) && r.tb.ueIp == tb.ueIp && r.tb.ambrTb == tb.ambrTb
    ensures
      var r := RefreshQer(tb, id, qfi, gfbr, mfbr, now);
      var room := FindQer(tb.qers, id, 0) >= 0 || exists k :: 0 <= k < |tb.qers| && !tb.qers[k].used;
      r.ok <==> id != 0 && gfbr != 0 && mfbr != 0 && tb.ueIp != 0 && room
    ensures var r := RefreshQer(tb, id, qfi, gfbr, mfbr, now); r.ok ==> HasQer(r.tb, id, qfi, gfbr, mfbr)
    ensures var r := RefreshQer(tb, id, qfi, gfbr, mfbr, now); !r.ok ==> r.tb == tb
  {
    var r := RefreshQer(tb, id, qfi, gfbr, mfbr, now);
    var k := FindQer(tb.qers, id, 0);
    if k < 0 {
      forall j | 0 <= j < |tb.qers| ensures !(tb.qers[j].used && tb.qers[j].id == id) {
        FindQerMisses(tb.qers, id, 0, j);
      }
      if FreeQer(tb.qers, 0) < 0 {
        forall j | 0 <= j < |tb.qers| ensures tb.qers[j].used { FreeQerMisses(tb.qers, 0, j); }
      }
    }
    if r.ok {
      var at := if k >= 0 then k else FreeQer(tb.qers, 0);
      FindQerUnique(r.tb.qers, id, 0, at);
    }
  }

  ghost predicate HasQer(tb: UeTb, id: nat, qfi: nat, gfbr: nat, mfbr: nat) {
    var k := FindQer(tb.qers, id, 0);
    k >= 0 && tb.qers[k].qfi == qfi && tb.qers[k].gfbr == gfbr && tb.qers[k].mfbr == mfbr && QerAtRates(tb.qers[k])
  }

  lemma DrainConfigured(env: Env, u: Ue, budget: nat)
    requires Good(env, u) && AtConfiguredRates(u.tb)
    ensures AtConfiguredRates(DrainUe(env, u, budget).u.tb)
  {
    hide Good, AtConfiguredRates, DrainLoop;
    SameRatesConfigured(u.tb, DrainUe(env, u, budget).u.tb);
  }

  lemma ArriveConfigured(env: Env, u: Ue, a: Arrival, entryFree: bool)
    requires Good(env, u) && AtConfiguredRates(u.tb)
    ensures AtConfiguredRates(Arrive(env, u, a, entryFree).u.tb)
  {
    hide Tracked, MeterInv, ListsOk, FlowsOk, AtConfiguredRates, SameRates, FastPath;
    if EntryOf(a).len != 0 && Admissible(u.tb, a.hasGbr, a.qerId, EntryOf(a).len) {
      var i := Lookup(u.q.flows, a.key, env.home(a.key), 0);
      if i < 0 {
        NoFlow(u.q.flows, a.key, env.home(a.key));
        FastPathRates(env, u, a);
        SameRatesConfigured(u.tb, FastPath(env, u, a).u.tb);
      }
    }
  }

  lemma FastPathRates(env: Env, u: Ue, a: Arrival)
    requires Good(env, u) && QueueOf(u.q.flows, a.key) == []
    ensures SameRates(u.tb, FastPath(env, u, a).u.tb)
  {
    hide Tracked, MeterInv, Inv, SameRates;
    var e := EntryOf(a);
    if !a.hasGbr {
      PayGood(env, u, SessionAmbr, a.qerId, a.key, e, AskedBy(a), true);
    } else {
      PayGood(env, u, Guaranteed, a.qerId, a.key, e, AskedBy(a), true);
      PayNowGood(env, u, a, Guaranteed);
      var g := PayNow(env, u, a, Guaranteed);
      PayGood(env, g.u, Excess, a.qerId, a.key, e, AskedBy(a), true);
      SameRatesTrans(u.tb, g.u.tb, PayNow(env, g.u, a, Excess).u.tb);
    }
  }

  lemma DoConfigured(env: Env, u: Ue, op: Op)
    requires Good(env, u) && AtConfiguredRates(u.tb)
    ensures AtConfiguredRates(Do(env, u, op).tb)
  {
    hide Good, Arrive, DrainUe;
    match op
    case OnPacket(a, entryFree) => ArriveConfigured(env, u, a, entryFree);
    case OnDrain(budget) => DrainConfigured(env, u, budget);
    case OnQer(id, qfi, gfbr, mfbr) => RefreshQerSets(u.tb, id, qfi, gfbr, mfbr, Now(env, u));
    case _ =>
  }

  /** Over every run, every bucket runs at the rate configured for it, so that the bounds of
      `RatesHold` are about the configured Session-AMBR, GFBR and MFBR. */
  lemma {:induction false} RunsAtConfiguredRates(env: Env, u: Ue, ops: seq<Op>, v: Ue)
    requires Good(env, u) && AtConfiguredRates(u.tb) && Reaches(env, u, ops, v)
    ensures AtConfiguredRates(v.tb)
    decreases |ops|
  {
    hide Good, Do, AtConfiguredRates;
    if ops != [] {
      DoGood(env, u, ops[0]);
      DoConfigured(env, u, ops[0]);
      RunsAtConfiguredRates(env, Do(env, u, ops[0]), ops[1..], v);
    }
  }

  lemma FreshConfigured()
    ensures AtConfiguredRates(Fresh().tb)
  {}
}
