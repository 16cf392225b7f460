/** The queueing half of one UE's shaper (struct ue_shaper of 5gc/upf_u/upf_u.c): a
    table of flows with bounded FIFOs, and three lists of the flows that wait.

    A TAILQ of flows is a sequence of slot numbers, a chain of entries a sequence of
    entries; the counters the source keeps beside them are kept here too, so that their
    agreement is something to prove. */
module Sched {

  const MAX_FLOWS := 64
  const MAX_PER_FLOW := 512
  const MAX_PER_UE := 2048

  const NONE := 0
  const GBR := 1
  const NON_GBR := 2
  const DEFAULT := 3
  const LISTS := 4

  datatype FlowKey = FlowKey(ueIp: nat, srcIp: nat, dstIp: nat, srcPort: nat, dstPort: nat,
                             proto: nat, qfi: nat, isQos: bool)

  /** A queued packet: `id` stands for the mbuf. */
  datatype Entry = Entry(id: nat, len: nat, destination: nat, color: nat)

  datatype Flow = Flow(inUse: bool, key: FlowKey, queue: seq<Entry>, pkts: int, bytes: int,
                       hasGbr: bool, qerId: nat, onList: nat)

  /** What the PDR of a packet says about its flow: guaranteed bit rate, and by which QER. */
  datatype Policy = Policy(hasGbr: bool, qerId: nat)

  function PolicyOf(f: Flow): Policy { Policy(f.hasGbr, f.qerId) }

  const ZERO_KEY := FlowKey(0, 0, 0, 0, 0, 0, 0, false)
  const ZERO_FLOW := Flow(false, ZERO_KEY, [], 0, 0, false, 0, NONE)

  datatype Sched = Sched(flows: seq<Flow>, lists: seq<seq<nat>>, counts: seq<int>,
                         queued: int, nextExcess: nat)

  predicate Shaped(q: Sched) {
    && |q.flows| == MAX_FLOWS && |q.lists| == LISTS && |q.counts| == LISTS
    && (forall i :: 0 <= i < MAX_FLOWS ==> q.flows[i].onList < LISTS)
  }

  // ----- operations

  /** Removes the first occurrence, as TAILQ_REMOVE unlinks one node. */
  function Remove(s: seq<nat>, x: nat): seq<nat> {
    if s == [] then [] else if s[0] == x then s[1..] else [s[0]] + Remove(s[1..], x)
  }

  function ListFor(f: Flow): (l: nat)
    ensures l < LISTS
  {
    if f.queue == [] then NONE
    else if f.hasGbr then GBR
    else if !f.key.isQos then DEFAULT else NON_GBR
  }

  function Unlink(q: Sched, i: nat): (r: Sched)
    requires Shaped(q) && i < MAX_FLOWS
    ensures Shaped(r)
  {
    var l := q.flows[i].onList;
    q.(lists := q.lists[l := Remove(q.lists[l], i)], counts := q.counts[l := q.counts[l] - 1])
  }

  function Activate(q: Sched, i: nat): (r: Sched)
    requires Shaped(q) && i < MAX_FLOWS
    ensures Shaped(r)
  {
    var l := ListFor(q.flows[i]);
    if l == NONE then q
    else
      var q1 := if q.flows[i].onList != NONE then Unlink(q, i) else q;
      q1.(lists := q1.lists[l := q1.lists[l] + [i]],
          counts := q1.counts[l := q1.counts[l] + 1],
          flows := q1.flows[i := q1.flows[i].(onList := l)])
  }

  function Deactivate(q: Sched, i: nat): (r: Sched)
    requires Shaped(q) && i < MAX_FLOWS
    ensures Shaped(r)
  {
    if q.flows[i].onList == NONE then q
    else var q1 := Unlink(q, i); q1.(flows := q1.flows[i := q1.flows[i].(onList := NONE)])
  }

  function UpdatePolicy(q: Sched, i: nat, hasGbr: bool, qerId: nat): (r: Sched)
    requires Shaped(q) && i < MAX_FLOWS
    ensures Shaped(r)
  {
    if q.flows[i].hasGbr == hasGbr && q.flows[i].qerId == qerId then q
    else
      var active := q.flows[i].onList != NONE;
      var q1 := if active then Deactivate(q, i) else q;
      var q2 := q1.(flows := q1.flows[i := q1.flows[i].(hasGbr := hasGbr, qerId := qerId)]);
      if active then Activate(q2, i) else q2
  }

  function Release(q: Sched, i: nat): (r: Sched)
    requires Shaped(q) && i < MAX_FLOWS
    ensures Shaped(r)
  {
    var q1 := Deactivate(q, i);
    q1.(flows := q1.flows[i := ZERO_FLOW])
  }

  /** Probes the whole table from the key's home slot; the slot in use with this key, or -1. */
  function Lookup(flows: seq<Flow>, key: FlowKey, start: nat, probe: nat): (r: int)
    requires |flows| == MAX_FLOWS && probe <= MAX_FLOWS
    ensures -1 <= r < MAX_FLOWS
    ensures r >= 0 ==> flows[r].inUse && flows[r].key == key
    decreases MAX_FLOWS - probe
  {
    if probe == MAX_FLOWS then -1
    else
      var i := (start + probe) % MAX_FLOWS;
      if flows[i].inUse && flows[i].key == key then i else Lookup(flows, key, start, probe + 1)
  }

  /** The first unused slot in probe order, or -1. */
  function FreeSlot(flows: seq<Flow>, start: nat, probe: nat): (r: int)
    requires |flows| == MAX_FLOWS && probe <= MAX_FLOWS
    ensures -1 <= r < MAX_FLOWS
    ensures r >= 0 ==> !flows[r].inUse
    decreases MAX_FLOWS - probe
  {
    if probe == MAX_FLOWS then -1
    else
      var i := (start + probe) % MAX_FLOWS;
      if !flows[i].inUse then i else FreeSlot(flows, start, probe + 1)
  }

  function Claim(q: Sched, i: nat, key: FlowKey): (r: Sched)
    requires Shaped(q) && i < MAX_FLOWS
    ensures Shaped(r)
  {
    q.(flows := q.flows[i := ZERO_FLOW.(inUse := true, key := key)])
  }

  function Push(q: Sched, i: nat, e: Entry): (r: Sched)
    requires Shaped(q) && i < MAX_FLOWS
    ensures Shaped(r)
  {
    var f := q.flows[i];
    var f1 := f.(queue := f.queue + [e], pkts := f.pkts + 1, bytes := f.bytes + e.len);
    var q1 := q.(flows := q.flows[i := f1], queued := q.queued + 1);
    if f1.pkts == 1 then Activate(q1, i) else q1
  }

  /** Takes the head entry of a flow that was just deactivated, then requeues or frees the flow. */
  function Pop(q: Sched, i: nat): (r: Sched)
    requires Shaped(q) && i < MAX_FLOWS && q.flows[i].queue != []
    ensures Shaped(r)
  {
    var f := q.flows[i];
    var f1 := f.(queue := f.queue[1..], pkts := f.pkts - 1, bytes := f.bytes - f.queue[0].len);
    var q1 := q.(flows := q.flows[i := f1], queued := q.queued - 1);
    if f1.queue != [] then Activate(q1, i) else Release(q1, i)
  }

  /** shaper_flush_ue: every slot is zeroed, every list emptied. */
  function Empty(): Sched {
    Sched(seq(MAX_FLOWS, _ => ZERO_FLOW), seq(LISTS, _ => []), seq(LISTS, _ => 0), 0, GBR)
  }

  // ----- the structural invariant

  predicate Distinct(s: seq<nat>) {
    forall i, j :: 0 <= i < j < |s| ==> s[i] != s[j]
  }

  function Bytes(s: seq<Entry>): nat {
    if s == [] then 0 else s[0].len + Bytes(s[1..])
  }

  function Total(flows: seq<Flow>): nat {
    if flows == [] then 0 else |flows[0].queue| + Total(flows[1..])
  }

  /** A slot is in use exactly while packets wait in it; a free slot is all zero. */
  ghost predicate FlowOk(f: Flow) {
    && (f.inUse ==> f.queue != [] && f.onList == ListFor(f)
                    && f.pkts == |f.queue| <= MAX_PER_FLOW && f.bytes == Bytes(f.queue))
    && (!f.inUse ==> f == ZERO_FLOW)
  }

  ghost predicate FlowsOk(flows: seq<Flow>) {
    forall i :: 0 <= i < |flows| ==> FlowOk(flows[i])
  }

  ghost predicate KeysUnique(flows: seq<Flow>) {
    forall i, j :: 0 <= i < j < |flows| && flows[i].inUse && flows[j].inUse ==> flows[i].key != flows[j].key
  }

  /** List l holds, once each, exactly the flows marked as waiting on it. */
  ghost predicate ListOk(q: Sched, l: nat)
    requires Shaped(q) && l < LISTS
  {
    && Distinct(q.lists[l]) && q.counts[l] == |q.lists[l]|
    && (forall i :: i in q.lists[l] ==> i < MAX_FLOWS && l != NONE && q.flows[i].onList == l)
    && (forall i :: 0 <= i < MAX_FLOWS && l != NONE && q.flows[i].onList == l ==> i in q.lists[l])
  }

  ghost predicate ListsOk(q: Sched)
    requires Shaped(q)
  {
    forall l :: 0 <= l < LISTS ==> ListOk(q, l)
  }

  ghost predicate Inv(q: Sched) {
    && Shaped(q) && ListsOk(q) && KeysUnique(q.flows)
    && FlowsOk(q.flows)
    && q.queued == Total(q.flows) <= MAX_PER_UE
    && GBR <= q.nextExcess <= DEFAULT
  }

  // ----- lists of slots

  lemma {:induction false} RemoveFacts(s: seq<nat>, x: nat)
    requires Distinct(s)
    ensures Distinct(Remove(s, x))
    ensures forall y :: y in Remove(s, x) <==> y in s && y != x
    ensures |Remove(s, x)| == |s| - if x in s then 1 else 0
  {
    if s != [] && s[0] != x {
      var t := Remove(s[1..], x);
      RemoveFacts(s[1..], x);
      assert s == [s[0]] + s[1..];
      assert s[0] !in s[1..];
      assert s[0] !in t;
    } else if s != [] {
      assert s == [s[0]] + s[1..];
    }
  }

  /** Unlinking keeps all lists right, once the flow itself no longer claims its place. */
  lemma DeactivateOk(q: Sched, i: nat)
    requires Shaped(q) && ListsOk(q) && i < MAX_FLOWS
    ensures ListsOk(Deactivate(q, i))
    ensures Deactivate(q, i) == q.(flows := q.flows[i := q.flows[i].(onList := NONE)],
                                   lists := Deactivate(q, i).lists, counts := Deactivate(q, i).counts)
  {
    var l := q.flows[i].onList;
    assert ListOk(q, l);
    RemoveFacts(q.lists[l], i);
    var r := Deactivate(q, i);
    assert q.flows[i := q.flows[i].(onList := NONE)] == r.flows;
    forall k | 0 <= k < LISTS ensures ListOk(r, k) {
      assert ListOk(q, k);
    }
  }

  /** An idle flow is appended to the list its policy dictates. */
  lemma ActivateOk(q: Sched, i: nat)
    requires Shaped(q) && ListsOk(q) && i < MAX_FLOWS
    requires q.flows[i].onList == NONE && q.flows[i].queue != []
    ensures var l := ListFor(q.flows[i]); var r := Activate(q, i);
      && ListsOk(r)
      && r == q.(flows := q.flows[i := q.flows[i].(onList := l)],
                 lists := q.lists[l := q.lists[l] + [i]], counts := q.counts[l := q.counts[l] + 1])
  {
    var r := Activate(q, i);
    var l := ListFor(q.flows[i]);
    assert ListOk(q, l);
    forall k | 0 <= k < LISTS ensures ListOk(r, k) {
      assert ListOk(q, k);
    }
  }

  /** Changing parts of a flow other than its list membership does not touch the lists. */
  lemma EditOk(q: Sched, i: nat, f: Flow)
    requires Shaped(q) && ListsOk(q) && i < MAX_FLOWS && f.onList == q.flows[i].onList
    ensures var r := q.(flows := q.flows[i := f]); Shaped(r) && ListsOk(r)
  {
    var r := q.(flows := q.flows[i := f]);
    forall k | 0 <= k < LISTS ensures ListOk(r, k) {
      assert ListOk(q, k);
    }
  }

  // ----- sums

  lemma {:induction false} TotalUpdate(flows: seq<Flow>, i: nat, f: Flow)
    requires i < |flows|
    ensures Total(flows[i := f]) == Total(flows) - |flows[i].queue| + |f.queue|
  {
    if i == 0 {
      assert flows[i := f][1..] == flows[1..];
    } else {
      TotalUpdate(flows[1..], i - 1, f);
      assert flows[i := f][1..] == flows[1..][i - 1 := f];
    }
  }

  lemma {:induction false} TotalAtLeast(flows: seq<Flow>, i: nat)
    requires i < |flows|
    ensures |flows[i].queue| <= Total(flows)
  {
    if i > 0 { TotalAtLeast(flows[1..], i - 1); }
  }

  lemma {:induction false} TotalZero(flows: seq<Flow>)
    requires forall i :: 0 <= i < |flows| ==> flows[i].queue == []
    ensures Total(flows) == 0
  {
    if flows != [] { TotalZero(flows[1..]); }
  }

  lemma {:induction false} BytesAppend(s: seq<Entry>, e: Entry)
    ensures Bytes(s + [e]) == Bytes(s) + e.len
  {
    if s == [] {
      assert s + [e] == [e];
    } else {
      BytesAppend(s[1..], e);
      assert (s + [e])[1..] == s[1..] + [e];
    }
  }

  // ----- what each operation of the shaper keeps

  /** The flow after its head entry left: requeued with the rest, or back to zero. */
  function Served(f: Flow): Flow
    requires f.queue != []
  {
    if |f.queue| == 1 then ZERO_FLOW
    else f.(queue := f.queue[1..], pkts := f.pkts - 1, bytes := f.bytes - f.queue[0].len)
  }

  lemma HeadFlow(q: Sched, l: nat)
    requires Inv(q) && GBR <= l < LISTS && q.lists[l] != []
    ensures var i := q.lists[l][0];
      i < MAX_FLOWS && q.flows[i].inUse && q.flows[i].onList == l == ListFor(q.flows[i])
      && q.flows[i].queue != []
  {
    assert ListOk(q, l);
    assert q.lists[l][0] in q.lists[l];
  }

  /** A flow that is refused goes to the tail of its list and nothing else changes. */
  lemma RotateOk(q: Sched, l: nat)
    requires Inv(q) && GBR <= l < LISTS && q.lists[l] != []
    ensures var i := q.lists[l][0];
      && i < MAX_FLOWS
      && Activate(Deactivate(q, i), i) == q.(lists := q.lists[l := q.lists[l][1..] + [i]])
      && Inv(Activate(Deactivate(q, i), i))
  {
    var i := q.lists[l][0];
    HeadFlow(q, l);
    DeactivateOk(q, i);
    var d := Deactivate(q, i);
    ActivateOk(d, i);
    var r := Activate(d, i);
    assert r.flows == q.flows;
    assert r.counts == q.counts;
    assert r.lists == q.lists[l := q.lists[l][1..] + [i]];
  }

  /** Popping an idle flow's head: what becomes of the flow and of the lists. */
  lemma PopOk(d: Sched, i: nat)
    requires Shaped(d) && ListsOk(d) && i < MAX_FLOWS
    requires d.flows[i].onList == NONE && d.flows[i].queue != []
    ensures var f := Served(d.flows[i]); var r := Pop(d, i);
      && ListsOk(r) && r.queued == d.queued - 1 && r.nextExcess == d.nextExcess
      && r.flows == d.flows[i := f.(onList := ListFor(f))]
  {
    var f := d.flows[i];
    var f1 := f.(queue := f.queue[1..], pkts := f.pkts - 1, bytes := f.bytes - f.queue[0].len);
    EditOk(d, i, f1);
    var q1 := d.(flows := d.flows[i := f1], queued := d.queued - 1);
    ListsOnly(d.(flows := d.flows[i := f1]), q1);
    if f1.queue != [] {
      ActivateOk(q1, i);
    } else {
      ReleaseIdleOk(q1, i);
    }
  }

  /** Where a flow ends up when it loses its head: at the tail of its list, or on none. */
  lemma PopLists(q: Sched, l: nat)
    requires Inv(q) && GBR <= l < LISTS && q.lists[l] != []
    ensures var i := q.lists[l][0]; i < MAX_FLOWS && q.flows[i].queue != [] && Deactivate(q, i).flows[i].queue != []
    ensures
      var i, s := q.lists[l][0], q.lists[l];
      Pop(Deactivate(q, i), i).lists == q.lists[l := s[1..] + if |q.flows[i].queue| > 1 then [i] else []]
  {
    hide Bytes, Total, KeysUnique;
    HeadFlow(q, l);
    var i, s := q.lists[l][0], q.lists[l];
    var d := Deactivate(q, i);
    assert Remove(s, i) == s[1..];
    assert d.lists == q.lists[l := s[1..]];
    var f := d.flows[i];
    var f1 := f.(queue := f.queue[1..], pkts := f.pkts - 1, bytes := f.bytes - f.queue[0].len);
    if f1.queue != [] {
      assert ListFor(f1) == l;
      assert Pop(d, i).lists == d.lists[l := d.lists[l] + [i]];
    } else {
      assert s[1..] + [] == s[1..];
    }
  }

  lemma ServedOk(f: Flow)
    requires FlowOk(f) && f.inUse
    ensures FlowOk(Served(f)) && Served(f).onList == ListFor(Served(f))
    ensures Served(f.(onList := NONE)) == Served(f).(onList := NONE)
    ensures |Served(f).queue| == |f.queue| - 1
  {}

  /** Replacing one slot keeps the table right if the new flow is right and its key, when
      in use, is no other slot's. */
  lemma TableUpdate(flows: seq<Flow>, i: nat, f: Flow)
    requires i < |flows| && KeysUnique(flows) && FlowsOk(flows) && FlowOk(f)
    requires f.inUse ==> forall j :: 0 <= j < |flows| && j != i && flows[j].inUse ==> flows[j].key != f.key
    ensures KeysUnique(flows[i := f]) && FlowsOk(flows[i := f])
    ensures Total(flows[i := f]) == Total(flows) - |flows[i].queue| + |f.queue|
  {
    TotalUpdate(flows, i, f);
  }

  /** Serving the first flow of a list takes exactly its head entry away. */
  lemma ServeOk(q: Sched, l: nat)
    requires Inv(q) && GBR <= l < LISTS && q.lists[l] != []
    ensures var i := q.lists[l][0];
      && i < MAX_FLOWS && q.flows[i].queue != [] && Deactivate(q, i).flows[i].queue == q.flows[i].queue
      && var r := Pop(Deactivate(q, i), i);
         && Inv(r) && r.queued == q.queued - 1 && r.nextExcess == q.nextExcess
         && r.flows == q.flows[i := Served(q.flows[i])]
  {
    var i := q.lists[l][0];
    HeadFlow(q, l);
    DeactivateOk(q, i);
    PopOk(Deactivate(q, i), i);
    ServedOk(q.flows[i]);
    TableUpdate(q.flows, i, Served(q.flows[i]));
    var r := Pop(Deactivate(q, i), i);
    assert r.flows == q.flows[i := Served(q.flows[i])];
  }

  /** The list invariant reads only the flows, lists and counts. */
  lemma ListsOnly(q: Sched, r: Sched)
    requires Shaped(q) && ListsOk(q)
    requires r.flows == q.flows && r.lists == q.lists && r.counts == q.counts
    ensures Shaped(r) && ListsOk(r)
  {
    forall k | 0 <= k < LISTS ensures ListOk(r, k) {
      assert ListOk(q, k);
    }
  }

  lemma ReleaseIdleOk(q: Sched, i: nat)
    requires Shaped(q) && ListsOk(q) && i < MAX_FLOWS && q.flows[i].onList == NONE
    ensures Release(q, i) == q.(flows := q.flows[i := ZERO_FLOW]) && ListsOk(Release(q, i))
  {
    EditOk(q, i, ZERO_FLOW);
  }

  /** A new QER policy moves a waiting flow to the list that policy dictates. */
  lemma PolicyLists(q: Sched, i: nat, hasGbr: bool, qerId: nat)
    requires Shaped(q) && ListsOk(q) && i < MAX_FLOWS
    requires q.flows[i].queue != [] && q.flows[i].onList == ListFor(q.flows[i])
    ensures var r := UpdatePolicy(q, i, hasGbr, qerId);
      && ListsOk(r) && r.queued == q.queued && r.nextExcess == q.nextExcess
      && var f := q.flows[i].(hasGbr := hasGbr, qerId := qerId);
         r.flows == q.flows[i := f.(onList := ListFor(f))]
  {
    if q.flows[i].hasGbr != hasGbr || q.flows[i].qerId != qerId {
      DeactivateOk(q, i);
      var d := Deactivate(q, i);
      var g := d.flows[i].(hasGbr := hasGbr, qerId := qerId);
      EditOk(d, i, g);
      ActivateOk(d.(flows := d.flows[i := g]), i);
    }
  }

  lemma PolicyOk(q: Sched, i: nat, hasGbr: bool, qerId: nat)
    requires Inv(q) && i < MAX_FLOWS && q.flows[i].inUse
    ensures var r := UpdatePolicy(q, i, hasGbr, qerId);
      && Inv(r) && r.queued == q.queued && r.nextExcess == q.nextExcess
      && var f := q.flows[i].(hasGbr := hasGbr, qerId := qerId);
         r.flows == q.flows[i := f.(onList := ListFor(f))]
  {
    PolicyLists(q, i, hasGbr, qerId);
    var f := q.flows[i].(hasGbr := hasGbr, qerId := qerId);
    TableUpdate(q.flows, i, f.(onList := ListFor(f)));
  }

  /** A policy says nothing about how much waits. */
  lemma PolicyQueued(q: Sched, i: nat, hasGbr: bool, qerId: nat)
    requires Shaped(q) && i < MAX_FLOWS
    ensures UpdatePolicy(q, i, hasGbr, qerId).queued == q.queued
  {}

  /** Queueing behind waiting packets of the same flow. */
  lemma PushOk(q: Sched, i: nat, e: Entry)
    requires Inv(q) && i < MAX_FLOWS && q.flows[i].inUse
    requires q.flows[i].pkts < MAX_PER_FLOW && q.queued < MAX_PER_UE
    ensures var r := Push(q, i, e);
      && Inv(r) && r.queued == q.queued + 1 && r.nextExcess == q.nextExcess
      && r.flows == q.flows[i := q.flows[i].(queue := q.flows[i].queue + [e], pkts := q.flows[i].pkts + 1,
                                             bytes := q.flows[i].bytes + e.len)]
  {
    var f := q.flows[i];
    var f1 := f.(queue := f.queue + [e], pkts := f.pkts + 1, bytes := f.bytes + e.len);
    EditOk(q, i, f1);
    var r := Push(q, i, e);
    ListsOnly(q.(flows := q.flows[i := f1]), r);
    BytesAppend(f.queue, e);
    TableUpdate(q.flows, i, f1);
  }

  /** The flow a first packet opens. */
  function Opened(key: FlowKey, hasGbr: bool, qerId: nat, e: Entry): Flow {
    var f := Flow(true, key, [e], 1, e.len, hasGbr, qerId, NONE);
    f.(onList := ListFor(f))
  }

  /** How a claimed slot with its first packet enters the lists. */
  lemma OpenLists(q: Sched, i: nat, key: FlowKey, hasGbr: bool, qerId: nat, e: Entry)
    requires Shaped(q) && ListsOk(q) && i < MAX_FLOWS && q.flows[i].onList == NONE
    ensures var r := Push(UpdatePolicy(Claim(q, i, key), i, hasGbr, qerId), i, e);
      && ListsOk(r) && r.queued == q.queued + 1 && r.nextExcess == q.nextExcess
      && r.flows == q.flows[i := Opened(key, hasGbr, qerId, e)]
  {
    var c := Claim(q, i, key);
    var p := UpdatePolicy(c, i, hasGbr, qerId);
    var f1 := p.flows[i].(queue := p.flows[i].queue + [e], pkts := 1, bytes := e.len);
    EditOk(q, i, f1);
    var q1 := p.(flows := p.flows[i := f1], queued := p.queued + 1);
    assert q1.flows == q.flows[i := f1];
    ListsOnly(q.(flows := q.flows[i := f1]), q1);
    ActivateOk(q1, i);
    assert Push(p, i, e) == Activate(q1, i);
    assert [] + [e] == [e];
  }

  /** Queueing the first packet of a new flow in a free slot. */
  lemma OpenOk(q: Sched, i: nat, key: FlowKey, hasGbr: bool, qerId: nat, e: Entry)
    requires Inv(q) && i < MAX_FLOWS && !q.flows[i].inUse && q.queued < MAX_PER_UE
    requires forall j :: 0 <= j < MAX_FLOWS && q.flows[j].inUse ==> q.flows[j].key != key
    ensures var r := Push(UpdatePolicy(Claim(q, i, key), i, hasGbr, qerId), i, e);
      && Inv(r) && r.queued == q.queued + 1 && r.nextExcess == q.nextExcess
      && r.flows == q.flows[i := Opened(key, hasGbr, qerId, e)]
  {
    OpenLists(q, i, key, hasGbr, qerId, e);
    assert Bytes([e]) == e.len;
    TableUpdate(q.flows, i, Opened(key, hasGbr, qerId, e));
  }

  /** Claiming a slot and giving it back, as a drop after the claim does, changes nothing. */
  lemma ReleaseClaimed(q: Sched, i: nat, key: FlowKey, hasGbr: bool, qerId: nat)
    requires Inv(q) && i < MAX_FLOWS && !q.flows[i].inUse
    ensures Release(UpdatePolicy(Claim(q, i, key), i, hasGbr, qerId), i) == q
  {
    var r := Release(UpdatePolicy(Claim(q, i, key), i, hasGbr, qerId), i);
    assert r.flows == q.flows;
  }

  lemma EmptyOk()
    ensures Inv(Empty())
  {
    TotalZero(Empty().flows);
    forall k | 0 <= k < LISTS ensures ListOk(Empty(), k) {}
  }

  // ----- finding flows

  lemma {:induction false} ProbeFrom(start: nat, i: nat, probe: nat)
    requires i < MAX_FLOWS && probe < MAX_FLOWS
    requires (start + probe) % MAX_FLOWS == i
    ensures probe == (i - start) % MAX_FLOWS
  {}

  lemma ProbeHits(start: nat, i: nat)
    requires i < MAX_FLOWS
    ensures (start + (i - start) % MAX_FLOWS) % MAX_FLOWS == i
  {}

  /** The probe covers the whole table: a key is found exactly where it is. */
  lemma {:induction false} LookupFinds(flows: seq<Flow>, key: FlowKey, start: nat, probe: nat, i: nat)
    requires |flows| == MAX_FLOWS && i < MAX_FLOWS && flows[i].inUse && flows[i].key == key
    requires KeysUnique(flows) && probe <= (i - start) % MAX_FLOWS
    ensures Lookup(flows, key, start, probe) == i
    decreases MAX_FLOWS - probe
  {
    var j := (start + probe) % MAX_FLOWS;
    if probe < (i - start) % MAX_FLOWS {
      if j == i { ProbeFrom(start, i, probe); }
      LookupFinds(flows, key, start, probe + 1, i);
    } else {
      ProbeHits(start, i);
    }
  }

  /** Some slot is free exactly when one is found. */
  lemma {:induction false} FreeSlotFinds(flows: seq<Flow>, start: nat, probe: nat, i: nat)
    requires |flows| == MAX_FLOWS && i < MAX_FLOWS && !flows[i].inUse
    requires probe <= (i - start) % MAX_FLOWS
    ensures FreeSlot(flows, start, probe) >= 0
    decreases MAX_FLOWS - probe
  {
    var j := (start + probe) % MAX_FLOWS;
    if probe < (i - start) % MAX_FLOWS {
      if flows[j].inUse { FreeSlotFinds(flows, start, probe + 1, i); }
    } else {
      ProbeHits(start, i);
    }
  }
}
