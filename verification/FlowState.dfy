/** The flows of one UE as struct ue_shaper keeps them: slots with pointers to the first and the
    last entry, entries linked one to the next, flows linked into lists, and counters beside
    them (5gc/upf_u/upf_u.c:125-157, 430-518, 613-761, 968-1001). Each method follows and
    updates the pointers, and is proved to do what the function of `Sched` does to sequences. */
module FlowState {
  import opened Sched
  import Spec = Sched
  import opened Links

  datatype Slot = Slot(inUse: bool, key: FlowKey, head: int, tail: int, pkts: int, bytes: int,
                       hasGbr: bool, qerId: nat, onList: nat)

  /** What identifies a flow, and what its PDR says about it. */
  datatype Header = Header(key: FlowKey, policy: Policy)

  const ZERO_SLOT := Slot(false, ZERO_KEY, NIL, NIL, 0, 0, false, 0, NONE)

  /** The slot of flow f, whose entries are linked through `chain`. */
  ghost predicate SlotOk(r: Slot, mem: Memory, chain: seq<nat>, f: Flow) {
    && r == Slot(f.inUse, f.key, r.head, r.tail, f.pkts, f.bytes, f.hasGbr, f.qerId, f.onList)
    && Chain(mem, r.head, r.tail, chain, f.queue)
  }

  /** Every flow has its slot and its chain, no entry is in two chains, and every entry that was
      taken from the pool is in one: none is lost. */
  ghost predicate Stored(slots: seq<Slot>, mem: Memory, chains: seq<seq<nat>>, home: map<nat, nat>, flows: seq<Flow>) {
    && |slots| == MAX_FLOWS == |chains| && |flows| == MAX_FLOWS
    && (forall i :: 0 <= i < MAX_FLOWS ==> SlotOk(slots[i], mem, chains[i], flows[i]))
    && (forall i :: 0 <= i < MAX_FLOWS ==> Homely(chains[i], home, i))
    && (forall a :: a in mem ==> a in home && home[a] < MAX_FLOWS && a in chains[home[a]])
  }

  ghost predicate Homely(chain: seq<nat>, home: map<nat, nat>, i: nat) {
    Distinct(chain) && forall a :: a in chain ==> a in home && home[a] == i
  }

  /** shaper_active_list_for_head, on the pointers. */
  function ListForHead(r: Slot): (l: nat)
    ensures l < LISTS
  {
    if r.head == NIL then NONE else if r.hasGbr then GBR else if !r.key.isQos then DEFAULT else NON_GBR
  }

  lemma SameList(r: Slot, mem: Memory, chain: seq<nat>, f: Flow)
    requires SlotOk(r, mem, chain, f)
    ensures ListForHead(r) == ListFor(f) && (r.head == NIL <==> f.queue == [])
  {}

  /** Changing a slot but not its chain. */
  lemma EditStored(slots: seq<Slot>, mem: Memory, chains: seq<seq<nat>>, home: map<nat, nat>, flows: seq<Flow>,
                   i: nat, r: Slot, f: Flow)
    requires Stored(slots, mem, chains, home, flows) && i < MAX_FLOWS
    requires SlotOk(r, mem, chains[i], f)
    ensures Stored(slots[i := r], mem, chains, home, flows[i := f])
  {
    hide SlotOk, Homely;
  }

  /** A new entry at the end of chain i. */
  lemma AppendStored(slots: seq<Slot>, mem: Memory, chains: seq<seq<nat>>, home: map<nat, nat>, flows: seq<Flow>,
                     i: nat, a: nat, e: Entry, r: Slot, f: Flow)
    requires Stored(slots, mem, chains, home, flows) && i < MAX_FLOWS && a !in mem
    requires slots[i].tail >= 0 ==> slots[i].tail in mem
    requires f.queue == flows[i].queue + [e]
    requires r == Slot(f.inUse, f.key, if slots[i].head == NIL then a else slots[i].head, a, f.pkts, f.bytes,
                       f.hasGbr, f.qerId, f.onList)
    ensures Stored(slots[i := r], Appended(mem, slots[i].tail, a, e), chains[i := chains[i] + [a]], home[a := i],
                   flows[i := f])
  {
    var m, home' := Appended(mem, slots[i].tail, a, e), home[a := i];
    assert SlotOk(slots[i], mem, chains[i], flows[i]) && Homely(chains[i], home, i);
    ChainInMemory(mem, slots[i].head, slots[i].tail, chains[i], flows[i].queue);
    AppendChain(mem, slots[i].head, slots[i].tail, chains[i], flows[i].queue, a, e);
    forall j | 0 <= j < MAX_FLOWS && j != i
      ensures SlotOk(slots[j], m, chains[j], flows[j]) && Homely(chains[j], home', j)
    {
      assert SlotOk(slots[j], mem, chains[j], flows[j]) && Homely(chains[j], home, j);
      ChainInMemory(mem, slots[j].head, slots[j].tail, chains[j], flows[j].queue);
      ChainElsewhere(mem, m, slots[j].head, slots[j].tail, chains[j], flows[j].queue);
    }
    assert Homely(chains[i] + [a], home', i);
  }

  lemma ChainInMemory(mem: Memory, head: int, tail: int, chain: seq<nat>, s: seq<Entry>)
    requires Chain(mem, head, tail, chain, s)
    ensures forall a :: a in chain ==> a in mem
  {
    forall a | a in chain ensures a in mem {
      var j :| 0 <= j < |chain| && chain[j] == a;
      assert CellOk(mem, chain, s, j);
    }
  }

  /** The head entry of chain i is freed. */
  lemma PopStored(slots: seq<Slot>, mem: Memory, chains: seq<seq<nat>>, home: map<nat, nat>, flows: seq<Flow>,
                  i: nat, r: Slot, f: Flow)
    requires Stored(slots, mem, chains, home, flows) && i < MAX_FLOWS && flows[i].queue != []
    requires f.queue == flows[i].queue[1..]
    requires slots[i].head in mem ==>
      var next := mem[slots[i].head].next;
      r == Slot(f.inUse, f.key, next, if next == NIL then NIL else slots[i].tail, f.pkts, f.bytes, f.hasGbr, f.qerId,
                f.onList)
    ensures slots[i].head in mem && chains[i] != []
    ensures Stored(slots[i := r], mem - {slots[i].head}, chains[i := chains[i][1..]], home - {slots[i].head},
                   flows[i := f])
  {
    var head := slots[i].head;
    assert SlotOk(slots[i], mem, chains[i], flows[i]) && Homely(chains[i], home, i);
    PopChain(mem, head, slots[i].tail, chains[i], flows[i].queue);
    var m, home', c := mem - {head}, home - {head}, chains[i][1..];
    assert chains[i] == [head] + c;
    forall j | 0 <= j < MAX_FLOWS && j != i
      ensures SlotOk(slots[j], m, chains[j], flows[j]) && Homely(chains[j], home', j)
    {
      assert SlotOk(slots[j], mem, chains[j], flows[j]) && Homely(chains[j], home, j);
      assert head !in chains[j];
      ChainInMemory(mem, slots[j].head, slots[j].tail, chains[j], flows[j].queue);
      ChainElsewhere(mem, m, slots[j].head, slots[j].tail, chains[j], flows[j].queue);
    }
    assert Homely(c, home', i);
  }

  lemma NothingStored()
    ensures Stored(seq(MAX_FLOWS, _ => ZERO_SLOT), map[], seq(MAX_FLOWS, _ => []), map[], Empty().flows)
  {}

  /** What a flow that was just unlinked leaves behind. */
  lemma OnNoList(q: Sched, i: nat)
    requires Shaped(q) && ListsOk(q) && i < MAX_FLOWS && q.flows[i].onList == NONE
    ensures forall m :: 0 <= m < LISTS ==> i !in q.lists[m]
  {
    forall m | 0 <= m < LISTS ensures i !in q.lists[m] { assert ListOk(q, m); }
  }

  lemma OnItsList(q: Sched, i: nat)
    requires Shaped(q) && ListsOk(q) && i < MAX_FLOWS && q.flows[i].onList != NONE
    ensures i in q.lists[q.flows[i].onList]
  {
    assert ListOk(q, q.flows[i].onList);
  }

  class FlowTable {
    var slots: seq<Slot>
    var links: Tailqs
    var mem: Memory
    var unused: nat
    var counts: seq<int>
    var queued: int
    var nextExcess: nat
    ghost var chains: seq<seq<nat>>
    ghost var home: map<nat, nat>
    ghost var q: Sched

    /** The pointers and counters are those of the queues `q`. */
    ghost predicate Valid()
      reads this
    {
      && Shaped(q) && ListsOk(q) && AllThread(links, q.lists) && Stored(slots, mem, chains, home, q.flows)
      && (forall a :: a in mem ==> a < unused)
      && counts == q.counts && queued == q.queued && nextExcess == q.nextExcess
    }

    constructor ()
      ensures Valid() && q == Empty()
    {
      slots, links, mem, unused := seq(MAX_FLOWS, _ => ZERO_SLOT), Unlinked(), map[], 0;
      counts, queued, nextExcess := seq(LISTS, _ => 0), 0, GBR;
      chains, home, q := seq(MAX_FLOWS, _ => []), map[], Empty();
      new;
      hide Stored, AllThread;
      NothingStored();
      NoneThread();
      EmptyOk();
    }

    // ----- TAILQs

    /** TAILQ_INSERT_TAIL. */
    method Insert(l: nat, i: nat)
      requires Sized(links) && l < LISTS && i < MAX_FLOWS && NIL <= links.last[l] < MAX_FLOWS
      modifies this`links
      ensures links == InsertTail(old(links), l, i)
    {
      var z := links.last[l];
      links := links.(succ := links.succ[i := NIL]);
      links := links.(pred := links.pred[i := z]);
      if z == NIL {
        links := links.(first := links.first[l := i]);
      } else {
        links := links.(succ := links.succ[z := i]);
      }
      links := links.(last := links.last[l := i]);
    }

    /** TAILQ_REMOVE. */
    method Take(l: nat, i: nat)
      requires Sized(links) && l < LISTS && i < MAX_FLOWS
      requires NIL <= links.succ[i] < MAX_FLOWS && NIL <= links.pred[i] < MAX_FLOWS
      modifies this`links
      ensures links == RemoveNode(old(links), l, i)
    {
      var n, p := links.succ[i], links.pred[i];
      if n == NIL {
        links := links.(last := links.last[l := p]);
      } else {
        links := links.(pred := links.pred[n := p]);
      }
      if p == NIL {
        links := links.(first := links.first[l := n]);
      } else {
        links := links.(succ := links.succ[p := n]);
      }
    }

    /** TAILQ_FIRST. */
    method First(l: nat) returns (i: int)
      requires Valid() && l < LISTS
      ensures i == At(q.lists[l], 0) && (i == NIL <==> q.lists[l] == []) && i < MAX_FLOWS
    {
      i := links.first[l];
      assert Threads(links, l, q.lists[l]);
      if q.lists[l] != [] { assert NodeOk(links, q.lists[l], 0); }
    }

    // ----- activity

    method Deactivate(i: nat)
      requires Valid() && i < MAX_FLOWS
      modifies this
      ensures Valid() && q == Spec.Deactivate(old(q), i)
    {
      hide AllThread, Stored, ListsOk;
      SlotIs(i);
      var l := slots[i].onList;
      if l == NONE { return; }
      OnItsList(q, i);
      ListsApart(q);
      RemoveAll(links, q.lists, l, i);
      Take(l, i);
      counts := counts[l := counts[l] - 1];
      ghost var f := q.flows[i].(onList := NONE);
      EditStored(slots, mem, chains, home, q.flows, i, slots[i].(onList := NONE), f);
      slots := slots[i := slots[i].(onList := NONE)];
      DeactivateOk(q, i);
      q := Spec.Deactivate(q, i);
    }

    /** What slot i says about its flow. */
    lemma SlotIs(i: nat)
      requires Valid() && i < MAX_FLOWS
      ensures |slots| == MAX_FLOWS == |chains| && SlotOk(slots[i], mem, chains[i], q.flows[i])
      ensures ListForHead(slots[i]) == ListFor(q.flows[i]) && (slots[i].head == NIL <==> q.flows[i].queue == [])
      ensures Sized(links)
    {
      SameList(slots[i], mem, chains[i], q.flows[i]);
    }

    method Activate(i: nat)
      requires Valid() && i < MAX_FLOWS
      modifies this
      ensures Valid() && q == Spec.Activate(old(q), i)
    {
      hide AllThread, Stored, ListsOk;
      SlotIs(i);
      var l := ListForHead(slots[i]);
      if l == NONE { return; }
      ghost var q0 := q;
      if slots[i].onList != NONE {
        DeactivateOk(q, i);
        Deactivate(i);
        ActivateAgain(q0, i);
        SlotIs(i);
      }
      OnNoList(q, i);
      ListsApart(q);
      InsertAll(links, q.lists, l, i);
      Insert(l, i);
      counts := counts[l := counts[l] + 1];
      ghost var f := q.flows[i].(onList := l);
      EditStored(slots, mem, chains, home, q.flows, i, slots[i].(onList := l), f);
      slots := slots[i := slots[i].(onList := l)];
      ActivateOk(q, i);
      q := Spec.Activate(q, i);
    }

    /** Slot i is overwritten, except for its chain and its place on a list. */
    method Edit(i: nat, r: Slot, ghost f: Flow)
      requires Valid() && i < MAX_FLOWS && f.onList == q.flows[i].onList && f.queue == q.flows[i].queue
      requires r == Slot(f.inUse, f.key, slots[i].head, slots[i].tail, f.pkts, f.bytes, f.hasGbr, f.qerId, f.onList)
      modifies this`slots, this`q
      ensures Valid() && q == old(q).(flows := old(q).flows[i := f])
    {
      hide AllThread, Stored, ListsOk;
      SlotIs(i);
      EditStored(slots, mem, chains, home, q.flows, i, r, f);
      EditOk(q, i, f);
      slots := slots[i := r];
      q := q.(flows := q.flows[i := f]);
    }

    method UpdatePolicy(i: nat, hasGbr: bool, qerId: nat)
      requires Valid() && i < MAX_FLOWS
      modifies this
      ensures Valid() && q == Spec.UpdatePolicy(old(q), i, hasGbr, qerId)
    {
      hide AllThread, Stored, ListsOk, Spec.Activate, Spec.Deactivate;
      SlotIs(i);
      if slots[i].hasGbr == hasGbr && slots[i].qerId == qerId { return; }
      var wasActive := slots[i].onList != NONE;
      if wasActive { Deactivate(i); }
      SlotIs(i);
      Edit(i, slots[i].(hasGbr := hasGbr, qerId := qerId), q.flows[i].(hasGbr := hasGbr, qerId := qerId));
      if wasActive { Activate(i); }
    }

    /** shaper_release_empty_flow. */
    method Release(i: nat)
      requires Valid() && i < MAX_FLOWS && q.flows[i].queue == []
      modifies this
      ensures Valid() && q == Spec.Release(old(q), i)
    {
      hide AllThread, Stored, ListsOk;
      DeactivateOk(q, i);
      Deactivate(i);
      SlotIs(i);
      EmptyChain(slots[i], mem, chains[i], q.flows[i]);
      Edit(i, ZERO_SLOT, ZERO_FLOW);
    }

    /** A free slot is claimed for a key. */
    method Claim(i: nat, key: FlowKey)
      requires Valid() && i < MAX_FLOWS && q.flows[i].queue == [] && q.flows[i].onList == NONE
      modifies this`slots, this`q
      ensures Valid() && q == Spec.Claim(old(q), i, key)
    {
      hide AllThread, Stored, ListsOk;
      SlotIs(i);
      EmptyChain(slots[i], mem, chains[i], q.flows[i]);
      Edit(i, ZERO_SLOT.(inUse := true, key := key), ZERO_FLOW.(inUse := true, key := key));
    }

    /** The list that excess service turns to next. */
    method Advance(l: nat)
      requires Valid()
      modifies this`nextExcess, this`q
      ensures Valid() && q == old(q).(nextExcess := l)
    {
      hide AllThread, Stored, ListsOk;
      ListsOnly(q, q.(nextExcess := l));
      nextExcess := l;
      q := q.(nextExcess := l);
    }

    // ----- entries

    /** A new entry is linked behind the tail; the first one makes the flow active. */
    method PushTail(i: nat, e: Entry)
      requires Valid() && i < MAX_FLOWS
      modifies this
      ensures Valid() && q == Push(old(q), i, e)
    {
      hide AllThread, Stored, ListsOk, Spec.Activate;
      Link(i, e);
      SlotIs(i);
      if slots[i].pkts == 1 { Activate(i); }
    }

    method Link(i: nat, e: Entry)
      requires Valid() && i < MAX_FLOWS
      modifies this
      ensures Valid()
      ensures
        var f := old(q).flows[i];
        var f1 := f.(queue := f.queue + [e], pkts := f.pkts + 1, bytes := f.bytes + e.len);
        q == old(q).(flows := old(q).flows[i := f1], queued := old(q).queued + 1)
    {
      hide AllThread, Stored, ListsOk, Appended;
      SlotIs(i);
      var r, a := slots[i], unused;
      ghost var f := q.flows[i].(queue := q.flows[i].queue + [e], pkts := r.pkts + 1, bytes := r.bytes + e.len);
      TailInMemory(r, mem, chains[i], q.flows[i]);
      var r1 := Slot(r.inUse, r.key, if r.head == NIL then a else r.head, a, r.pkts + 1, r.bytes + e.len,
                     r.hasGbr, r.qerId, r.onList);
      AppendStored(slots, mem, chains, home, q.flows, i, a, e, r1, f);
      EditOk(q, i, f);
      ListsOnly(q.(flows := q.flows[i := f]), q.(flows := q.flows[i := f], queued := q.queued + 1));
      AppendedKeys(mem, r.tail, a, e);
      mem := Appended(mem, r.tail, a, e);
      slots := slots[i := r1];
      unused, queued := unused + 1, queued + 1;
      chains, home := chains[i := chains[i] + [a]], home[a := i];
      q := q.(flows := q.flows[i := f], queued := q.queued + 1);
    }

    /** The head entry of a flow that was just deactivated is unlinked and freed; the flow is
        requeued with the rest, or released. */
    method PopHead(i: nat) returns (e: Entry)
      requires Valid() && i < MAX_FLOWS && q.flows[i].queue != []
      modifies this
      ensures Valid() && q == Pop(old(q), i) && e == old(q).flows[i].queue[0]
    {
      hide AllThread, Stored, ListsOk, Spec.Activate, Spec.Release;
      e := Unchain(i);
      SlotIs(i);
      if slots[i].head != NIL { Activate(i); } else { Release(i); }
    }

    method Unchain(i: nat) returns (e: Entry)
      requires Valid() && i < MAX_FLOWS && q.flows[i].queue != []
      modifies this
      ensures Valid() && e == old(q).flows[i].queue[0]
      ensures
        var f := old(q).flows[i];
        var f1 := f.(queue := f.queue[1..], pkts := f.pkts - 1, bytes := f.bytes - f.queue[0].len);
        q == old(q).(flows := old(q).flows[i := f1], queued := old(q).queued - 1)
    {
      hide AllThread, Stored, ListsOk;
      e := HeadEntry(i);
      SlotIs(i);
      var r := slots[i];
      var next := mem[r.head].next;
      var r1 := r.(head := next, tail := if next == NIL then NIL else r.tail, pkts := r.pkts - 1,
                   bytes := r.bytes - e.len);
      ghost var f := q.flows[i].(queue := q.flows[i].queue[1..], pkts := r.pkts - 1, bytes := r.bytes - e.len);
      PopStored(slots, mem, chains, home, q.flows, i, r1, f);
      EditOk(q, i, f);
      ListsOnly(q.(flows := q.flows[i := f]), q.(flows := q.flows[i := f], queued := q.queued - 1));
      slots, mem, queued := slots[i := r1], mem - {r.head}, queued - 1;
      chains, home := chains[i := chains[i][1..]], home - {r.head};
      q := q.(flows := q.flows[i := f], queued := q.queued - 1);
    }

    /** Key and policy of flow i. */
    method Facts(i: nat) returns (f: Header)
      requires Valid() && i < MAX_FLOWS
      ensures f == Header(q.flows[i].key, PolicyOf(q.flows[i]))
    {
      SlotIs(i);
      f := Header(slots[i].key, Policy(slots[i].hasGbr, slots[i].qerId));
    }

    method Packets(i: nat) returns (n: int)
      requires Valid() && i < MAX_FLOWS
      ensures n == q.flows[i].pkts
    {
      SlotIs(i);
      n := slots[i].pkts;
    }

    method Waiting() returns (n: int)
      requires Valid()
      ensures n == q.queued
    {
      n := queued;
    }

    method HeadEntry(i: nat) returns (e: Entry)
      requires Valid() && i < MAX_FLOWS && q.flows[i].queue != []
      ensures i < |slots| && slots[i].head in mem && slots[i].head >= 0 && e == q.flows[i].queue[0]
    {
      SlotIs(i);
      assert CellOk(mem, chains[i], q.flows[i].queue, 0);
      e := mem[slots[i].head].e;
    }

    // ----- lookup

    /** shaper_lookup_flow without creation: the slot in use with this key, or -1. */
    method FindFlow(key: FlowKey, start: nat) returns (r: int)
      requires Valid()
      ensures -1 <= r < MAX_FLOWS && r == Lookup(q.flows, key, start, 0)
      ensures r >= 0 <==> exists i :: 0 <= i < MAX_FLOWS && q.flows[i].inUse && q.flows[i].key == key
    {
      hide AllThread, ListsOk, SlotOk, Homely, Stored, Lookup;
      var from := start % MAX_FLOWS;
      LookupHome(q.flows, key, start, 0);
      LookupIff(q.flows, key, start);
      var probe := 0;
      while probe < MAX_FLOWS
        invariant 0 <= probe <= MAX_FLOWS && Lookup(q.flows, key, from, 0) == Lookup(q.flows, key, from, probe)
      {
        var i := (from + probe) % MAX_FLOWS;
        SlotIs(i);
        SameUse(slots[i], mem, chains[i], q.flows[i]);
        LookupStep(q.flows, key, from, probe);
        if slots[i].inUse && slots[i].key == key { return i; }
        probe := probe + 1;
      }
      LookupEnds(q.flows, key, from);
      r := -1;
    }

    /** The slot to use when no flow has the key. */
    method FindFree(start: nat) returns (r: int)
      requires Valid()
      ensures -1 <= r < MAX_FLOWS && r == FreeSlot(q.flows, start, 0)
    {
      hide AllThread, ListsOk, SlotOk, Homely, Stored;
      var probe := 0;
      while probe < MAX_FLOWS
        invariant 0 <= probe <= MAX_FLOWS && FreeSlot(q.flows, start, 0) == FreeSlot(q.flows, start, probe)
      {
        var i := (start + probe) % MAX_FLOWS;
        SlotIs(i);
        SameUse(slots[i], mem, chains[i], q.flows[i]);
        if !slots[i].inUse { return i; }
        probe := probe + 1;
      }
      r := -1;
    }

    // ----- removal

    /** The slots and chains alone: lists are of no interest while everything is flushed. */
    ghost predicate Kept()
      reads this
    {
      Stored(slots, mem, chains, home, q.flows)
    }

    /** Walks the chain of flow i, frees its entries, and zeroes the slot. */
    method FreeChain(i: nat) returns (n: nat)
      requires Kept() && i < MAX_FLOWS
      modifies this`slots, this`mem, this`chains, this`home, this`q
      ensures Kept() && n == |old(q).flows[i].queue| && q == old(q).(flows := old(q).flows[i := ZERO_FLOW])
    {
      hide Stored;
      n := 0;
      KeptSlot(i);
      ghost var f := q.flows[i];
      while slots[i].head != NIL
        invariant Kept() && |slots| == MAX_FLOWS == |chains| == |q.flows|
        invariant SlotOk(slots[i], mem, chains[i], q.flows[i])
        invariant n + |q.flows[i].queue| == |f.queue| && q == old(q).(flows := old(q).flows[i := q.flows[i]])
        decreases |q.flows[i].queue|
      {
        FreeHead(i);
        n := n + 1;
        KeptSlot(i);
      }
      EmptyChain(slots[i], mem, chains[i], q.flows[i]);
      EditStored(slots, mem, chains, home, q.flows, i, ZERO_SLOT, ZERO_FLOW);
      slots := slots[i := ZERO_SLOT];
      q := q.(flows := q.flows[i := ZERO_FLOW]);
    }

    method FreeHead(i: nat)
      requires Kept() && i < MAX_FLOWS && |q.flows| == MAX_FLOWS && q.flows[i].queue != []
      modifies this`slots, this`mem, this`chains, this`home, this`q
      ensures
        var f := old(q).flows[i];
        Kept() && q == old(q).(flows := old(q).flows[i := f.(queue := f.queue[1..])])
    {
      hide Stored;
      KeptSlot(i);
      assert CellOk(mem, chains[i], q.flows[i].queue, 0);
      var r := slots[i];
      var next := mem[r.head].next;
      var r1 := r.(head := next, tail := if next == NIL then NIL else r.tail);
      ghost var f := q.flows[i].(queue := q.flows[i].queue[1..]);
      PopStored(slots, mem, chains, home, q.flows, i, r1, f);
      slots, mem := slots[i := r1], mem - {r.head};
      chains, home := chains[i := chains[i][1..]], home - {r.head};
      q := q.(flows := q.flows[i := f]);
    }

    lemma KeptSlot(i: nat)
      requires Kept() && i < MAX_FLOWS
      ensures |slots| == MAX_FLOWS == |chains| == |q.flows| && SlotOk(slots[i], mem, chains[i], q.flows[i])
      ensures slots[i].head == NIL <==> q.flows[i].queue == []
    {
      SameList(slots[i], mem, chains[i], q.flows[i]);
    }

    /** shaper_flush_ue: every waiting entry is freed, every slot and every list is reset. */
    method Flush() returns (flushed: nat)
      requires Valid()
      modifies this
      ensures Valid() && q == Empty() && flushed == Total(old(q).flows) && mem == map[]
    {
      hide Stored, AllThread, ListsOk, Total;
      flushed := 0;
      ghost var flows := q.flows;
      ghost var q0 := q;
      for i := 0 to MAX_FLOWS
        invariant Kept() && |q.flows| == MAX_FLOWS && q == q0.(flows := q.flows) && q.flows[i..] == flows[i..]
        invariant forall j :: 0 <= j < i ==> q.flows[j] == ZERO_FLOW
        invariant flushed + Total(q.flows[i..]) == Total(flows)
      {
        TotalFrom(q.flows, i);
        var n := FreeChain(i);
        flushed := flushed + n;
      }
      assert q.flows == Empty().flows;
      assert Total(q.flows[MAX_FLOWS..]) == 0 by { TotalZero(q.flows[MAX_FLOWS..]); }
      AllFreed(slots, mem, chains, home, q.flows);
      queued, nextExcess := 0, GBR;
      links, counts := Unlinked(), seq(LISTS, _ => 0);
      NoneThread();
      EmptyOk();
      q := Empty();
    }
  }

  /** When no flow has entries left, no entry is left in memory. */
  lemma AllFreed(slots: seq<Slot>, mem: Memory, chains: seq<seq<nat>>, home: map<nat, nat>, flows: seq<Flow>)
    requires Stored(slots, mem, chains, home, flows) && flows == Empty().flows
    ensures mem == map[]
  {
    forall i | 0 <= i < MAX_FLOWS ensures chains[i] == [] {
      assert SlotOk(slots[i], mem, chains[i], flows[i]);
    }
    assert forall a :: a !in mem;
  }

  lemma EmptyChain(r: Slot, mem: Memory, chain: seq<nat>, f: Flow)
    requires SlotOk(r, mem, chain, f) && f.queue == []
    ensures r.head == NIL == r.tail && SlotOk(ZERO_SLOT, mem, chain, ZERO_FLOW)
  {}

  lemma TailInMemory(r: Slot, mem: Memory, chain: seq<nat>, f: Flow)
    requires SlotOk(r, mem, chain, f)
    ensures NIL <= r.tail && (r.tail >= 0 ==> r.tail in mem)
  {
    if chain != [] { assert CellOk(mem, chain, f.queue, |chain| - 1); }
  }

  lemma AppendedKeys(mem: Memory, tail: int, a: nat, e: Entry)
    requires tail >= 0 ==> tail in mem
    ensures forall b :: b in Appended(mem, tail, a, e) <==> b in mem || b == a
  {}

  lemma SameUse(r: Slot, mem: Memory, chain: seq<nat>, f: Flow)
    requires SlotOk(r, mem, chain, f)
    ensures r.inUse == f.inUse && r.key == f.key
  {}

  lemma {:induction false} LookupHome(flows: seq<Flow>, key: FlowKey, start: nat, probe: nat)
    requires |flows| == MAX_FLOWS && probe <= MAX_FLOWS
    ensures Lookup(flows, key, start, probe) == Lookup(flows, key, start % MAX_FLOWS, probe)
    decreases MAX_FLOWS - probe
  {
    if probe < MAX_FLOWS {
      ModShift(start, probe);
      LookupHome(flows, key, start, probe + 1);
    }
  }

  lemma LookupStep(flows: seq<Flow>, key: FlowKey, start: nat, probe: nat)
    requires |flows| == MAX_FLOWS && probe < MAX_FLOWS
    ensures
      var i := (start + probe) % MAX_FLOWS;
      Lookup(flows, key, start, probe)
        == if flows[i].inUse && flows[i].key == key then i else Lookup(flows, key, start, probe + 1)
  {}

  /** A key that some slot holds is found, in one of the slots that hold it. */
  lemma {:induction false} LookupReaches(flows: seq<Flow>, key: FlowKey, start: nat, probe: nat, i: nat)
    requires |flows| == MAX_FLOWS && i < MAX_FLOWS && flows[i].inUse && flows[i].key == key
    requires probe <= (i - start) % MAX_FLOWS
    ensures Lookup(flows, key, start, probe) >= 0
    decreases MAX_FLOWS - probe
  {
    if probe < (i - start) % MAX_FLOWS { LookupReaches(flows, key, start, probe + 1, i); } else { ProbeHits(start, i); }
  }

  lemma LookupIff(flows: seq<Flow>, key: FlowKey, start: nat)
    requires |flows| == MAX_FLOWS
    ensures
      Lookup(flows, key, start, 0) >= 0
      <==> exists i :: 0 <= i < MAX_FLOWS && flows[i].inUse && flows[i].key == key
  {
    forall i | 0 <= i < MAX_FLOWS && flows[i].inUse && flows[i].key == key ensures Lookup(flows, key, start, 0) >= 0 {
      LookupReaches(flows, key, start, 0, i);
    }
  }

  lemma LookupEnds(flows: seq<Flow>, key: FlowKey, start: nat)
    requires |flows| == MAX_FLOWS
    ensures Lookup(flows, key, start, MAX_FLOWS) == -1
  {}

  lemma ModShift(a: nat, b: nat)
    ensures (a % MAX_FLOWS + b) % MAX_FLOWS == (a + b) % MAX_FLOWS
  {}

  lemma TotalFrom(flows: seq<Flow>, i: nat)
    requires i < |flows|
    ensures Total(flows[i..]) == |flows[i].queue| + Total(flows[i + 1..])
  {
    assert flows[i..][0] == flows[i] && flows[i..][1..] == flows[i + 1..];
  }

  /** A flow that is on a list is first taken off it. */
  lemma ActivateAgain(q: Sched, i: nat)
    requires Shaped(q) && ListsOk(q) && i < MAX_FLOWS && q.flows[i].onList != NONE && q.flows[i].queue != []
    ensures Spec.Activate(Spec.Deactivate(q, i), i) == Spec.Activate(q, i)
  {
    hide ListsOk;
    var d, l := Spec.Deactivate(q, i), ListFor(q.flows[i]);
    assert d.flows[i := d.flows[i].(onList := l)] == q.flows[i := q.flows[i].(onList := l)];
  }
}
