/** Whose packets wait in a UE slot, and how many pool entries they hold: every flow carries
    the slot's own address, and each queued packet holds one entry until it is sent,
    discarded or flushed. */
module Ownership {
  import opened Sched
  import opened TokenBucket
  import opened Rates
  import opened History
  import opened Shaper
  import opened Turns

  /** Entries an event takes out of the pool. */
  function EntriesOf(ev: Event): int {
    if ev.Queued? then 1 else if Releases(ev) then -1 else 0
  }

  /** Entries still out after a trace. */
  function Held(tr: seq<Event>): int {
    if tr == [] then 0 else Held(tr[..|tr| - 1]) + EntriesOf(tr[|tr| - 1])
  }

  lemma HeldAppend(tr: seq<Event>, ev: Event)
    ensures Held(tr + [ev]) == Held(tr) + EntriesOf(ev)
  {
    assert (tr + [ev])[..|tr|] == tr;
  }

  lemma {:induction false} HeldConcat(a: seq<Event>, b: seq<Event>)
    ensures Held(a + b) == Held(a) + Held(b)
    decreases |b|
  {
    if b == [] {
      assert a + b == a;
    } else {
      var n := |b| - 1;
      HeldConcat(a, b[..n]);
      assert a + b == (a + b[..n]) + [b[n]];
      HeldAppend(a + b[..n], b[n]);
    }
  }

  lemma {:induction false} HeldNone(evs: seq<Event>)
    requires forall c :: 0 <= c < |evs| ==> AboutTokens(evs[c])
    ensures Held(evs) == 0
    decreases |evs|
  {
    if evs != [] { HeldNone(evs[..|evs| - 1]); }
  }

  ghost predicate OwnFlows(flows: seq<Flow>, ueIp: nat) {
    forall j :: 0 <= j < |flows| && flows[j].inUse ==> flows[j].key.ueIp == ueIp && ueIp != 0
  }

  /** The event is about a packet of this UE, or about no packet. */
  predicate OwnEvent(ev: Event, ueIp: nat) { AboutTokens(ev) || (ev.key.ueIp == ueIp && ueIp != 0) }

  ghost predicate OwnEvents(tr: seq<Event>, ueIp: nat) {
    forall i :: 0 <= i < |tr| ==> OwnEvent(tr[i], ueIp)
  }

  lemma OwnConcat(a: seq<Event>, b: seq<Event>, ueIp: nat)
    requires OwnEvents(a, ueIp) && OwnEvents(b, ueIp)
    ensures OwnEvents(a + b, ueIp)
  {}

  lemma TokensOwn(evs: seq<Event>, ueIp: nat)
    requires forall c :: 0 <= c < |evs| ==> AboutTokens(evs[c])
    ensures OwnEvents(evs, ueIp)
  {}

  /** Only the slot's own UE has packets waiting and a history, and each waiting packet holds
      one entry. */
  ghost predicate Owns(u: Ue) {
    OwnFlows(u.q.flows, u.tb.ueIp) && OwnEvents(u.trace, u.tb.ueIp) && Held(u.trace) == u.q.queued
  }

  lemma PaymentHeld(env: Env, u: Ue, service: Service, qerId: nat, key: FlowKey, e: Entry, policy: Policy, fast: bool)
    requires Good(env, u)
    ensures var p := Consume(u.tb, service, qerId, e.len, Now(env, u), env.hz);
      && Held(u.trace + PaymentEvents(p, key, e, service, policy, fast))
         == Held(u.trace) - (if p.ok && !fast then 1 else 0)
      && p.tb.ueIp == u.tb.ueIp
      && (key.ueIp == u.tb.ueIp && OwnEvents(u.trace, u.tb.ueIp) && u.tb.ueIp != 0 ==>
            OwnEvents(u.trace + PaymentEvents(p, key, e, service, policy, fast), u.tb.ueIp))
  {
    PayGood(env, u, service, qerId, key, e, policy, fast);
    var p := Consume(u.tb, service, qerId, e.len, Now(env, u), env.hz);
    var evs := PaymentEvents(p, key, e, service, policy, fast);
    HeldNone(p.credits);
    TokensOwn(p.credits, u.tb.ueIp);
    HeldConcat(u.trace, evs);
    if p.ok {
      assert evs == p.credits + [evs[|evs| - 1]];
      HeldAppend(p.credits, evs[|evs| - 1]);
    } else {
      assert evs == p.credits;
    }
  }

  /** A turn of the drain returns an entry exactly when a packet leaves the queue. */
  lemma TryOwns(env: Env, u: Ue, l: nat, service: Service, alternate: Service)
    requires Good(env, u) && Owns(u) && GBR <= l < LISTS && u.q.lists[l] != []
    ensures var v := Try(env, u, l, service, alternate).u; Owns(v) && v.tb.ueIp == u.tb.ueIp
  {
    hide Tracked, MeterInv, ListsOk, FlowsOk, Held;
    HeadFlow(u.q, l);
    ServeOk(u.q, l);
    RotateOk(u.q, l);
    var f := u.q.flows[u.q.lists[l][0]];
    var e := f.queue[0];
    HeldAppend(u.trace, Discarded(f.key, e));
    PaymentHeld(env, u, service, f.qerId, f.key, e, PolicyOf(f), false);
  }

  lemma {:induction false} ActsOwn(env: Env, u: Ue, acts: seq<Act>, v: Ue)
    requires Good(env, u) && Owns(u) && Acts(env, u, acts, v)
    ensures Owns(v) && v.tb.ueIp == u.tb.ueIp
    decreases |acts|
  {
    hide Good, Try, Held;
    if acts != [] {
      var a := acts[0];
      if a.TurnOf? { TryOwns(env, u, a.l, a.service, a.alternate); }
      ActsOwn(env, Perform(env, u, a), acts[1..], v);
    }
  }

  lemma DrainOwns(env: Env, u: Ue, budget: nat)
    requires Good(env, u) && Owns(u)
    ensures var v := DrainUe(env, u, budget).u; Owns(v) && v.tb.ueIp == u.tb.ueIp
  {
    var acts := DrainLoopActs(env, u, budget, 0);
    ActsOwn(env, u, acts, DrainUe(env, u, budget).u);
  }

  // ----- arrivals

  lemma FastPathOwns(env: Env, u: Ue, a: Arrival)
    requires Good(env, u) && Owns(u) && QueueOf(u.q.flows, a.key) == [] && a.key.ueIp == u.tb.ueIp != 0
    ensures var v := FastPath(env, u, a).u; Owns(v) && v.tb.ueIp == u.tb.ueIp && v.q == u.q
  {
    hide Tracked, MeterInv, Inv, Held;
    var e := EntryOf(a);
    if !a.hasGbr {
      PaymentHeld(env, u, SessionAmbr, a.qerId, a.key, e, AskedBy(a), true);
    } else {
      PaymentHeld(env, u, Guaranteed, a.qerId, a.key, e, AskedBy(a), true);
      PayNowGood(env, u, a, Guaranteed);
      PaymentHeld(env, PayNow(env, u, a, Guaranteed).u, Excess, a.qerId, a.key, e, AskedBy(a), true);
    }
  }

  /** What an arrival does to the count of waiting packets. */
  predicate Counted(u: Ue, r: Verdict) {
    r.u.q.queued == u.q.queued + (if r.decision == Enqueue then 1 else 0)
  }

  lemma BehindOwns(env: Env, u: Ue, a: Arrival, i: nat, entryFree: bool)
    requires Good(env, u) && Owns(u) && i < MAX_FLOWS && u.q.flows[i].inUse && u.q.flows[i].key == a.key
    ensures var r := Behind(u, a, i, entryFree); Owns(r.u) && r.u.tb == u.tb && Counted(u, r)
  {
    hide Tracked, MeterInv, ListsOk, Held;
    PolicyOk(u.q, i, a.hasGbr, a.qerId);
    var q := UpdatePolicy(u.q, i, a.hasGbr, a.qerId);
    HeldAppend(u.trace, Refused(a.key, EntryOf(a)));
    HeldAppend(u.trace, Queued(a.key, EntryOf(a)));
    if q.flows[i].pkts < MAX_PER_FLOW && q.queued < MAX_PER_UE { PushOk(q, i, EntryOf(a)); }
  }

  lemma OpenOwns(env: Env, u: Ue, a: Arrival, i: nat, entryFree: bool)
    requires Good(env, u) && Owns(u) && i < MAX_FLOWS && !u.q.flows[i].inUse
    requires forall j :: 0 <= j < MAX_FLOWS && u.q.flows[j].inUse ==> u.q.flows[j].key != a.key
    requires a.key.ueIp == u.tb.ueIp != 0
    ensures var r := Open(u, a, i, entryFree); Owns(r.u) && r.u.tb == u.tb && Counted(u, r)
  {
    hide Tracked, MeterInv, ListsOk, Held;
    var e := EntryOf(a);
    HeldAppend(u.trace, Refused(a.key, e));
    HeldAppend(u.trace, Queued(a.key, e));
    ReleaseClaimed(u.q, i, a.key, a.hasGbr, a.qerId);
    if Open(u, a, i, entryFree).decision == Enqueue { OpenOk(u.q, i, a.key, a.hasGbr, a.qerId, e); }
  }

  lemma RefusedOwns(u: Ue, a: Arrival)
    requires Owns(u) && a.key.ueIp == u.tb.ueIp != 0
    ensures Owns(Refuse(u, a).u)
  {
    HeldAppend(u.trace, Refused(a.key, EntryOf(a)));
  }

  lemma FirstOwns(env: Env, u: Ue, a: Arrival, entryFree: bool)
    requires Good(env, u) && Owns(u) && QueueOf(u.q.flows, a.key) == [] && a.key.ueIp == u.tb.ueIp != 0
    requires forall j :: 0 <= j < MAX_FLOWS && u.q.flows[j].inUse ==> u.q.flows[j].key != a.key
    ensures var r := First(env, u, a, entryFree); Owns(r.u) && r.u.tb.ueIp == u.tb.ueIp && Counted(u, r)
  {
    hide Tracked, MeterInv, ListsOk, FlowsOk, Held, FastPath, Open, OwnFlows, OwnEvents;
    FastPathOwns(env, u, a);
    var p := FastPath(env, u, a);
    RefusedOwns(p.u, a);
    var free := FreeSlot(p.u.q.flows, env.home(a.key), 0);
    if p.n != 1 && free >= 0 { OpenOwns(env, p.u, a, free, entryFree); }
  }

  /** Admitting a packet of the slot's own UE. */
  lemma ArriveOwns(env: Env, u: Ue, a: Arrival, entryFree: bool)
    requires Good(env, u) && Owns(u) && a.key.ueIp == u.tb.ueIp != 0
    ensures var r := Arrive(env, u, a, entryFree); Owns(r.u) && r.u.tb.ueIp == u.tb.ueIp && Counted(u, r)
  {
    hide Tracked, MeterInv, ListsOk, Held, First, Behind;
    HeldAppend(u.trace, Refused(a.key, EntryOf(a)));
    if EntryOf(a).len != 0 && Admissible(u.tb, a.hasGbr, a.qerId, EntryOf(a).len) {
      AdmissibleInUse(u.tb, a.hasGbr, a.qerId, EntryOf(a).len);
      var i := Lookup(u.q.flows, a.key, env.home(a.key), 0);
      if i >= 0 {
        BehindOwns(env, u, a, i, entryFree);
      } else {
        NoFlow(u.q.flows, a.key, env.home(a.key));
        FirstOwns(env, u, a, entryFree);
      }
    }
  }

  lemma AdmissibleInUse(tb: UeTb, hasGbr: bool, qerId: nat, len: nat)
    requires Admissible(tb, hasGbr, qerId, len)
    ensures tb.ueIp != 0
  {}

  // ----- the other operations

  lemma {:induction false} FlushQueueOwn(key: FlowKey, s: seq<Entry>)
    requires key.ueIp != 0
    ensures OwnEvents(FlushQueue(key, s), key.ueIp)
  {
    if s != [] {
      FlushQueueOwn(key, s[1..]);
      OwnConcat([Flushed(key, s[0])], FlushQueue(key, s[1..]), key.ueIp);
    }
  }

  lemma {:induction false} FlushOwn(flows: seq<Flow>, ueIp: nat)
    requires OwnFlows(flows, ueIp) && forall j :: 0 <= j < |flows| && !flows[j].inUse ==> flows[j].queue == []
    ensures OwnEvents(FlushEvents(flows), ueIp)
  {
    if flows != [] {
      if flows[0].inUse { FlushQueueOwn(flows[0].key, flows[0].queue); }
      FlushOwn(flows[1..], ueIp);
      OwnConcat(FlushQueue(flows[0].key, flows[0].queue), FlushEvents(flows[1..]), ueIp);
    }
  }

  lemma {:induction false} FlushQueueHeld(key: FlowKey, s: seq<Entry>)
    ensures Held(FlushQueue(key, s)) == -|s|
  {
    if s != [] {
      FlushQueueHeld(key, s[1..]);
      HeldConcat([Flushed(key, s[0])], FlushQueue(key, s[1..]));
      HeldAppend([], Flushed(key, s[0]));
      assert [] + [Flushed(key, s[0])] == [Flushed(key, s[0])];
    }
  }

  /** A flush returns one entry per waiting packet. */
  lemma {:induction false} FlushHeld(flows: seq<Flow>)
    ensures Held(FlushEvents(flows)) == 0 - Total(flows)
  {
    if flows != [] {
      FlushQueueHeld(flows[0].key, flows[0].queue);
      FlushHeld(flows[1..]);
      HeldConcat(FlushQueue(flows[0].key, flows[0].queue), FlushEvents(flows[1..]));
    }
  }

  /** Removal flushes, clears the row, and closes the history of the UE in this slot: what it
      adds is about this UE, and no entry is held any more. */
  lemma RemoveOwns(env: Env, u: Ue)
    requires Good(env, u) && Owns(u)
    ensures
      var v := Do(env, u, OnRemove);
      && v.tb == ZeroUe() && v.q == Empty() && Held(v.trace) == 0
      && u.trace <= v.trace && OwnEvents(v.trace, u.tb.ueIp)
  {
    hide Tracked, MeterInv, ListsOk, Held;
    FlushHeld(u.q.flows);
    forall j | 0 <= j < |u.q.flows| && !u.q.flows[j].inUse ensures u.q.flows[j].queue == [] {
      assert FlowOk(u.q.flows[j]);
    }
    FlushOwn(u.q.flows, u.tb.ueIp);
    HeldConcat(u.trace, FlushEvents(u.q.flows));
    HeldAppend(Flush(u).trace, Cleared);
  }

  /** A slot without a UE, its history put away. */
  function Vacated(ticks: nat): Ue { Ue(Empty(), ZeroUe(), ticks, []) }

  lemma VacatedGood(env: Env, ticks: nat)
    requires Steady(env)
    ensures Good(env, Vacated(ticks)) && Owns(Vacated(ticks))
  {
    hide Tracked, MeterInv, Inv;
    FreshGood(env);
  }

  /** A row that no UE uses has nothing waiting, so it can be given to another UE. */
  lemma FreeRowEmpty(env: Env, u: Ue)
    requires Good(env, u) && Owns(u) && u.tb.ueIp == 0
    ensures u.q.queued == 0 && forall j :: 0 <= j < |u.q.flows| ==> !u.q.flows[j].inUse
  {
    forall j | 0 <= j < |u.q.flows| ensures u.q.flows[j].queue == [] {
      assert FlowOk(u.q.flows[j]);
    }
    TotalZero(u.q.flows);
  }

  lemma ConfigureOwns(env: Env, u: Ue, op: Op)
    requires Good(env, u) && Owns(u)
    requires (op.OnAdd? && u.tb.ueIp == 0 && u.trace == []) || op.OnAmbr? || op.OnQer?
    ensures
      var v := Do(env, u, op);
      && Owns(v) && v.q == u.q && v.tb.ueIp == (if op.OnAdd? then op.ueIp else u.tb.ueIp)
      && u.trace <= v.trace && (forall c :: |u.trace| <= c < |v.trace| ==> AboutTokens(v.trace[c]))
  {
    hide Tracked, MeterInv, ListsOk, Held;
    var now := Now(env, u);
    match op
    case OnAdd(ueIp, rate, conflict) =>
      FreeRowEmpty(env, u);
      TokensAppended(u, [Cleared, Inited(Ambr, now)]);
    case OnAmbr(rate, conflict) => TokensAppended(u, RefreshAmbr(u.tb, rate, conflict, now).events);
    case OnQer(id, qfi, gfbr, mfbr) => TokensAppended(u, RefreshQer(u.tb, id, qfi, gfbr, mfbr, now).events);
  }

  lemma TokensAppended(u: Ue, evs: seq<Event>)
    requires forall c :: 0 <= c < |evs| ==> AboutTokens(evs[c])
    ensures Held(u.trace + evs) == Held(u.trace)
  {
    HeldNone(evs);
    HeldConcat(u.trace, evs);
  }

  // ----- histories only grow

  lemma PayNowExtends(env: Env, u: Ue, a: Arrival, service: Service)
    requires Good(env, u)
    ensures u.trace <= PayNow(env, u, a, service).u.trace
  {}

  lemma FastPathExtends(env: Env, u: Ue, a: Arrival)
    requires Good(env, u) && QueueOf(u.q.flows, a.key) == []
    ensures u.trace <= FastPath(env, u, a).u.trace
  {
    hide Tracked, MeterInv, Inv, PayNow;
    if !a.hasGbr {
      PayNowExtends(env, u, a, SessionAmbr);
    } else {
      PayNowExtends(env, u, a, Guaranteed);
      PayNowGood(env, u, a, Guaranteed);
      PayNowExtends(env, PayNow(env, u, a, Guaranteed).u, a, Excess);
    }
  }

  lemma ArriveExtends(env: Env, u: Ue, a: Arrival, entryFree: bool)
    requires Good(env, u)
    ensures u.trace <= Arrive(env, u, a, entryFree).u.trace
  {
    hide Tracked, MeterInv, ListsOk, FlowsOk, FastPath;
    var i := Lookup(u.q.flows, a.key, env.home(a.key), 0);
    if i < 0 {
      NoFlow(u.q.flows, a.key, env.home(a.key));
      FastPathExtends(env, u, a);
    }
  }

  lemma DrainExtends(env: Env, u: Ue, budget: nat)
    requires Good(env, u)
    ensures u.trace <= DrainUe(env, u, budget).u.trace
  {}
}
