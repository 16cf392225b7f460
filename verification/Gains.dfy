/** Which events each operation on a UE can add to its history: an arrival only lets packets in
    or through, a drain only lets them out, and only a configuration starts a bucket anew; and at
    most one uncapped refill of a bucket per reading of the clock. */
module Gains {
  import opened Sched
  import opened TokenBucket
  import opened Rates
  import opened History
  import opened Shaper
  import opened Turns

  datatype Cause = Arriving | Draining | Configuring

  function CauseOf(op: Op): Cause { if op.OnPacket? then Arriving else if op.OnDrain? then Draining else Configuring }

  predicate Kind(ev: Event, how: Cause) {
    match how
    case Arriving => ev.Passed? || ev.Queued? || ev.Refused? || ev.Credited?
    case Draining => ev.Sent? || ev.Discarded? || ev.Credited?
    case Configuring => ev.Flushed? || ev.Inited? || ev.Cleared?
  }

  /** Uncapped refills of a bucket. */
  function Refills(tr: seq<Event>, b: BucketId): nat {
    if tr == [] then 0 else Refills(tr[..|tr| - 1], b) + if tr[|tr| - 1] == Credited(b) then 1 else 0
  }

  lemma RefillsAppend(tr: seq<Event>, ev: Event, b: BucketId)
    ensures Refills(tr + [ev], b) == Refills(tr, b) + if ev == Credited(b) then 1 else 0
  {
    assert (tr + [ev])[..|tr|] == tr;
  }

  lemma {:induction false} RefillsConcat(tr: seq<Event>, evs: seq<Event>, b: BucketId)
    ensures Refills(tr + evs, b) == Refills(tr, b) + Refills(evs, b)
    decreases |evs|
  {
    if evs == [] {
      assert tr + evs == tr;
    } else {
      var n := |evs| - 1;
      assert (tr + evs)[..|tr| + n] == tr + evs[..n] && (tr + evs)[|tr| + n] == evs[n];
      RefillsConcat(tr, evs[..n], b);
    }
  }

  ghost predicate Adds(u: Ue, v: Ue, how: Cause) {
    && u.trace <= v.trace && u.ticks <= v.ticks
    && (forall c :: |u.trace| <= c < |v.trace| ==> Kind(v.trace[c], how))
    && (forall b :: Slow(u, v, b))
  }

  /** At most one uncapped refill per reading of the clock. */
  ghost predicate Slow(u: Ue, v: Ue, b: BucketId) { Refills(v.trace, b) <= Refills(u.trace, b) + (v.ticks - u.ticks) }

  lemma AddsTrans(u: Ue, v: Ue, w: Ue, how: Cause)
    requires Adds(u, v, how) && Adds(v, w, how)
    ensures Adds(u, w, how)
  {
    forall c | |u.trace| <= c < |w.trace| ensures Kind(w.trace[c], how) {
      if c < |v.trace| { assert w.trace[c] == v.trace[c]; }
    }
    forall b ensures Slow(u, w, b) { assert Slow(u, v, b) && Slow(v, w, b); }
  }

  lemma AddsNone(u: Ue, v: Ue, how: Cause)
    requires v.trace == u.trace && v.ticks == u.ticks
    ensures Adds(u, v, how)
  {}

  /** One event that is no refill. */
  lemma OneMoreAdds(u: Ue, v: Ue, w: Ue, ev: Event, how: Cause)
    requires Adds(u, v, how) && w.trace == v.trace + [ev] && w.ticks == v.ticks && Kind(ev, how) && !ev.Credited?
    ensures Adds(u, w, how)
  {
    forall b ensures Slow(u, w, b) {
      assert Slow(u, v, b);
      RefillsAppend(v.trace, ev, b);
    }
  }

  lemma CreditOfOnce(v: Bucket, id: BucketId, now: nat, hz: nat, b: BucketId)
    requires hz > 0 && v.last <= now
    ensures
      var evs := CreditOf(v, id, now, hz);
      (forall c :: 0 <= c < |evs| ==> evs[c].Credited?) && Refills(evs, b) <= if id == b then 1 else 0
  {
    hide Credits;
    assert [] + [Credited(id)] == [Credited(id)];
    RefillsAppend([], Credited(id), b);
  }

  lemma CreditsForOnce(tb: UeTb, service: Service, k: int, now: nat, hz: nat, b: BucketId)
    requires hz > 0 && Timely(tb, now) && Usable(tb, service, k)
    ensures
      var evs := CreditsFor(tb, service, k, now, hz);
      (forall c :: 0 <= c < |evs| ==> evs[c].Credited?) && Refills(evs, b) <= 1
  {
    hide CreditOf, Refills;
    match service
    case SessionAmbr => CreditOfOnce(tb.ambrTb, Ambr, now, hz, b);
    case Excess => CreditOfOnce(tb.qers[k].mfbrTb, Mfbr(k), now, hz, b);
    case Guaranteed =>
      CreditOfOnce(tb.qers[k].gfbrTb, Gfbr(k), now, hz, b);
      CreditOfOnce(tb.qers[k].mfbrTb, Mfbr(k), now, hz, b);
      RefillsConcat(CreditOf(tb.qers[k].gfbrTb, Gfbr(k), now, hz), CreditOf(tb.qers[k].mfbrTb, Mfbr(k), now, hz), b);
  }

  lemma CreditsOnce(tb: UeTb, service: Service, qerId: nat, len: nat, now: nat, hz: nat, b: BucketId)
    requires hz > 0 && Timely(tb, now)
    ensures
      var p := Consume(tb, service, qerId, len, now, hz);
      (forall c :: 0 <= c < |p.credits| ==> p.credits[c].Credited?) && Refills(p.credits, b) <= 1
  {
    hide RefillFor, CreditsFor, Charge, Affordable;
    var k := if service == SessionAmbr then -1 else FindQer(tb.qers, qerId, 0);
    if tb.ueIp != 0 && Usable(tb, service, k) { CreditsForOnce(tb, service, k, now, hz, b); }
  }

  /** A consume call reads the clock once. */
  lemma PaymentAdds(env: Env, u: Ue, v: Ue, service: Service, qerId: nat, key: FlowKey, e: Entry, policy: Policy,
                    fast: bool)
    requires Good(env, u) && v.ticks == u.ticks + 1
    requires
      var p := Consume(u.tb, service, qerId, e.len, Now(env, u), env.hz);
      v.trace == u.trace + PaymentEvents(p, key, e, service, policy, fast)
    ensures Adds(u, v, if fast then Arriving else Draining)
  {
    hide Tracked, MeterInv, Inv, Consume;
    var p := Consume(u.tb, service, qerId, e.len, Now(env, u), env.hz);
    CreditsOnce(u.tb, service, qerId, e.len, Now(env, u), env.hz, Ambr);
    forall b ensures Slow(u, v, b) {
      CreditsOnce(u.tb, service, qerId, e.len, Now(env, u), env.hz, b);
      RefillsConcat(u.trace, p.credits, b);
      if p.ok {
        var ev := Departure(key, e, service, p.slot, policy, fast);
        RefillsAppend(u.trace + p.credits, ev, b);
        assert v.trace == u.trace + p.credits + [ev];
      } else {
        assert v.trace == u.trace + p.credits;
      }
    }
  }

  lemma PayNowAdds(env: Env, u: Ue, a: Arrival, service: Service)
    requires Good(env, u)
    ensures Adds(u, PayNow(env, u, a, service).u, Arriving)
  {
    hide Good, Consume, Adds;
    PaymentAdds(env, u, PayNow(env, u, a, service).u, service, a.qerId, a.key, EntryOf(a), AskedBy(a), true);
  }

  lemma FastPathAdds(env: Env, u: Ue, a: Arrival)
    requires Good(env, u) && QueueOf(u.q.flows, a.key) == []
    ensures Adds(u, FastPath(env, u, a).u, Arriving)
  {
    hide Tracked, MeterInv, Inv, PayNow, Adds;
    if !a.hasGbr {
      PayNowAdds(env, u, a, SessionAmbr);
    } else {
      PayNowAdds(env, u, a, Guaranteed);
      PayNowGood(env, u, a, Guaranteed);
      var g := PayNow(env, u, a, Guaranteed).u;
      PayNowAdds(env, g, a, Excess);
      AddsTrans(u, g, PayNow(env, g, a, Excess).u, Arriving);
    }
  }

  lemma FirstAdds(env: Env, u: Ue, a: Arrival, entryFree: bool)
    requires Good(env, u) && QueueOf(u.q.flows, a.key) == []
    ensures Adds(u, First(env, u, a, entryFree).u, Arriving)
  {
    hide Tracked, MeterInv, ListsOk, FlowsOk, FastPath, Adds, UpdatePolicy, Push, Claim, Release, FreeSlot;
    FastPathAdds(env, u, a);
    var p, v := FastPath(env, u, a).u, First(env, u, a, entryFree).u;
    if FastPath(env, u, a).n != 1 {
      OneMoreAdds(u, p, v, if First(env, u, a, entryFree).decision == Drop then Refused(a.key, EntryOf(a))
                           else Queued(a.key, EntryOf(a)), Arriving);
    }
  }

  lemma ArriveAdds(env: Env, u: Ue, a: Arrival, entryFree: bool)
    requires Good(env, u)
    ensures Adds(u, Arrive(env, u, a, entryFree).u, Arriving)
  {
    hide Tracked, MeterInv, ListsOk, FlowsOk, First, UpdatePolicy, Push, Adds;
    var v := Arrive(env, u, a, entryFree);
    AddsNone(u, u, Arriving);
    if EntryOf(a).len == 0 || !Admissible(u.tb, a.hasGbr, a.qerId, EntryOf(a).len) {
      OneMoreAdds(u, u, v.u, Refused(a.key, EntryOf(a)), Arriving);
    } else if Lookup(u.q.flows, a.key, env.home(a.key), 0) < 0 {
      NoFlow(u.q.flows, a.key, env.home(a.key));
      FirstAdds(env, u, a, entryFree);
    } else {
      OneMoreAdds(u, u, v.u, if v.decision == Drop then Refused(a.key, EntryOf(a)) else Queued(a.key, EntryOf(a)),
                  Arriving);
    }
  }

  lemma TryAdds(env: Env, u: Ue, l: nat, service: Service, alternate: Service)
    requires Good(env, u) && GBR <= l < LISTS && u.q.lists[l] != []
    ensures Adds(u, Try(env, u, l, service, alternate).u, Draining)
  {
    hide Tracked, MeterInv, Consume, Fits, ListsOk, FlowsOk, Adds, Pop, Activate, Deactivate;
    HeadFlow(u.q, l);
    var f, v := u.q.flows[u.q.lists[l][0]], Try(env, u, l, service, alternate).u;
    AddsNone(u, u, Draining);
    if !Fits(u.tb, service, f.qerId, f.queue[0].len) {
      if Fits(u.tb, alternate, f.qerId, f.queue[0].len) {
        AddsNone(u, v, Draining);
      } else {
        OneMoreAdds(u, u, v, Discarded(f.key, f.queue[0]), Draining);
      }
    } else {
      PaymentAdds(env, u, v, service, f.qerId, f.key, f.queue[0], PolicyOf(f), false);
    }
  }

  lemma {:induction false} ActsAdd(env: Env, u: Ue, acts: seq<Act>, v: Ue)
    requires Good(env, u) && Acts(env, u, acts, v)
    ensures Adds(u, v, Draining)
    decreases |acts|
  {
    hide Good, Try, Adds;
    if acts == [] {
      AddsNone(u, v, Draining);
    } else {
      var a := acts[0];
      var w := Perform(env, u, a);
      if a.TurnOf? { TryAdds(env, u, a.l, a.service, a.alternate); } else { AddsNone(u, w, Draining); }
      ActsAdd(env, w, acts[1..], v);
      AddsTrans(u, w, v, Draining);
    }
  }

  lemma {:induction false} NoRefills(evs: seq<Event>, b: BucketId)
    requires forall c :: 0 <= c < |evs| ==> !evs[c].Credited?
    ensures Refills(evs, b) == 0
    decreases |evs|
  {
    if evs != [] { NoRefills(evs[..|evs| - 1], b); }
  }

  /** Events of a configuration. */
  lemma ConfigureAdds(u: Ue, v: Ue, evs: seq<Event>)
    requires v.trace == u.trace + evs && u.ticks <= v.ticks && forall c :: 0 <= c < |evs| ==> Kind(evs[c], Configuring)
    ensures Adds(u, v, Configuring)
  {
    forall b ensures Slow(u, v, b) {
      NoRefills(evs, b);
      RefillsConcat(u.trace, evs, b);
    }
  }

  lemma DoAdds(env: Env, u: Ue, op: Op)
    requires Good(env, u)
    ensures Adds(u, Do(env, u, op), CauseOf(op))
  {
    hide Good, Arrive, DrainUe, FlushEvents, Adds;
    var v, now := Do(env, u, op), Now(env, u);
    match op
    case OnPacket(a, entryFree) => ArriveAdds(env, u, a, entryFree);
    case OnDrain(budget) =>
      var acts := DrainLoopActs(env, u, budget, 0);
      assert v == DrainLoop(env, u, budget, 0).u by { DrainIsLoop(env, u, budget); }
      ActsAdd(env, u, acts, v);
    case OnRemove =>
      FlushSilent(u.q.flows);
      assert v.trace == u.trace + (FlushEvents(u.q.flows) + [Cleared]);
      ConfigureAdds(u, v, FlushEvents(u.q.flows) + [Cleared]);
    case OnAdd(ueIp, rate, conflict) => ConfigureAdds(u, v, [Cleared, Inited(Ambr, now)]);
    case OnAmbr(rate, conflict) => ConfigureAdds(u, v, RefreshAmbr(u.tb, rate, conflict, now).events);
    case OnQer(id, qfi, gfbr, mfbr) => ConfigureAdds(u, v, RefreshQer(u.tb, id, qfi, gfbr, mfbr, now).events);
  }

  lemma DrainIsLoop(env: Env, u: Ue, budget: nat)
    requires Good(env, u)
    ensures DrainUe(env, u, budget) == DrainLoop(env, u, budget, 0)
  {}

  // ----- what an arrival leaves on record

  /** What is stored about a packet: its buffer, where it goes, its colour, and the length that its
      policy meters, or that of the buffer if the policy gives none. */
  predicate Carries(e: Entry, a: Arrival) {
    && e.id == a.id && e.destination == a.destination && e.color == a.color
    && (a.qosLen > 0 ==> e.len == a.qosLen) && (a.qosLen == 0 ==> e.len == a.bufLen)
  }

  /** After refills, the last event of the history says what was decided about the packet. */
  ghost predicate Records(u: Ue, v: Ue, a: Arrival, d: Decision) {
    && u.trace < v.trace
    && (forall c :: |u.trace| <= c < |v.trace| - 1 ==> v.trace[c].Credited?)
    && var ev := v.trace[|v.trace| - 1];
       match d
       case Pass => ev.Passed? && ev.key == a.key && Carries(ev.e, a) && ev.policy == Policy(a.hasGbr, a.qerId)
       case Enqueue => ev.Queued? && ev.key == a.key && Carries(ev.e, a)
       case Drop => ev.Refused? && ev.key == a.key && Carries(ev.e, a)
  }

  lemma PayNowRecords(env: Env, u: Ue, a: Arrival, service: Service)
    requires Good(env, u)
    ensures
      var r := PayNow(env, u, a, service);
      if r.n == 1 then Records(u, r.u, a, Pass) else OnlyRefills(u, r.u)
  {
    hide Tracked, MeterInv, Inv, Consume;
    CreditsOnce(u.tb, service, a.qerId, EntryOf(a).len, Now(env, u), env.hz, Ambr);
  }

  ghost predicate OnlyRefills(u: Ue, v: Ue) {
    u.trace <= v.trace && forall c :: |u.trace| <= c < |v.trace| ==> v.trace[c].Credited?
  }

  lemma RecordsAfter(u: Ue, v: Ue, w: Ue, a: Arrival, d: Decision)
    requires OnlyRefills(u, v) && Records(v, w, a, d)
    ensures Records(u, w, a, d)
  {
    forall c | |u.trace| <= c < |w.trace| - 1 ensures w.trace[c].Credited? {
      if c < |v.trace| { assert w.trace[c] == v.trace[c]; }
    }
  }

  lemma FastPathRecords(env: Env, u: Ue, a: Arrival)
    requires Good(env, u) && QueueOf(u.q.flows, a.key) == []
    ensures
      var r := FastPath(env, u, a);
      if r.n == 1 then Records(u, r.u, a, Pass) else OnlyRefills(u, r.u)
  {
    hide Tracked, MeterInv, Inv, PayNow, Records;
    if !a.hasGbr {
      PayNowRecords(env, u, a, SessionAmbr);
    } else {
      PayNowRecords(env, u, a, Guaranteed);
      PayNowGood(env, u, a, Guaranteed);
      var g := PayNow(env, u, a, Guaranteed);
      if g.n != 1 {
        PayNowRecords(env, g.u, a, Excess);
        var x := PayNow(env, g.u, a, Excess);
        if x.n == 1 {
          RecordsAfter(u, g.u, x.u, a, Pass);
        } else {
          forall c | |u.trace| <= c < |x.u.trace| ensures x.u.trace[c].Credited? {
            if c < |g.u.trace| { assert x.u.trace[c] == g.u.trace[c]; }
          }
        }
      }
    }
  }

  lemma FirstRecords(env: Env, u: Ue, a: Arrival, entryFree: bool)
    requires Good(env, u) && QueueOf(u.q.flows, a.key) == []
    ensures var r := First(env, u, a, entryFree); Records(u, r.u, a, r.decision)
  {
    hide Tracked, MeterInv, ListsOk, FlowsOk, FastPath, UpdatePolicy, Push, Claim, Release, FreeSlot;
    FastPathRecords(env, u, a);
  }

  /** Every arriving packet leaves exactly one record, under its key and with what the source
      stores about it, and the record says what was decided. */
  lemma ArriveRecords(env: Env, u: Ue, a: Arrival, entryFree: bool)
    requires Good(env, u)
    ensures var r := Arrive(env, u, a, entryFree); Records(u, r.u, a, r.decision)
  {
    hide Tracked, MeterInv, ListsOk, FlowsOk, First, UpdatePolicy, Push;
    if Lookup(u.q.flows, a.key, env.home(a.key), 0) < 0 {
      NoFlow(u.q.flows, a.key, env.home(a.key));
      FirstRecords(env, u, a, entryFree);
    }
  }
}
