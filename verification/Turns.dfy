/** A drain of one UE as a sequence of turns, and what one turn does to the queues: the first
    flow of a list is served, loses a packet that can never be sent, or goes to the tail
    (5gc/upf_u/upf_u.c:687-868). */
module Turns {
  import opened Common
  import opened Sched
  import opened TokenBucket
  import opened Rates
  import opened History
  import opened Shaper

  /** The services the drain pairs with a list: guaranteed and excess are each other's
      alternate on the GBR list, the other lists have one service. */
  predicate Paired(l: nat, service: Service, alternate: Service) {
    || (l == GBR && service == Guaranteed && alternate == Excess)
    || (l == GBR && service == Excess && alternate == Guaranteed)
    || ((l == NON_GBR || l == DEFAULT) && service == SessionAmbr && alternate == NoService)
  }

  // ----- dropped packets

  predicate IsDrop(ev: Event, only: Option<FlowKey>) {
    ev.Discarded? && (only.None? || only.value == ev.key)
  }

  /** How many packets drains have dropped, of all flows or of one. */
  function Drops(tr: seq<Event>, only: Option<FlowKey>): nat {
    if tr == [] then 0 else Drops(tr[..|tr| - 1], only) + if IsDrop(tr[|tr| - 1], only) then 1 else 0
  }

  lemma DropsAppend(tr: seq<Event>, ev: Event, only: Option<FlowKey>)
    ensures Drops(tr + [ev], only) == Drops(tr, only) + if IsDrop(ev, only) then 1 else 0
  {
    assert (tr + [ev])[..|tr|] == tr;
  }

  lemma {:induction false} DropsSame(tr: seq<Event>, evs: seq<Event>, only: Option<FlowKey>)
    requires forall i :: 0 <= i < |evs| ==> !evs[i].Discarded?
    ensures Drops(tr + evs, only) == Drops(tr, only)
    decreases |evs|
  {
    if evs == [] {
      assert tr + evs == tr;
    } else {
      DropsAppend(tr, evs[0], only);
      DropsSame(tr + [evs[0]], evs[1..], only);
      assert tr + evs == tr + [evs[0]] + evs[1..];
    }
  }

  lemma {:induction false} DropsGrow(tr: seq<Event>, tr': seq<Event>, only: Option<FlowKey>)
    requires tr <= tr'
    ensures Drops(tr, only) <= Drops(tr', only)
    decreases |tr'|
  {
    if |tr| < |tr'| { DropsGrow(tr, tr'[..|tr'| - 1], only); } else { assert tr == tr'; }
  }

  /** A turn of the drain drops a packet exactly when the packet no longer fits the widest
      bucket its flow's policy allows. */
  lemma TryDropsIff(env: Env, u: Ue, l: nat, service: Service, alternate: Service, only: Option<FlowKey>)
    requires Good(env, u) && GBR <= l < LISTS && u.q.lists[l] != [] && Paired(l, service, alternate)
    ensures var i := u.q.lists[l][0]; i < MAX_FLOWS && u.q.flows[i].queue != []
    ensures
      var f := u.q.flows[u.q.lists[l][0]];
      Drops(Try(env, u, l, service, alternate).u.trace, only) - Drops(u.trace, only)
        == if Admissible(u.tb, f.hasGbr, f.qerId, f.queue[0].len) || (only.Some? && only.value != f.key) then 0 else 1
  {
    hide Tracked, MeterInv, ListsOk, Consume, Drops;
    HeadFlow(u.q, l);
    var f := u.q.flows[u.q.lists[l][0]];
    var e := f.queue[0];
    if f.hasGbr && Fits(u.tb, Guaranteed, f.qerId, e.len) { GuaranteedImpliesExcess(u.tb, f.qerId, e.len); }
    if !Fits(u.tb, service, f.qerId, e.len) {
      DropsAppend(u.trace, Discarded(f.key, e), only);
    } else {
      PayGood(env, u, service, f.qerId, f.key, e, PolicyOf(f), false);
      var p := Consume(u.tb, service, f.qerId, e.len, Now(env, u), env.hz);
      DropsSame(u.trace, PaymentEvents(p, f.key, e, service, PolicyOf(f), false), only);
    }
  }

  // ----- the order of a list

  /** A turn takes the head entry of the first flow of the list away, or no entry. */
  lemma TryFlows(env: Env, u: Ue, l: nat, service: Service, alternate: Service)
    requires Good(env, u) && GBR <= l < LISTS && u.q.lists[l] != []
    ensures var i := u.q.lists[l][0]; i < |u.q.flows| && u.q.flows[i].queue != [] && u.q.flows[i].inUse
    ensures
      var i, r := u.q.lists[l][0], Try(env, u, l, service, alternate).u;
      r.q.flows == u.q.flows || r.q.flows == u.q.flows[i := Served(u.q.flows[i])]
  {
    hide Tracked, MeterInv, ListsOk, Consume, Fits;
    HeadFlow(u.q, l);
    ServeOk(u.q, l);
    RotateOk(u.q, l);
  }

  /** A turn that sends nothing moves the first flow to the tail, unless its last packet was
      dropped, and leaves the other lists alone. */
  lemma TryLists(env: Env, u: Ue, l: nat, service: Service, alternate: Service)
    requires Good(env, u) && GBR <= l < LISTS && u.q.lists[l] != []
    requires Try(env, u, l, service, alternate).n == 0
    ensures
      var s, r := u.q.lists[l], Try(env, u, l, service, alternate).u;
      && s[0] < |r.q.flows|
      && r.q.lists == u.q.lists[l := s[1..] + if r.q.flows[s[0]].inUse then [s[0]] else []]
  {
    hide Tracked, MeterInv, Consume, Fits, ListsOk, Pop, Activate, Deactivate;
    HeadFlow(u.q, l);
    ServeOk(u.q, l);
    RotateOk(u.q, l);
    PopLists(u.q, l);
  }

  /** The flows of a list that still have packets, in order. */
  function Kept(s: seq<nat>, flows: seq<Flow>): seq<nat> {
    if s == [] then []
    else (if s[0] < |flows| && flows[s[0]].inUse then [s[0]] else []) + Kept(s[1..], flows)
  }

  lemma SplitTurn(s: seq<nat>, k: seq<nat>, n: nat)
    requires 0 < n <= |s|
    ensures var s1 := s[1..] + k; s1[..n - 1] == s[1..n] && s1[n - 1..] == s[n..] + k
  {}

  /** After `attempts` turns that sent nothing, the flows that had their turn follow the
      others, in the old order. */
  lemma {:induction false} DrainOneOrder(env: Env, u: Ue, l: nat, service: Service, alternate: Service, attempts: nat)
    requires Good(env, u) && GBR <= l < LISTS && attempts <= |u.q.lists[l]|
    requires DrainOne(env, u, l, service, alternate, attempts).n == 0
    ensures
      var s, v := u.q.lists[l], DrainOne(env, u, l, service, alternate, attempts).u;
      && |v.q.flows| == |u.q.flows|
      && v.q.lists == u.q.lists[l := s[attempts..] + Kept(s[..attempts], v.q.flows)]
      && (forall i :: 0 <= i < |u.q.flows| && i !in s[..attempts] ==> v.q.flows[i] == u.q.flows[i])
    decreases attempts
  {
    hide Try, Tracked, MeterInv, Progress, FlowsOk, KeysUnique;
    var s := u.q.lists[l];
    assert ListOk(u.q, l);
    if attempts == 0 {
      assert s[0..] + [] == s;
      assert u.q.lists[l := s] == u.q.lists;
    } else {
      TryGood(env, u, l, service, alternate);
      TryFlows(env, u, l, service, alternate);
      TryLists(env, u, l, service, alternate);
      var w := Try(env, u, l, service, alternate).u;
      var k := if w.q.flows[s[0]].inUse then [s[0]] else [];
      SplitTurn(s, k, attempts);
      DrainOneOrder(env, w, l, service, alternate, attempts - 1);
      var v := DrainOne(env, w, l, service, alternate, attempts - 1).u;
      OrderStep(s, k, attempts, v.q.flows);
      assert s[0] !in s[1..attempts];
      forall i | 0 <= i < |u.q.flows| && i !in s[..attempts] ensures v.q.flows[i] == u.q.flows[i] {
        assert i != s[0] && i !in s[1..attempts];
      }
    }
  }

  lemma OrderStep(s: seq<nat>, k: seq<nat>, n: nat, flows: seq<Flow>)
    requires 0 < n <= |s| && k == if s[0] < |flows| && flows[s[0]].inUse then [s[0]] else []
    ensures s[n..] + k + Kept(s[1..n], flows) == s[n..] + Kept(s[..n], flows)
  {
    hide Kept;
    var first, rest := s[..n], Kept(s[1..n], flows);
    assert first[0] == s[0] && first[1..] == s[1..n];
    KeptFirst(first, flows);
    Associates(s[n..], k, rest);
  }

  lemma Associates<T>(a: seq<T>, b: seq<T>, c: seq<T>)
    ensures (a + b) + c == a + (b + c)
  {}

  lemma KeptFirst(s: seq<nat>, flows: seq<Flow>)
    requires s != []
    ensures Kept(s, flows) == (if s[0] < |flows| && flows[s[0]].inUse then [s[0]] else []) + Kept(s[1..], flows)
  {}

  /** A pass that sends nothing leaves the order of every list unchanged: what remains of its
      own list is in the old order, the other lists are the same. */
  lemma FailedPassKeepsOrder(env: Env, u: Ue, l: nat, service: Service, alternate: Service, budget: nat)
    requires Good(env, u) && GBR <= l < LISTS && DrainService(env, u, l, service, alternate, budget).n == 0
    ensures
      var v := DrainService(env, u, l, service, alternate, budget).u;
      v.q.lists == u.q.lists[l := Kept(u.q.lists[l], v.q.flows)]
  {
    hide DrainOne, Tracked, MeterInv, Progress, KeysUnique;
    var s := u.q.lists[l];
    assert ListOk(u.q, l);
    if budget != 0 && u.q.counts[l] > 0 {
      DrainOneOrder(env, u, l, service, alternate, |s|);
      var v := DrainOne(env, u, l, service, alternate, |s|).u;
      assert s[|s|..] + Kept(s, v.q.flows) == Kept(s, v.q.flows) && s[..|s|] == s;
    } else {
      forall i | i in s ensures i < |u.q.flows| && u.q.flows[i].inUse { assert FlowOk(u.q.flows[i]); }
      KeptAll(s, u.q.flows);
      assert u.q.lists[l := s] == u.q.lists;
    }
  }

  lemma {:induction false} KeptAll(s: seq<nat>, flows: seq<Flow>)
    requires forall i :: i in s ==> i < |flows| && flows[i].inUse
    ensures Kept(s, flows) == s
  {
    if s != [] {
      forall i | i in s[1..] ensures i in s {}
      KeptAll(s[1..], flows);
      assert s[0] in s && s == [s[0]] + s[1..];
    }
  }

  // ----- a drain as a sequence of turns

  /** What a drain does to a UE, one turn at a time. */
  datatype Act = TurnOf(l: nat, service: Service, alternate: Service) | NextTurn

  ghost predicate Enabled(u: Ue, a: Act) {
    a.TurnOf? ==>
      && GBR <= a.l < LISTS && Paired(a.l, a.service, a.alternate)
      && |u.q.lists| == LISTS && u.q.lists[a.l] != []
  }

  ghost function Perform(env: Env, u: Ue, a: Act): (r: Ue)
    requires Good(env, u) && Enabled(u, a)
    ensures Good(env, r)
  {
    match a
    case TurnOf(l, service, alternate) => TryGood(env, u, l, service, alternate); Try(env, u, l, service, alternate).u
    case NextTurn => AdvanceGood(env, u); Advance(u)
  }

  ghost predicate Acts(env: Env, u: Ue, acts: seq<Act>, v: Ue)
    requires Good(env, u)
    decreases |acts|
  {
    if acts == [] then v == u
    else Enabled(u, acts[0]) && Acts(env, Perform(env, u, acts[0]), acts[1..], v)
  }

  lemma {:induction false} ActsAppend(env: Env, u: Ue, a: seq<Act>, v: Ue, b: seq<Act>, w: Ue)
    requires Good(env, u) && Good(env, v) && Acts(env, u, a, v) && Acts(env, v, b, w)
    ensures Acts(env, u, a + b, w)
    decreases |a|
  {
    hide Good, Try;
    if a == [] {
      assert a + b == b;
    } else {
      ActsAppend(env, Perform(env, u, a[0]), a[1..], v, b, w);
      assert (a + b)[1..] == a[1..] + b;
    }
  }

  lemma ActsNone(env: Env, u: Ue)
    requires Good(env, u)
    ensures Acts(env, u, [], u)
  {}

  lemma ActsNext(env: Env, u: Ue, rest: seq<Act>, v: Ue)
    requires Good(env, u) && Good(env, Advance(u)) && Acts(env, Advance(u), rest, v)
    ensures Acts(env, u, [NextTurn] + rest, v)
  {
    hide Try;
    assert ([NextTurn] + rest)[1..] == rest;
  }

  lemma {:induction false} DrainOneActs(env: Env, u: Ue, l: nat, service: Service, alternate: Service, attempts: nat)
    returns (acts: seq<Act>)
    requires Good(env, u) && GBR <= l < LISTS && Paired(l, service, alternate)
    ensures Acts(env, u, acts, DrainOne(env, u, l, service, alternate, attempts).u)
    decreases attempts
  {
    hide Try, Progress, Tracked, MeterInv;
    acts := [];
    if attempts != 0 && u.q.lists[l] != [] {
      var t := Try(env, u, l, service, alternate);
      TryGood(env, u, l, service, alternate);
      acts := [TurnOf(l, service, alternate)];
      if t.n != 1 {
        var rest := DrainOneActs(env, t.u, l, service, alternate, attempts - 1);
        acts := acts + rest;
      }
    }
  }

  lemma {:induction false} DrainServiceActs(env: Env, u: Ue, l: nat, service: Service, alternate: Service, budget: nat)
    returns (acts: seq<Act>)
    requires Good(env, u) && GBR <= l < LISTS && Paired(l, service, alternate)
    ensures Acts(env, u, acts, DrainService(env, u, l, service, alternate, budget).u)
    decreases budget
  {
    hide DrainOne, Acts, Progress, Tracked, MeterInv;
    ActsNone(env, u);
    acts := [];
    if budget != 0 && u.q.counts[l] > 0 {
      acts := DrainOneActs(env, u, l, service, alternate, u.q.counts[l]);
      var t := DrainOne(env, u, l, service, alternate, u.q.counts[l]);
      if t.n != 0 {
        var rest := DrainServiceActs(env, t.u, l, service, alternate, budget - 1);
        ActsAppend(env, u, acts, t.u, rest, DrainService(env, t.u, l, service, alternate, budget - 1).u);
        acts := acts + rest;
      }
    }
  }

  lemma {:induction false} ExcessRoundActs(env: Env, u: Ue, tries: nat) returns (acts: seq<Act>)
    requires Good(env, u)
    ensures Acts(env, u, acts, ExcessRound(env, u, tries).u)
    decreases tries
  {
    hide DrainService, Acts, Progress, Tracked, MeterInv;
    if tries == 0 {
      acts := [];
      ActsNone(env, u);
    } else {
      var l := u.q.nextExcess;
      AdvanceGood(env, u);
      var u1 := Advance(u);
      if u1.q.counts[l] == 0 {
        acts := ExcessRoundActs(env, u1, tries - 1);
      } else {
        acts := DrainServiceActs(env, u1, l, ExcessService(l), ExcessAlternate(l), 1);
        var t := DrainService(env, u1, l, ExcessService(l), ExcessAlternate(l), 1);
        if t.n == 0 {
          var rest := ExcessRoundActs(env, t.u, tries - 1);
          ActsAppend(env, u1, acts, t.u, rest, ExcessRound(env, t.u, tries - 1).u);
          acts := acts + rest;
        }
      }
      ActsNext(env, u, acts, ExcessRound(env, u, tries).u);
      acts := [NextTurn] + acts;
    }
  }

  lemma {:induction false} DrainExcessActs(env: Env, u: Ue, budget: nat) returns (acts: seq<Act>)
    requires Good(env, u)
    ensures Acts(env, u, acts, DrainExcess(env, u, budget).u)
    decreases budget
  {
    hide ExcessRound, Acts, Progress, Tracked, MeterInv;
    acts := [];
    ActsNone(env, u);
    if budget != 0 && AnyActive(u.q) {
      acts := ExcessRoundActs(env, u, 3);
      var t := ExcessRound(env, u, 3);
      if t.n != 0 {
        var rest := DrainExcessActs(env, t.u, budget - 1);
        ActsAppend(env, u, acts, t.u, rest, DrainExcess(env, t.u, budget - 1).u);
        acts := acts + rest;
      }
    }
  }

  lemma DrainRoundActs(env: Env, u: Ue, budget: nat, nbTx: nat) returns (acts: seq<Act>)
    requires Good(env, u) && 0 < budget && nbTx < DRAIN_CHUNK
    ensures Acts(env, u, acts, DrainRound(env, u, budget, nbTx).u)
  {
    hide DrainExcess, DrainService, Acts, Progress, Good;
    acts := DrainServiceActs(env, u, GBR, Guaranteed, Excess, Burst(budget, nbTx));
    var g := DrainGbr(env, u, Burst(budget, nbTx));
    if g.n != budget && nbTx + g.n != DRAIN_CHUNK {
      var more := DrainExcessActs(env, g.u, Burst(budget - g.n, nbTx + g.n));
      ActsAppend(env, u, acts, g.u, more, DrainExcess(env, g.u, Burst(budget - g.n, nbTx + g.n)).u);
      acts := acts + more;
    }
  }

  lemma {:induction false} DrainLoopActs(env: Env, u: Ue, budget: nat, nbTx: nat) returns (acts: seq<Act>)
    requires Good(env, u) && nbTx <= DRAIN_CHUNK
    ensures Acts(env, u, acts, DrainLoop(env, u, budget, nbTx).u)
    decreases budget
  {
    hide DrainRound, Acts, Progress, Good;
    acts := [];
    ActsNone(env, u);
    if budget != 0 && nbTx != DRAIN_CHUNK && u.q.queued > 0 {
      acts := DrainRoundActs(env, u, budget, nbTx);
      var t := DrainRound(env, u, budget, nbTx);
      if t.n != 0 {
        var rest := DrainLoopActs(env, t.u, budget - t.n, nbTx + t.n);
        ActsAppend(env, u, acts, t.u, rest, DrainLoop(env, t.u, budget - t.n, nbTx + t.n).u);
        acts := acts + rest;
      }
    }
  }
}
