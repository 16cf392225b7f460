/** One UE's downlink shaper (5gc/upf_u/upf_u.c): admission, fast path, queueing, and the
    drain that serves guaranteed traffic first and the rest round-robin over three lists.

    `Ue` joins the queues, the token state, the number of clock readings so far and the
    trace. The clock is an arbitrary monotone sequence of readings, so every statement is
    about every possible timing. */
module Shaper {
  import opened Sched
  import opened TokenBucket
  import opened Rates
  import opened History

  const DRAIN_CHUNK := 128
  const CLASS_BURST := 16

  /** `clk(n)` is the n-th reading of the TSC, `home` the hash slot of a flow key. */
  datatype Env = Env(clk: nat -> nat, hz: nat, home: FlowKey -> nat)

  ghost predicate Steady(env: Env) {
    env.hz > 0 && forall i, j :: 0 <= i <= j ==> env.clk(i) <= env.clk(j)
  }

  datatype Ue = Ue(q: Sched, tb: UeTb, ticks: nat, trace: seq<Event>)

  function Now(env: Env, u: Ue): nat { env.clk(u.ticks) }

  /** Everything that holds between any two operations on a UE: the queues are well
      formed, every bucket honours its rate, every flow leaves in order, and every
      queued packet is accounted for. */
  ghost predicate Good(env: Env, u: Ue) {
    && Steady(env) && Inv(u.q) && Tracked(u.q.flows, u.trace)
    && MeterInv(u.tb, u.trace, env.hz) && Timely(u.tb, Now(env, u))
  }

  /** How many packets drains have sent. */
  function SentCount(tr: seq<Event>): nat {
    if tr == [] then 0 else SentCount(tr[..|tr| - 1]) + if tr[|tr| - 1].Sent? then 1 else 0
  }

  /** From u to v, n packets were sent; history only grew and the configured rates stayed. */
  ghost predicate Progress(u: Ue, v: Ue, n: nat) {
    && u.trace <= v.trace && SentCount(v.trace) == SentCount(u.trace) + n
    && SameRates(u.tb, v.tb) && u.ticks <= v.ticks
  }

  lemma SentAppend(tr: seq<Event>, ev: Event)
    ensures SentCount(tr + [ev]) == SentCount(tr) + if ev.Sent? then 1 else 0
  {
    assert (tr + [ev])[..|tr|] == tr;
  }

  lemma {:induction false} SentSame(tr: seq<Event>, evs: seq<Event>)
    requires forall i :: 0 <= i < |evs| ==> AboutTokens(evs[i])
    ensures SentCount(tr + evs) == SentCount(tr)
    decreases |evs|
  {
    if evs == [] {
      assert tr + evs == tr;
    } else {
      SentAppend(tr, evs[0]);
      SentSame(tr + [evs[0]], evs[1..]);
      assert tr + evs == tr + [evs[0]] + evs[1..];
    }
  }

  lemma ProgressTrans(u: Ue, v: Ue, w: Ue, m: nat, n: nat)
    requires Progress(u, v, m) && Progress(v, w, n)
    ensures Progress(u, w, m + n)
  {
    SameRatesTrans(u.tb, v.tb, w.tb);
  }

  // ----- draining

  datatype Drained = Drained(u: Ue, n: nat)

  /** One turn of the loop in shaper_drain_one_from_list_locked: the first flow of list l
      is served, dropped from, or sent to the tail. */
  function Try(env: Env, u: Ue, l: nat, service: Service, alternate: Service): (r: Drained)
    requires Good(env, u) && GBR <= l < LISTS && u.q.lists[l] != []
    ensures r.n <= 1
  {
    HeadFlow(u.q, l);
    ServeOk(u.q, l);
    var i := u.q.lists[l][0];
    var f := u.q.flows[i];
    var e := f.queue[0];
    var d := Deactivate(u.q, i);
    if !Fits(u.tb, service, f.qerId, e.len) then
      if Fits(u.tb, alternate, f.qerId, e.len) then Drained(u.(q := Activate(d, i)), 0)
      else Drained(u.(q := Pop(d, i), trace := u.trace + [Discarded(f.key, e)]), 0)
    else
      var p := Consume(u.tb, service, f.qerId, e.len, Now(env, u), env.hz);
      var tr := u.trace + PaymentEvents(p, f.key, e, service, PolicyOf(f), false);
      if p.ok then Drained(Ue(Pop(d, i), p.tb, u.ticks + 1, tr), 1)
      else Drained(Ue(Activate(d, i), p.tb, u.ticks + 1, tr), 0)
  }

  /** A payment advances the clock and keeps tokens and accounts. */
  lemma PayGood(env: Env, u: Ue, service: Service, qerId: nat, key: FlowKey, e: Entry, policy: Policy, fast: bool)
    requires Good(env, u)
    ensures var p := Consume(u.tb, service, qerId, e.len, Now(env, u), env.hz);
      && MeterInv(p.tb, u.trace + PaymentEvents(p, key, e, service, policy, fast), env.hz)
      && Timely(p.tb, env.clk(u.ticks + 1)) && SameRates(u.tb, p.tb)
      && (forall c :: 0 <= c < |p.credits| ==> AboutTokens(p.credits[c]))
  {
    MeterWellFormed(u.tb, u.trace, env.hz);
    ConsumeMeter(u.tb, u.trace, service, qerId, key, e, policy, fast, Now(env, u), env.hz);
    ConsumeKeeps(u.tb, service, qerId, e.len, Now(env, u), env.hz);
    assert env.clk(u.ticks) <= env.clk(u.ticks + 1);
  }

  /** Each turn keeps all invariants, whatever branch it takes. */
  lemma TryGood(env: Env, u: Ue, l: nat, service: Service, alternate: Service)
    requires Good(env, u) && GBR <= l < LISTS && u.q.lists[l] != []
    ensures Good(env, Try(env, u, l, service, alternate).u)
  {
    hide Tracked, MeterInv, ListsOk, Total, Bytes, Consume, Fits, Pop, Activate, Deactivate, SameRates;
    HeadFlow(u.q, l);
    ServeOk(u.q, l);
    RotateOk(u.q, l);
    var i := u.q.lists[l][0];
    var f := u.q.flows[i];
    var e := f.queue[0];
    var r := Try(env, u, l, service, alternate);
    if !Fits(u.tb, service, f.qerId, e.len) {
      if !Fits(u.tb, alternate, f.qerId, e.len) {
        DiscardTracked(u.q.flows, u.trace, i, Served(f));
        SilentMeter(u.tb, u.trace, Discarded(f.key, e), env.hz);
      }
    } else {
      PayGood(env, u, service, f.qerId, f.key, e, PolicyOf(f), false);
      var p := Consume(u.tb, service, f.qerId, e.len, Now(env, u), env.hz);
      TokensTracked(u.q.flows, u.trace, p.credits);
      if p.ok {
        SendTracked(u.q.flows, u.trace + p.credits, i, Served(f), service, p.slot, PolicyOf(f));
        assert r.u.trace == u.trace + p.credits + [Sent(f.key, e, service, p.slot, PolicyOf(f))];
      } else {
        assert r.u.trace == u.trace + p.credits;
      }
    }
  }

  lemma TryProgress(env: Env, u: Ue, l: nat, service: Service, alternate: Service)
    requires Good(env, u) && GBR <= l < LISTS && u.q.lists[l] != []
    ensures var r := Try(env, u, l, service, alternate); Progress(u, r.u, r.n)
  {
    hide Tracked, MeterInv, ListsOk, SentCount, Consume, Fits, Pop, Activate, Deactivate, SameRates;
    HeadFlow(u.q, l);
    var f := u.q.flows[u.q.lists[l][0]];
    var e := f.queue[0];
    var r := Try(env, u, l, service, alternate);
    SameRatesSelf(u.tb);
    if !Fits(u.tb, service, f.qerId, e.len) {
      SentAppend(u.trace, Discarded(f.key, e));
    } else {
      PayGood(env, u, service, f.qerId, f.key, e, PolicyOf(f), false);
      var p := Consume(u.tb, service, f.qerId, e.len, Now(env, u), env.hz);
      SentSame(u.trace, p.credits);
      if p.ok {
        SentAppend(u.trace + p.credits, Sent(f.key, e, service, p.slot, PolicyOf(f)));
        assert r.u.trace == u.trace + p.credits + [Sent(f.key, e, service, p.slot, PolicyOf(f))];
      } else {
        assert r.u.trace == u.trace + p.credits;
      }
    }
  }

  /** shaper_drain_one_from_list_locked: at most `attempts` turns, until one packet left. */
  function DrainOne(env: Env, u: Ue, l: nat, service: Service, alternate: Service, attempts: nat): (r: Drained)
    requires Good(env, u) && GBR <= l < LISTS
    ensures Good(env, r.u) && Progress(u, r.u, r.n) && r.n <= 1
    decreases attempts
  {
    if attempts == 0 || u.q.lists[l] == [] then Drained(u, 0)
    else
      TryGood(env, u, l, service, alternate);
      TryProgress(env, u, l, service, alternate);
      var t := Try(env, u, l, service, alternate);
      if t.n == 1 then t
      else
        var rest := DrainOne(env, t.u, l, service, alternate, attempts - 1);
        ProgressTrans(u, t.u, rest.u, 0, rest.n);
        rest
  }

  /** shaper_drain_service_locked. */
  function DrainService(env: Env, u: Ue, l: nat, service: Service, alternate: Service, budget: nat): (r: Drained)
    requires Good(env, u) && GBR <= l < LISTS
    ensures Good(env, r.u) && Progress(u, r.u, r.n) && r.n <= budget
    decreases budget
  {
    if budget == 0 || u.q.counts[l] <= 0 then Drained(u, 0)
    else
      var t := DrainOne(env, u, l, service, alternate, u.q.counts[l]);
      if t.n == 0 then t
      else
        var rest := DrainService(env, t.u, l, service, alternate, budget - 1);
        ProgressTrans(u, t.u, rest.u, 1, rest.n);
        Drained(rest.u, 1 + rest.n)
  }

  function DrainGbr(env: Env, u: Ue, budget: nat): (r: Drained)
    requires Good(env, u)
    ensures Good(env, r.u) && Progress(u, r.u, r.n) && r.n <= budget
  {
    DrainService(env, u, GBR, Guaranteed, Excess, budget)
  }

  function NextList(l: nat): (r: nat)
    ensures GBR <= r <= DEFAULT
  {
    if l == GBR then NON_GBR else if l == NON_GBR then DEFAULT else GBR
  }

  function ExcessService(l: nat): Service { if l == GBR then Excess else SessionAmbr }

  function ExcessAlternate(l: nat): Service { if l == GBR then Guaranteed else NoService }

  function Advance(u: Ue): Ue { u.(q := u.q.(nextExcess := NextList(u.q.nextExcess))) }

  lemma AdvanceGood(env: Env, u: Ue)
    requires Good(env, u)
    ensures Good(env, Advance(u))
  {
    ListsOnly(u.q, Advance(u).q);
  }

  /** The inner loop of shaper_drain_excess_locked: up to `tries` lists, until one packet left. */
  function ExcessRound(env: Env, u: Ue, tries: nat): (r: Drained)
    requires Good(env, u)
    ensures Good(env, r.u) && Progress(u, r.u, r.n) && r.n <= 1
    decreases tries
  {
    if tries == 0 then Drained(u, 0)
    else
      var l := u.q.nextExcess;
      AdvanceGood(env, u);
      var u1 := Advance(u);
      if u1.q.counts[l] == 0 then ExcessRound(env, u1, tries - 1)
      else
        var t := DrainService(env, u1, l, ExcessService(l), ExcessAlternate(l), 1);
        if t.n > 0 then t
        else
          var rest := ExcessRound(env, t.u, tries - 1);
          ProgressTrans(u, t.u, rest.u, 0, rest.n);
          rest
  }

  predicate AnyActive(q: Sched)
    requires |q.counts| == LISTS
  {
    q.counts[GBR] > 0 || q.counts[NON_GBR] > 0 || q.counts[DEFAULT] > 0
  }

  function DrainExcess(env: Env, u: Ue, budget: nat): (r: Drained)
    requires Good(env, u)
    ensures Good(env, r.u) && Progress(u, r.u, r.n) && r.n <= budget
    decreases budget
  {
    if budget == 0 || !AnyActive(u.q) then Drained(u, 0)
    else
      var t := ExcessRound(env, u, 3);
      if t.n == 0 then t
      else
        var rest := DrainExcess(env, t.u, budget - 1);
        ProgressTrans(u, t.u, rest.u, 1, rest.n);
        Drained(rest.u, 1 + rest.n)
  }

  function Min(a: int, b: int): int { if a < b then a else b }

  function Burst(budget: nat, nbTx: nat): int {
    Min(Min(budget, CLASS_BURST), DRAIN_CHUNK - nbTx)
  }

  /** One turn of the loop of drain_ue_shaper: a guaranteed burst, then an excess burst
      unless the budget or the transmit buffer is used up. */
  function DrainRound(env: Env, u: Ue, budget: nat, nbTx: nat): (r: Drained)
    requires Good(env, u) && 0 < budget && nbTx < DRAIN_CHUNK
    ensures Good(env, r.u) && Progress(u, r.u, r.n) && r.n <= budget && nbTx + r.n <= DRAIN_CHUNK
  {
    var g := DrainGbr(env, u, Burst(budget, nbTx));
    if g.n == budget || nbTx + g.n == DRAIN_CHUNK then g
    else
      var x := DrainExcess(env, g.u, Burst(budget - g.n, nbTx + g.n));
      ProgressTrans(u, g.u, x.u, g.n, x.n);
      Drained(x.u, g.n + x.n)
  }

  /** The loop of drain_ue_shaper: rounds, while something leaves. */
  function DrainLoop(env: Env, u: Ue, budget: nat, nbTx: nat): (r: Drained)
    requires Good(env, u) && nbTx <= DRAIN_CHUNK
    ensures Good(env, r.u) && Progress(u, r.u, r.n) && r.n <= budget && nbTx + r.n <= DRAIN_CHUNK
    decreases budget
  {
    if budget == 0 || nbTx == DRAIN_CHUNK || u.q.queued <= 0 then Drained(u, 0)
    else
      var t := DrainRound(env, u, budget, nbTx);
      if t.n == 0 then t
      else
        var rest := DrainLoop(env, t.u, budget - t.n, nbTx + t.n);
        ProgressTrans(u, t.u, rest.u, t.n, rest.n);
        Drained(rest.u, t.n + rest.n)
  }

  /** drain_ue_shaper. */
  function DrainUe(env: Env, u: Ue, budget: nat): (r: Drained)
    requires Good(env, u)
    ensures Good(env, r.u) && Progress(u, r.u, r.n) && r.n <= budget && r.n <= DRAIN_CHUNK
  {
    DrainLoop(env, u, budget, 0)
  }

  // ----- arrivals

  /** A downlink packet with the policy its PDR selects. `qosLen` is the length the policy
      meters; zero means the buffer's own length. */
  datatype Arrival = Arrival(key: FlowKey, hasGbr: bool, qerId: nat, color: nat,
                             id: nat, qosLen: nat, bufLen: nat, destination: nat)

  datatype Decision = Pass | Enqueue | Drop

  datatype Verdict = Verdict(u: Ue, decision: Decision)

  function EntryOf(a: Arrival): Entry {
    Entry(a.id, if a.qosLen == 0 then a.bufLen else a.qosLen, a.destination, a.color)
  }

  function AskedBy(a: Arrival): Policy { Policy(a.hasGbr, a.qerId) }

  /** A consume call made for a packet that is not queued. */
  function PayNow(env: Env, u: Ue, a: Arrival, service: Service): (r: Drained)
    requires Good(env, u)
  {
    var p := Consume(u.tb, service, a.qerId, EntryOf(a).len, Now(env, u), env.hz);
    Drained(Ue(u.q, p.tb, u.ticks + 1, u.trace + PaymentEvents(p, a.key, EntryOf(a), service, AskedBy(a), true)),
            if p.ok then 1 else 0)
  }

  lemma PayNowGood(env: Env, u: Ue, a: Arrival, service: Service)
    requires Good(env, u) && QueueOf(u.q.flows, a.key) == []
    ensures Good(env, PayNow(env, u, a, service).u)
  {
    var e := EntryOf(a);
    PayGood(env, u, service, a.qerId, a.key, e, AskedBy(a), true);
    var p := Consume(u.tb, service, a.qerId, e.len, Now(env, u), env.hz);
    TokensTracked(u.q.flows, u.trace, p.credits);
    var tr := PayNow(env, u, a, service).u.trace;
    if p.ok {
      PassTracked(u.q.flows, u.trace + p.credits, a.key, e, service, p.slot, AskedBy(a));
      assert tr == u.trace + p.credits + [Passed(a.key, e, service, p.slot, AskedBy(a))];
    } else {
      assert tr == u.trace + p.credits;
    }
  }

  /** shaper_consume_fast_path: guaranteed tokens first, then excess ones. */
  function FastPath(env: Env, u: Ue, a: Arrival): (r: Drained)
    requires Good(env, u) && QueueOf(u.q.flows, a.key) == []
    ensures Good(env, r.u) && r.u.q == u.q && r.n <= 1
  {
    if !a.hasGbr then PayNowGood(env, u, a, SessionAmbr); PayNow(env, u, a, SessionAmbr)
    else
      PayNowGood(env, u, a, Guaranteed);
      var g := PayNow(env, u, a, Guaranteed);
      if g.n == 1 then g else PayNowGood(env, g.u, a, Excess); PayNow(env, g.u, a, Excess)
  }

  function Refuse(u: Ue, a: Arrival): Verdict {
    Verdict(u.(trace := u.trace + [Refused(a.key, EntryOf(a))]), Drop)
  }

  /** Puts the packet behind those of its flow in slot i, unless a limit or the pool forbids it. */
  function Behind(u: Ue, a: Arrival, i: nat, entryFree: bool): Verdict
    requires Inv(u.q) && i < MAX_FLOWS
  {
    var q := UpdatePolicy(u.q, i, a.hasGbr, a.qerId);
    if q.flows[i].pkts >= MAX_PER_FLOW || q.queued >= MAX_PER_UE || !entryFree then Refuse(u.(q := q), a)
    else Verdict(u.(q := Push(q, i, EntryOf(a)), trace := u.trace + [Queued(a.key, EntryOf(a))]), Enqueue)
  }

  /** Opens slot i for the first packet of a flow, and gives it back when a limit or the
      pool forbids queueing. */
  function Open(u: Ue, a: Arrival, i: nat, entryFree: bool): Verdict
    requires Inv(u.q) && i < MAX_FLOWS
  {
    var q := UpdatePolicy(Claim(u.q, i, a.key), i, a.hasGbr, a.qerId);
    if q.queued >= MAX_PER_UE || !entryFree then Refuse(u.(q := Release(q, i)), a)
    else Verdict(u.(q := Push(q, i, EntryOf(a)), trace := u.trace + [Queued(a.key, EntryOf(a))]), Enqueue)
  }

  /** shape_or_enqueue_packet; `entryFree` says whether the entry pool can serve it. */
  function Arrive(env: Env, u: Ue, a: Arrival, entryFree: bool): (r: Verdict)
    requires Good(env, u)
  {
    var e := EntryOf(a);
    if e.len == 0 || !Admissible(u.tb, a.hasGbr, a.qerId, e.len) then Refuse(u, a)
    else
      var i := Lookup(u.q.flows, a.key, env.home(a.key), 0);
      if i >= 0 then Behind(u, a, i, entryFree)
      else NoFlow(u.q.flows, a.key, env.home(a.key)); First(env, u, a, entryFree)
  }

  /** The packet of a flow that has none waiting: the fast path if tokens allow it. */
  function First(env: Env, u: Ue, a: Arrival, entryFree: bool): (r: Verdict)
    requires Good(env, u) && QueueOf(u.q.flows, a.key) == []
  {
    var p := FastPath(env, u, a);
    if p.n == 1 then Verdict(p.u, Pass)
    else
      var free := FreeSlot(p.u.q.flows, env.home(a.key), 0);
      if free < 0 then Refuse(p.u, a) else Open(p.u, a, free, entryFree)
  }

  /** A failed lookup means that no flow with the key is in the table. */
  lemma NoFlow(flows: seq<Flow>, key: FlowKey, start: nat)
    requires |flows| == MAX_FLOWS && KeysUnique(flows) && Lookup(flows, key, start, 0) == -1
    ensures forall j :: 0 <= j < MAX_FLOWS && flows[j].inUse ==> flows[j].key != key
    ensures QueueOf(flows, key) == []
  {
    forall j | 0 <= j < MAX_FLOWS && flows[j].inUse ensures flows[j].key != key {
      if flows[j].key == key { LookupFinds(flows, key, start, 0, j); }
    }
    QueueOfNone(flows, key);
  }

  lemma RefuseGood(env: Env, u: Ue, a: Arrival)
    requires Good(env, u)
    ensures Good(env, Refuse(u, a).u)
  {
    RefuseTracked(u.q.flows, u.trace, a.key, EntryOf(a));
    SilentMeter(u.tb, u.trace, Refused(a.key, EntryOf(a)), env.hz);
  }

  lemma PolicyGood(env: Env, u: Ue, i: nat, hasGbr: bool, qerId: nat)
    requires Good(env, u) && i < MAX_FLOWS && u.q.flows[i].inUse
    ensures Good(env, u.(q := UpdatePolicy(u.q, i, hasGbr, qerId)))
  {
    PolicyOk(u.q, i, hasGbr, qerId);
    var r := UpdatePolicy(u.q, i, hasGbr, qerId);
    PolicyTracked(u.q.flows, u.trace, i, r.flows[i]);
    assert r.flows == u.q.flows[i := r.flows[i]];
  }

  lemma BehindGood(env: Env, u: Ue, a: Arrival, i: nat, entryFree: bool)
    requires Good(env, u) && i < MAX_FLOWS && u.q.flows[i].inUse && u.q.flows[i].key == a.key
    ensures Good(env, Behind(u, a, i, entryFree).u)
  {
    PolicyGood(env, u, i, a.hasGbr, a.qerId);
    PolicyOk(u.q, i, a.hasGbr, a.qerId);
    var u1 := u.(q := UpdatePolicy(u.q, i, a.hasGbr, a.qerId));
    RefuseGood(env, u1, a);
    if Behind(u, a, i, entryFree).decision == Enqueue {
      PushOk(u1.q, i, EntryOf(a));
      var r := Push(u1.q, i, EntryOf(a));
      QueueTracked(u1.q.flows, u.trace, i, r.flows[i], a.key, EntryOf(a));
      SilentMeter(u.tb, u.trace, Queued(a.key, EntryOf(a)), env.hz);
    }
  }

  lemma OpenGood(env: Env, u: Ue, a: Arrival, i: nat, entryFree: bool)
    requires Good(env, u) && i < MAX_FLOWS && !u.q.flows[i].inUse && QueueOf(u.q.flows, a.key) == []
    requires forall j :: 0 <= j < MAX_FLOWS && u.q.flows[j].inUse ==> u.q.flows[j].key != a.key
    ensures Good(env, Open(u, a, i, entryFree).u)
  {
    ReleaseClaimed(u.q, i, a.key, a.hasGbr, a.qerId);
    RefuseGood(env, u, a);
    if Open(u, a, i, entryFree).decision == Enqueue {
      var e := EntryOf(a);
      OpenOk(u.q, i, a.key, a.hasGbr, a.qerId, e);
      QueueTracked(u.q.flows, u.trace, i, Opened(a.key, a.hasGbr, a.qerId, e), a.key, e);
      SilentMeter(u.tb, u.trace, Queued(a.key, e), env.hz);
    }
  }

  lemma FirstGood(env: Env, u: Ue, a: Arrival, entryFree: bool)
    requires Good(env, u) && QueueOf(u.q.flows, a.key) == []
    requires forall j :: 0 <= j < MAX_FLOWS && u.q.flows[j].inUse ==> u.q.flows[j].key != a.key
    ensures Good(env, First(env, u, a, entryFree).u)
  {
    var p := FastPath(env, u, a);
    var free := FreeSlot(p.u.q.flows, env.home(a.key), 0);
    if p.n != 1 && free < 0 { RefuseGood(env, p.u, a); }
    if p.n != 1 && free >= 0 { OpenGood(env, p.u, a, free, entryFree); }
  }

  /** Admission keeps all invariants, whatever its decision. */
  lemma ArriveGood(env: Env, u: Ue, a: Arrival, entryFree: bool)
    requires Good(env, u)
    ensures Good(env, Arrive(env, u, a, entryFree).u)
  {
    RefuseGood(env, u, a);
    var i := Lookup(u.q.flows, a.key, env.home(a.key), 0);
    if i >= 0 {
      BehindGood(env, u, a, i, entryFree);
    } else {
      NoFlow(u.q.flows, a.key, env.home(a.key));
      FirstGood(env, u, a, entryFree);
    }
  }

  // ----- flushing

  /** shaper_flush_ue: every waiting packet is freed and the queues are reset. */
  function Flush(u: Ue): Ue {
    u.(q := Empty(), trace := u.trace + FlushEvents(u.q.flows))
  }

  lemma FlushGood(env: Env, u: Ue)
    requires Good(env, u)
    ensures Good(env, Flush(u))
  {
    EmptyOk();
    FlushTracked(u.q.flows, u.trace, Empty().flows);
    FlushSilent(u.q.flows);
    SilentMeters(u.tb, u.trace, FlushEvents(u.q.flows), env.hz);
  }

  // ----- whole runs

  /** What can happen to one UE slot. Removing a session flushes before it clears the row. */
  datatype Op =
    | OnPacket(a: Arrival, entryFree: bool)
    | OnDrain(budget: nat)
    | OnRemove
    | OnAdd(ueIp: nat, rate: nat, conflict: bool)
    | OnAmbr(rate: nat, conflict: bool)
    | OnQer(id: nat, qfi: nat, gfbr: nat, mfbr: nat)

  function Do(env: Env, u: Ue, op: Op): Ue
    requires Good(env, u)
  {
    match op
    case OnPacket(a, entryFree) => Arrive(env, u, a, entryFree).u
    case OnDrain(budget) => DrainUe(env, u, budget).u
    case OnRemove => var f := Flush(u); f.(tb := ZeroUe(), trace := f.trace + [Cleared])
    case OnAdd(ueIp, rate, conflict) =>
      Ue(u.q, NewUe(ueIp, rate, conflict, Now(env, u)), u.ticks + 1,
         u.trace + [Cleared, Inited(Ambr, Now(env, u))])
    case OnAmbr(rate, conflict) =>
      var c := RefreshAmbr(u.tb, rate, conflict, Now(env, u));
      Ue(u.q, c.tb, u.ticks + 1, u.trace + c.events)
    case OnQer(id, qfi, gfbr, mfbr) =>
      var c := RefreshQer(u.tb, id, qfi, gfbr, mfbr, Now(env, u));
      Ue(u.q, c.tb, u.ticks + 1, u.trace + c.events)
  }

  /** New token state, with events about tokens only. */
  lemma ConfigureGood(env: Env, u: Ue, tb: UeTb, evs: seq<Event>)
    requires Good(env, u) && MeterInv(tb, u.trace + evs, env.hz) && Timely(tb, Now(env, u))
    requires forall c :: 0 <= c < |evs| ==> AboutTokens(evs[c])
    ensures Good(env, Ue(u.q, tb, u.ticks + 1, u.trace + evs))
  {
    TokensTracked(u.q.flows, u.trace, evs);
    assert env.clk(u.ticks) <= env.clk(u.ticks + 1);
  }

  lemma RemoveGood(env: Env, u: Ue)
    requires Good(env, u)
    ensures Good(env, Do(env, u, OnRemove))
  {
    FlushGood(env, u);
    ClearMeter(Flush(u).trace, env.hz);
    TokenTracked(Empty().flows, Flush(u).trace, Cleared);
  }

  lemma DoGood(env: Env, u: Ue, op: Op)
    requires Good(env, u)
    ensures Good(env, Do(env, u, op))
  {
    var now := Now(env, u);
    match op
    case OnPacket(a, entryFree) => ArriveGood(env, u, a, entryFree);
    case OnDrain(budget) =>
    case OnRemove => RemoveGood(env, u);
    case OnAdd(ueIp, rate, conflict) =>
      NewUeMeter(u.trace, ueIp, rate, conflict, now, env.hz);
      ConfigureGood(env, u, NewUe(ueIp, rate, conflict, now), [Cleared, Inited(Ambr, now)]);
    case OnAmbr(rate, conflict) =>
      RefreshAmbrMeter(u.tb, u.trace, rate, conflict, now, env.hz);
      var c := RefreshAmbr(u.tb, rate, conflict, now);
      ConfigureGood(env, u, c.tb, c.events);
    case OnQer(id, qfi, gfbr, mfbr) =>
      RefreshQerMeter(u.tb, u.trace, id, qfi, gfbr, mfbr, now, env.hz);
      var c := RefreshQer(u.tb, id, qfi, gfbr, mfbr, now);
      ConfigureGood(env, u, c.tb, c.events);
  }

  /** A UE slot as start-up leaves it. */
  function Fresh(): Ue { Ue(Empty(), ZeroUe(), 0, []) }

  lemma FreshGood(env: Env)
    requires Steady(env)
    ensures Good(env, Fresh())
  {
    EmptyOk();
    ClearMeter([], env.hz);
    forall b | BucketOf(ZeroUe(), b) ensures BucketMeter(ZeroUe(), [], b, env.hz) {}
    forall key ensures InOrder(Empty().flows, [], key) { QueueOfNone(Empty().flows, key); }
    forall t ensures Balanced(Empty().flows, [], t) { NothingWaits(Empty().flows, t); }
  }

  ghost predicate Reaches(env: Env, u: Ue, ops: seq<Op>, v: Ue)
    decreases |ops|
  {
    if ops == [] then u == v
    else Good(env, u) && Reaches(env, Do(env, u, ops[0]), ops[1..], v)
  }

  /** Over every run of arrivals, drains, removals and reconfigurations, in any order and
      at any times, all invariants hold. */
  lemma {:induction false} RunGood(env: Env, u: Ue, ops: seq<Op>, v: Ue)
    requires Good(env, u) && Reaches(env, u, ops, v)
    ensures Good(env, v)
    decreases |ops|
  {
    if ops != [] {
      DoGood(env, u, ops[0]);
      RunGood(env, Do(env, u, ops[0]), ops[1..], v);
    }
  }

  /** Per flow key, the packets that leave are a subsequence of those that arrive: the fast
      path never overtakes a queued packet of the same flow. */
  lemma FlowsLeaveInOrder(env: Env, ops: seq<Op>, v: Ue, key: FlowKey)
    requires Steady(env) && Reaches(env, Fresh(), ops, v)
    ensures Subseq(Departures(v.trace, key), Arrivals(v.trace, key))
  {
    FreshGood(env);
    RunGood(env, Fresh(), ops, v);
    assert InOrder(v.q.flows, v.trace, key);
    SubseqPrefix(Departures(v.trace, key), QueueOf(v.q.flows, key), Arrivals(v.trace, key));
  }

  /** Bytes through any bucket obey its rate over every run. */
  lemma RatesHold(env: Env, ops: seq<Op>, v: Ue, b: BucketId)
    requires Steady(env) && Reaches(env, Fresh(), ops, v) && BucketOf(v.tb, b)
    ensures WithinRate(Get(v.tb, b), AccountOf(v.trace, b), Now(env, v), env.hz)
  {
    FreshGood(env);
    RunGood(env, Fresh(), ops, v);
    RateBound(v.tb, v.trace, b, Now(env, v), env.hz);
  }

  /** Every queued packet was sent, discarded or flushed exactly once, or waits exactly once. */
  lemma PacketsConserved(env: Env, ops: seq<Op>, v: Ue, t: Tagged)
    requires Steady(env) && Reaches(env, Fresh(), ops, v)
    ensures Entered(v.trace, t) == Released(v.trace, t) + Waiting(v.q.flows, t)
  {
    FreshGood(env);
    RunGood(env, Fresh(), ops, v);
    assert Balanced(v.q.flows, v.trace, t);
  }

  /** A slot is in use while up to 512 packets wait in it. Flows with a guaranteed bit rate
      wait on the first list, other QoS flows on the second and the rest on the third. */
  ghost predicate InPlace(q: Sched, i: nat)
    requires Shaped(q) && i < |q.flows|
  {
    var f := q.flows[i];
    && (f.inUse <==> 0 < |f.queue|) && |f.queue| <= 512
    && (i in q.lists[1] <==> f.inUse && f.hasGbr)
    && (i in q.lists[2] <==> f.inUse && !f.hasGbr && f.key.isQos)
    && (i in q.lists[3] <==> f.inUse && !f.hasGbr && !f.key.isQos)
  }

  lemma InvPlaces(q: Sched, i: nat)
    requires Inv(q) && i < |q.flows|
    ensures InPlace(q, i)
  {
    hide Bytes, Total;
    assert FlowOk(q.flows[i]);
    assert ListOk(q, 1) && ListOk(q, 2) && ListOk(q, 3);
  }

  /** The structure of the queues over every run: 64 slots with at most 2048 packets, each
      flow on the list of its kind, and counters that agree with all that. */
  lemma StructureHolds(env: Env, ops: seq<Op>, v: Ue)
    requires Steady(env) && Reaches(env, Fresh(), ops, v)
    ensures Inv(v.q) && |v.q.flows| == 64 && v.q.queued == Total(v.q.flows) <= 2048
    ensures forall i :: 0 <= i < 64 ==> InPlace(v.q, i)
  {
    FreshGood(env);
    RunGood(env, Fresh(), ops, v);
    forall i | 0 <= i < 64 ensures InPlace(v.q, i) { InvPlaces(v.q, i); }
  }
}
