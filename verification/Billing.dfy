/** Who pays for a packet: the Session-AMBR bucket for every packet of a flow without
    guaranteed bit rate, the MFBR bucket of its QER for every packet of a flow with one, and
    the GFBR bucket too when it is served as guaranteed (5gc/upf_u/upf_u.c:546-578, 687-868).
    So the bounds on buckets are bounds on all bytes of a QER and on all other bytes. */
module Billing {
  import opened Common
  import opened Sched
  import opened TokenBucket
  import opened Rates
  import opened History
  import opened Shaper
  import opened Turns
  import opened Admission

  // ----- bytes by policy

  predicate IsDeparture(ev: Event) { ev.Passed? || ev.Sent? }

  /** The departed packet belongs to what a bucket limits: all traffic of QER `id`, the
      guaranteed part of it, or all traffic without guaranteed bit rate. */
  predicate Limited(ev: Event, b: BucketId, id: nat)
    requires IsDeparture(ev)
  {
    match b
    case Ambr => !ev.policy.hasGbr
    case Mfbr(_) => ev.policy == Policy(true, id)
    case Gfbr(_) => ev.policy == Policy(true, id) && ev.service == Guaranteed
  }

  function AddBytes(n: nat, ev: Event, b: BucketId, id: nat): nat {
    if IsDeparture(ev) then (if Limited(ev, b, id) then n + ev.e.len else n)
    else if ev.Cleared? || (ev.Inited? && ev.b == b) then 0
    else n
  }

  /** Bytes of such packets since the bucket was last started. */
  function BytesFor(tr: seq<Event>, b: BucketId, id: nat): nat {
    if tr == [] then 0 else AddBytes(BytesFor(tr[..|tr| - 1], b, id), tr[|tr| - 1], b, id)
  }

  lemma BytesAppend(tr: seq<Event>, ev: Event, b: BucketId, id: nat)
    ensures BytesFor(tr + [ev], b, id) == AddBytes(BytesFor(tr, b, id), ev, b, id)
  {
    assert (tr + [ev])[..|tr|] == tr;
  }

  // ----- bytes and accounts

  /** The Session-AMBR bucket and those of QERs in use. */
  predicate InPlay(tb: UeTb, b: BucketId) { BucketOf(tb, b) && (b.Ambr? || tb.qers[b.slot].used) }

  function IdOf(tb: UeTb, b: BucketId): nat
    requires InPlay(tb, b)
  {
    if b.Ambr? then 0 else tb.qers[b.slot].id
  }

  /** A bucket's account has been charged for exactly the packets that it limits. */
  ghost predicate Charged(tb: UeTb, tr: seq<Event>, b: BucketId)
    requires InPlay(tb, b)
  {
    BytesFor(tr, b, IdOf(tb, b)) == AccountOf(tr, b).spent
  }

  ghost predicate Billed(tb: UeTb, tr: seq<Event>) { forall b :: InPlay(tb, b) ==> Charged(tb, tr, b) }

  /** An event that moves bytes and account of a bucket alike. */
  predicate Fair(tb: UeTb, ev: Event, b: BucketId)
    requires InPlay(tb, b)
  {
    IsDeparture(ev) ==> (Limited(ev, b, IdOf(tb, b)) <==> Pays(ev.service, ev.slot, b))
  }

  lemma FairCharged(tb: UeTb, tr: seq<Event>, ev: Event, b: BucketId)
    requires InPlay(tb, b) && Charged(tb, tr, b) && Fair(tb, ev, b)
    ensures Charged(tb, tr + [ev], b)
  {
    BytesAppend(tr, ev, b, IdOf(tb, b));
    AccountAppend(tr, ev, b);
  }

  lemma {:induction false} FairBilled(tb: UeTb, tr: seq<Event>, evs: seq<Event>)
    requires Billed(tb, tr) && forall b, c :: InPlay(tb, b) && 0 <= c < |evs| ==> Fair(tb, evs[c], b)
    ensures Billed(tb, tr + evs)
    decreases |evs|
  {
    hide Charged, Fair;
    if evs == [] {
      assert tr + evs == tr;
    } else {
      var tr1 := tr + [evs[0]];
      forall b | InPlay(tb, b) ensures Charged(tb, tr1, b) {
        assert Charged(tb, tr, b) && Fair(tb, evs[0], b);
        FairCharged(tb, tr, evs[0], b);
      }
      forall b, c | InPlay(tb, b) && 0 <= c < |evs[1..]| ensures Fair(tb, evs[1..][c], b) {
        assert Fair(tb, evs[c + 1], b);
      }
      FairBilled(tb, tr1, evs[1..]);
      assert tr + evs == tr1 + evs[1..];
    }
  }

  /** Events about tokens or about packets that stay are always fair. */
  lemma QuietBilled(tb: UeTb, tr: seq<Event>, evs: seq<Event>)
    requires Billed(tb, tr) && forall c :: 0 <= c < |evs| ==> !IsDeparture(evs[c])
    ensures Billed(tb, tr + evs)
  {
    FairBilled(tb, tr, evs);
  }

  lemma SameRatesBilled(tb: UeTb, tc: UeTb, tr: seq<Event>)
    requires Billed(tb, tr) && SameRates(tb, tc)
    ensures Billed(tc, tr)
  {
    forall b | InPlay(tc, b) ensures Charged(tc, tr, b) {
      if !b.Ambr? { assert SameQer(tb.qers[b.slot], tc.qers[b.slot]); }
      assert Charged(tb, tr, b);
    }
  }

  // ----- payments

  /** The services that a policy allows. */
  predicate Allowed(policy: Policy, service: Service) {
    if policy.hasGbr then service == Guaranteed || service == Excess else service == SessionAmbr
  }

  /** A payment by an allowed service is charged to the buckets that limit the packet. */
  lemma PaymentFair(tb: UeTb, policy: Policy, service: Service, key: FlowKey, e: Entry, fast: bool, b: BucketId)
    requires AtConfiguredRates(tb) && Allowed(policy, service) && InPlay(tb, b)
    requires service != SessionAmbr ==> FindQer(tb.qers, policy.qerId, 0) >= 0
    ensures
      var k := if service == SessionAmbr then -1 else FindQer(tb.qers, policy.qerId, 0);
      Fair(tb, Departure(key, e, service, k, policy, fast), b)
  {
    if !b.Ambr? && policy.hasGbr && tb.qers[b.slot].id == policy.qerId {
      FindQerUnique(tb.qers, policy.qerId, 0, b.slot);
    }
  }

  lemma PaymentBilled(tb: UeTb, tr: seq<Event>, policy: Policy, service: Service, key: FlowKey, e: Entry, fast: bool,
                      now: nat, hz: nat)
    requires hz > 0 && Timely(tb, now) && AllWellFormed(tb)
    requires AtConfiguredRates(tb) && Allowed(policy, service) && Billed(tb, tr)
    requires
      var p := Consume(tb, service, policy.qerId, e.len, now, hz);
      forall c :: 0 <= c < |p.credits| ==> AboutTokens(p.credits[c])
    ensures
      var p := Consume(tb, service, policy.qerId, e.len, now, hz);
      Billed(p.tb, tr + PaymentEvents(p, key, e, service, policy, fast))
  {
    hide AtConfiguredRates, Billed, Fair, SameRates, RefillFor, CreditsFor, Charge;
    var p := Consume(tb, service, policy.qerId, e.len, now, hz);
    var evs := PaymentEvents(p, key, e, service, policy, fast);
    forall b, c | InPlay(tb, b) && 0 <= c < |evs| ensures Fair(tb, evs[c], b) {
      if c < |p.credits| { TokensFair(tb, evs[c], b); } else { PaymentFair(tb, policy, service, key, e, fast, b); }
    }
    FairBilled(tb, tr, evs);
    ConsumeKeeps(tb, service, policy.qerId, e.len, now, hz);
    SameRatesBilled(tb, p.tb, tr + evs);
  }

  lemma TokensFair(tb: UeTb, ev: Event, b: BucketId)
    requires AboutTokens(ev) && InPlay(tb, b)
    ensures Fair(tb, ev, b)
  {}

  // ----- the operations of the shaper

  ghost predicate Fine(env: Env, u: Ue) { Good(env, u) && AtConfiguredRates(u.tb) && Billed(u.tb, u.trace) }

  lemma PayBilled(env: Env, u: Ue, policy: Policy, service: Service, key: FlowKey, e: Entry, fast: bool)
    requires Fine(env, u) && Allowed(policy, service)
    ensures
      var p := Consume(u.tb, service, policy.qerId, e.len, Now(env, u), env.hz);
      Billed(p.tb, u.trace + PaymentEvents(p, key, e, service, policy, fast)) && AtConfiguredRates(p.tb)
  {
    hide AtConfiguredRates, Billed, Tracked, Inv, Consume, SameRates;
    MeterWellFormed(u.tb, u.trace, env.hz);
    PayGood(env, u, service, policy.qerId, key, e, policy, fast);
    PaymentBilled(u.tb, u.trace, policy, service, key, e, fast, Now(env, u), env.hz);
    SameRatesConfigured(u.tb, Consume(u.tb, service, policy.qerId, e.len, Now(env, u), env.hz).tb);
  }

  lemma TryBilled(env: Env, u: Ue, l: nat, service: Service, alternate: Service)
    requires Fine(env, u) && GBR <= l < LISTS && u.q.lists[l] != [] && Paired(l, service, alternate)
    ensures Fine(env, Try(env, u, l, service, alternate).u)
  {
    hide AtConfiguredRates, Billed, Tracked, MeterInv, Consume, Fits, Pop, Activate, Deactivate, ListsOk;
    TryGood(env, u, l, service, alternate);
    HeadFlow(u.q, l);
    var f := u.q.flows[u.q.lists[l][0]];
    var e := f.queue[0];
    QuietBilled(u.tb, u.trace, [Discarded(f.key, e)]);
    PayBilled(env, u, PolicyOf(f), service, f.key, e, false);
  }

  lemma {:induction false} ActsBilled(env: Env, u: Ue, acts: seq<Act>, v: Ue)
    requires Fine(env, u) && Acts(env, u, acts, v)
    ensures Fine(env, v)
    decreases |acts|
  {
    hide Good, Try, AtConfiguredRates, Billed;
    if acts != [] {
      var a := acts[0];
      if a.TurnOf? { TryBilled(env, u, a.l, a.service, a.alternate); }
      ActsBilled(env, Perform(env, u, a), acts[1..], v);
    }
  }

  lemma DrainBilled(env: Env, u: Ue, budget: nat)
    requires Fine(env, u)
    ensures Fine(env, DrainUe(env, u, budget).u)
  {
    hide AtConfiguredRates, Billed;
    var acts := DrainLoopActs(env, u, budget, 0);
    ActsBilled(env, u, acts, DrainUe(env, u, budget).u);
  }

  lemma PayNowFine(env: Env, u: Ue, a: Arrival, service: Service)
    requires Fine(env, u) && Allowed(AskedBy(a), service) && QueueOf(u.q.flows, a.key) == []
    ensures Fine(env, PayNow(env, u, a, service).u)
  {
    hide AtConfiguredRates, Billed, Tracked, MeterInv, Consume, Inv;
    PayNowGood(env, u, a, service);
    PayBilled(env, u, AskedBy(a), service, a.key, EntryOf(a), true);
  }

  lemma FastPathFine(env: Env, u: Ue, a: Arrival)
    requires Fine(env, u) && QueueOf(u.q.flows, a.key) == []
    ensures Fine(env, FastPath(env, u, a).u)
  {
    hide AtConfiguredRates, Billed, Good, PayNow;
    if !a.hasGbr {
      PayNowFine(env, u, a, SessionAmbr);
    } else {
      PayNowFine(env, u, a, Guaranteed);
      SameQueues(env, u, a, Guaranteed);
      PayNowFine(env, PayNow(env, u, a, Guaranteed).u, a, Excess);
    }
  }

  lemma SameQueues(env: Env, u: Ue, a: Arrival, service: Service)
    requires Good(env, u)
    ensures PayNow(env, u, a, service).u.q == u.q
  {}

  lemma FirstBilled(env: Env, u: Ue, a: Arrival, entryFree: bool)
    requires Fine(env, u) && QueueOf(u.q.flows, a.key) == []
    ensures var v := First(env, u, a, entryFree).u; AtConfiguredRates(v.tb) && Billed(v.tb, v.trace)
  {
    hide AtConfiguredRates, Billed, Tracked, MeterInv, ListsOk, FlowsOk, FastPath;
    FastPathFine(env, u, a);
    var p := FastPath(env, u, a).u;
    QuietBilled(p.tb, p.trace, [Refused(a.key, EntryOf(a))]);
    QuietBilled(p.tb, p.trace, [Queued(a.key, EntryOf(a))]);
  }

  lemma ArriveBilled(env: Env, u: Ue, a: Arrival, entryFree: bool)
    requires Fine(env, u)
    ensures Fine(env, Arrive(env, u, a, entryFree).u)
  {
    hide AtConfiguredRates, Billed, Tracked, MeterInv, ListsOk, FlowsOk, First;
    ArriveGood(env, u, a, entryFree);
    QuietBilled(u.tb, u.trace, [Refused(a.key, EntryOf(a))]);
    QuietBilled(u.tb, u.trace, [Queued(a.key, EntryOf(a))]);
    if Lookup(u.q.flows, a.key, env.home(a.key), 0) < 0 {
      NoFlow(u.q.flows, a.key, env.home(a.key));
      FirstBilled(env, u, a, entryFree);
    }
  }

  // ----- configuration

  /** The event starts a new account of bucket b. */
  predicate Restarts(ev: Event, b: BucketId) { ev.Cleared? || (ev.Inited? && ev.b == b) }

  ghost predicate RestartedBy(evs: seq<Event>, b: BucketId) {
    exists c :: 0 <= c < |evs| && Restarts(evs[c], b)
  }

  lemma {:induction false} QuietEven(tr: seq<Event>, evs: seq<Event>, b: BucketId, id: nat)
    requires forall c :: 0 <= c < |evs| ==> !IsDeparture(evs[c])
    requires BytesFor(tr, b, id) == AccountOf(tr, b).spent || RestartedBy(evs, b)
    ensures BytesFor(tr + evs, b, id) == AccountOf(tr + evs, b).spent
    decreases |evs|
  {
    if evs == [] {
      assert tr + evs == tr;
    } else {
      var n := |evs| - 1;
      var rest := evs[..n];
      assert tr + evs == tr + rest + [evs[n]];
      BytesAppend(tr + rest, evs[n], b, id);
      AccountAppend(tr + rest, evs[n], b);
      if !Restarts(evs[n], b) {
        if RestartedBy(evs, b) {
          var c :| 0 <= c < |evs| && Restarts(evs[c], b);
          assert Restarts(rest[c], b);
        }
        QuietEven(tr, rest, b, id);
      }
    }
  }

  /** A bucket in play afterwards was in play for the same QER before, or is started anew. */
  ghost predicate Carries(tb: UeTb, tc: UeTb, evs: seq<Event>, b: BucketId)
    requires InPlay(tc, b)
  {
    (InPlay(tb, b) && IdOf(tb, b) == IdOf(tc, b)) || RestartedBy(evs, b)
  }

  lemma ConfiguredBilled(tb: UeTb, tc: UeTb, tr: seq<Event>, evs: seq<Event>)
    requires Billed(tb, tr) && forall c :: 0 <= c < |evs| ==> !IsDeparture(evs[c])
    requires forall b :: InPlay(tc, b) ==> Carries(tb, tc, evs, b)
    ensures Billed(tc, tr + evs)
  {
    forall b | InPlay(tc, b) ensures Charged(tc, tr + evs, b) {
      assert Carries(tb, tc, evs, b);
      assert InPlay(tb, b) ==> Charged(tb, tr, b);
      QuietEven(tr, evs, b, IdOf(tc, b));
    }
  }

  lemma AmbrCarries(tb: UeTb, rate: nat, conflict: bool, now: nat, b: BucketId)
    requires InPlay(RefreshAmbr(tb, rate, conflict, now).tb, b)
    ensures var c := RefreshAmbr(tb, rate, conflict, now); Carries(tb, c.tb, c.events, b)
  {}

  lemma QerCarries(tb: UeTb, id: nat, qfi: nat, gfbr: nat, mfbr: nat, now: nat, b: BucketId)
    requires InPlay(RefreshQer(tb, id, qfi, gfbr, mfbr, now).tb, b)
    ensures var c := RefreshQer(tb, id, qfi, gfbr, mfbr, now); Carries(tb, c.tb, c.events, b)
  {
    var c := RefreshQer(tb, id, qfi, gfbr, mfbr, now);
    if c.events != [] && !b.Ambr? && c.tb.qers[b.slot] != tb.qers[b.slot] {
      assert Restarts(c.events[0], b) || Restarts(c.events[1], b);
    }
  }

  lemma RemoveBilled(u: Ue)
    requires Billed(u.tb, u.trace)
    ensures Billed(ZeroUe(), Flush(u).trace + [Cleared])
  {
    hide Billed;
    FlushSilent(u.q.flows);
    QuietBilled(u.tb, u.trace, FlushEvents(u.q.flows));
    assert Restarts([Cleared][0], Ambr);
    ConfiguredBilled(u.tb, ZeroUe(), Flush(u).trace, [Cleared]);
  }

  lemma DoBilled(env: Env, u: Ue, op: Op)
    requires Fine(env, u)
    ensures Fine(env, Do(env, u, op))
  {
    hide Good, AtConfiguredRates, Billed, Arrive, DrainUe, RefreshAmbr, RefreshQer, Carries, Flush;
    DoGood(env, u, op);
    DoConfigured(env, u, op);
    var now := Now(env, u);
    match op
    case OnPacket(a, entryFree) => ArriveBilled(env, u, a, entryFree);
    case OnDrain(budget) => DrainBilled(env, u, budget);
    case OnRemove => RemoveBilled(u);
    case OnAdd(ueIp, rate, conflict) => AddBilled(u, ueIp, rate, conflict, now);
    case OnAmbr(rate, conflict) => AmbrBilled(u, rate, conflict, now);
    case OnQer(id, qfi, gfbr, mfbr) => QerBilled(u, id, qfi, gfbr, mfbr, now);
  }

  lemma AddBilled(u: Ue, ueIp: nat, rate: nat, conflict: bool, now: nat)
    requires Billed(u.tb, u.trace)
    ensures Billed(NewUe(ueIp, rate, conflict, now), u.trace + [Cleared, Inited(Ambr, now)])
  {
    var evs := [Cleared, Inited(Ambr, now)];
    assert Restarts(evs[1], Ambr);
    ConfiguredBilled(u.tb, NewUe(ueIp, rate, conflict, now), u.trace, evs);
  }

  lemma AmbrBilled(u: Ue, rate: nat, conflict: bool, now: nat)
    requires Billed(u.tb, u.trace)
    ensures var c := RefreshAmbr(u.tb, rate, conflict, now); Billed(c.tb, u.trace + c.events)
  {
    hide Billed, Carries, InPlay;
    var c := RefreshAmbr(u.tb, rate, conflict, now);
    forall b | InPlay(c.tb, b) ensures Carries(u.tb, c.tb, c.events, b) { AmbrCarries(u.tb, rate, conflict, now, b); }
    ConfiguredBilled(u.tb, c.tb, u.trace, c.events);
  }

  lemma QerBilled(u: Ue, id: nat, qfi: nat, gfbr: nat, mfbr: nat, now: nat)
    requires Billed(u.tb, u.trace)
    ensures var c := RefreshQer(u.tb, id, qfi, gfbr, mfbr, now); Billed(c.tb, u.trace + c.events)
  {
    hide Billed, Carries, InPlay;
    var c := RefreshQer(u.tb, id, qfi, gfbr, mfbr, now);
    forall b | InPlay(c.tb, b) ensures Carries(u.tb, c.tb, c.events, b) {
      QerCarries(u.tb, id, qfi, gfbr, mfbr, now, b);
    }
    ConfiguredBilled(u.tb, c.tb, u.trace, c.events);
  }

  lemma {:induction false} RunBilled(env: Env, u: Ue, ops: seq<Op>, v: Ue)
    requires Fine(env, u) && Reaches(env, u, ops, v)
    ensures Fine(env, v)
    decreases |ops|
  {
    hide Fine, Do;
    if ops != [] {
      DoBilled(env, u, ops[0]);
      RunBilled(env, Do(env, u, ops[0]), ops[1..], v);
    }
  }

  lemma FreshFine(env: Env)
    requires Steady(env)
    ensures Fine(env, Fresh())
  {
    hide Good;
    FreshGood(env);
    FreshConfigured();
  }

  /** Over every run, what a bucket was charged since it was started is exactly the bytes of
      the packets it is there to limit: those of flows without guaranteed bit rate for the
      Session-AMBR bucket, those of flows of its QER for an MFBR bucket, those of them served
      as guaranteed for a GFBR bucket. */
  lemma ChargedAsLimited(env: Env, ops: seq<Op>, v: Ue, b: BucketId)
    requires Steady(env) && Reaches(env, Fresh(), ops, v) && InPlay(v.tb, b)
    ensures BytesFor(v.trace, b, IdOf(v.tb, b)) == AccountOf(v.trace, b).spent
  {
    hide Good, AtConfiguredRates, Reaches;
    FreshFine(env);
    RunBilled(env, Fresh(), ops, v);
    assert Charged(v.tb, v.trace, b);
  }

  /** The rate that was configured for a bucket. */
  function ConfiguredRate(tb: UeTb, b: BucketId): nat
    requires InPlay(tb, b)
  {
    match b case Ambr => tb.ambr case Gfbr(k) => tb.qers[k].gfbr case Mfbr(k) => tb.qers[k].mfbr
  }

  /** So all packets of a QER together keep to its MFBR, those served as guaranteed to its
      GFBR, and all packets of other flows together to the Session-AMBR. */
  lemma TrafficWithinRates(env: Env, ops: seq<Op>, v: Ue, b: BucketId)
    requires Steady(env) && Reaches(env, Fresh(), ops, v) && InPlay(v.tb, b)
    ensures
      var a := AccountOf(v.trace, b);
      var rate := ConfiguredRate(v.tb, b);
      && Get(v.tb, b).rate == rate
      && WithinRate(Get(v.tb, b), Account(BytesFor(v.trace, b, IdOf(v.tb, b)), a.credits, a.since), Now(env, v), env.hz)
  {
    hide Good, AtConfiguredRates, Reaches, Charged, WithinRate;
    FreshFine(env);
    RunBilled(env, Fresh(), ops, v);
    ChargedAsLimited(env, ops, v, b);
    RatesHold(env, ops, v, b);
    RateOf(v.tb, b);
  }

  lemma RateOf(tb: UeTb, b: BucketId)
    requires AtConfiguredRates(tb) && InPlay(tb, b)
    ensures Get(tb, b).rate == ConfiguredRate(tb, b)
  {
    if !b.Ambr? { assert QerAtRates(tb.qers[b.slot]); }
  }
}
