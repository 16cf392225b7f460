/** The token state of one UE (struct ue_tb of 5gc/upf_u/upf_u_trtcm.h): a Session-AMBR
    bucket and a GFBR/MFBR pair per GBR QER, the tests and payments of a packet, and the
    trace of what happened from which every rate bound is read off. */
module Rates {
  import opened Sched
  import opened TokenBucket

  const MAX_QERS := 16

  datatype Qer = Qer(used: bool, id: nat, qfi: nat, gfbr: nat, mfbr: nat, gfbrTb: Bucket, mfbrTb: Bucket)

  datatype UeTb = UeTb(ueIp: nat, ambr: nat, conflict: bool, ambrTb: Bucket, qers: seq<Qer>)

  const ZERO_QER := Qer(false, 0, 0, 0, 0, ZERO_BUCKET, ZERO_BUCKET)

  function ZeroQers(): (qs: seq<Qer>)
    ensures |qs| == MAX_QERS && forall k :: 0 <= k < MAX_QERS ==> qs[k] == ZERO_QER
  {
    seq(MAX_QERS, _ => ZERO_QER)
  }

  function ZeroUe(): UeTb { UeTb(0, 0, false, ZERO_BUCKET, ZeroQers()) }

  datatype Service = SessionAmbr | Guaranteed | Excess | NoService

  datatype BucketId = Ambr | Gfbr(slot: nat) | Mfbr(slot: nat)

  /** One thing that happened to a UE's shaper, in order. An arriving packet passes at
      once, is queued or is refused; a queued one is later sent, discarded by a drain, or
      flushed. */
  datatype Event =
    | Passed(key: FlowKey, e: Entry, service: Service, slot: int, policy: Policy)
    | Queued(key: FlowKey, e: Entry)
    | Refused(key: FlowKey, e: Entry)
    | Sent(key: FlowKey, e: Entry, service: Service, slot: int, policy: Policy)
    | Discarded(key: FlowKey, e: Entry)
    | Flushed(key: FlowKey, e: Entry)
    | Credited(b: BucketId)
    | Inited(b: BucketId, at: nat)
    | Cleared

  predicate BucketOf(tb: UeTb, b: BucketId) {
    match b case Ambr => true case Gfbr(k) => k < |tb.qers| case Mfbr(k) => k < |tb.qers|
  }

  function Get(tb: UeTb, b: BucketId): Bucket
    requires BucketOf(tb, b)
  {
    match b case Ambr => tb.ambrTb case Gfbr(k) => tb.qers[k].gfbrTb case Mfbr(k) => tb.qers[k].mfbrTb
  }

  /** Replaces one bucket. */
  function Put(tb: UeTb, b: BucketId, v: Bucket): (r: UeTb)
    requires BucketOf(tb, b)
  {
    match b
    case Ambr => tb.(ambrTb := v)
    case Gfbr(k) => tb.(qers := tb.qers[k := tb.qers[k].(gfbrTb := v)])
    case Mfbr(k) => tb.(qers := tb.qers[k := tb.qers[k].(mfbrTb := v)])
  }

  /** A packet leaves: on arrival (`fast`) or out of its queue. */
  function Departure(key: FlowKey, e: Entry, service: Service, slot: int, policy: Policy, fast: bool): Event {
    if fast then Passed(key, e, service, slot, policy) else Sent(key, e, service, slot, policy)
  }

  // ----- tests and payments

  function FindQer(qers: seq<Qer>, id: nat, from: nat): (r: int)
    requires from <= |qers|
    ensures -1 <= r < |qers|
    ensures r >= 0 ==> qers[r].used && qers[r].id == id
    decreases |qers| - from
  {
    if from == |qers| then -1
    else if qers[from].used && qers[from].id == id then from
    else FindQer(qers, id, from + 1)
  }

  /** shaper_service_can_fit: could the service ever carry a packet of this length? */
  predicate Fits(tb: UeTb, service: Service, qerId: nat, len: nat) {
    && tb.ueIp != 0
    && var k := FindQer(tb.qers, qerId, 0);
       match service
       case SessionAmbr => CanFit(tb.ambrTb, len)
       case Guaranteed => k >= 0 && CanFit(tb.qers[k].gfbrTb, len) && CanFit(tb.qers[k].mfbrTb, len)
       case Excess => k >= 0 && CanFit(tb.qers[k].mfbrTb, len)
       case NoService => false
  }

  /** shaper_packet_can_fit: admission tests the widest bucket the policy may use. */
  predicate Admissible(tb: UeTb, hasGbr: bool, qerId: nat, len: nat) {
    Fits(tb, if hasGbr then Excess else SessionAmbr, qerId, len)
  }

  /** All buckets were last touched at or before `t`. */
  predicate Timely(tb: UeTb, t: nat) {
    && tb.ambrTb.last <= t
    && (forall k :: 0 <= k < |tb.qers| ==> tb.qers[k].gfbrTb.last <= t && tb.qers[k].mfbrTb.last <= t)
  }

  /** Outcome of a consume call: the new token state, whether it paid, the QER slot it
      used, and the uncapped refills it made. */
  datatype Payment = Payment(tb: UeTb, ok: bool, slot: int, credits: seq<Event>)

  function CreditOf(b: Bucket, id: BucketId, now: nat, hz: nat): seq<Event>
    requires hz > 0 && b.last <= now
  {
    if Credits(b, now, hz) then [Credited(id)] else []
  }

  /** Refills bucket b in place. */
  function RefillAt(tb: UeTb, b: BucketId, now: nat, hz: nat): UeTb
    requires hz > 0 && BucketOf(tb, b) && Get(tb, b).last <= now
  {
    Put(tb, b, Refill(Get(tb, b), now, hz))
  }

  /** The refills a service makes before it looks at the tokens: guaranteed service
      refills both buckets of its QER. */
  function RefillFor(tb: UeTb, service: Service, k: int, now: nat, hz: nat): UeTb
    requires hz > 0 && Timely(tb, now) && Usable(tb, service, k)
  {
    match service
    case SessionAmbr => RefillAt(tb, Ambr, now, hz)
    case Excess => RefillAt(tb, Mfbr(k), now, hz)
    case Guaranteed => RefillAt(RefillAt(tb, Gfbr(k), now, hz), Mfbr(k), now, hz)
  }

  function CreditsFor(tb: UeTb, service: Service, k: int, now: nat, hz: nat): seq<Event>
    requires hz > 0 && Timely(tb, now) && Usable(tb, service, k)
  {
    match service
    case SessionAmbr => CreditOf(tb.ambrTb, Ambr, now, hz)
    case Excess => CreditOf(tb.qers[k].mfbrTb, Mfbr(k), now, hz)
    case Guaranteed => CreditOf(tb.qers[k].gfbrTb, Gfbr(k), now, hz) + CreditOf(tb.qers[k].mfbrTb, Mfbr(k), now, hz)
  }

  predicate Usable(tb: UeTb, service: Service, k: int) {
    service != NoService && (service == SessionAmbr || 0 <= k < |tb.qers|)
  }

  /** All buckets that must pay hold enough tokens. */
  predicate Affordable(tb: UeTb, service: Service, k: int, len: nat)
    requires Usable(tb, service, k)
  {
    match service
    case SessionAmbr => tb.ambrTb.tokens >= len
    case Excess => tb.qers[k].mfbrTb.tokens >= len
    case Guaranteed => tb.qers[k].gfbrTb.tokens >= len && tb.qers[k].mfbrTb.tokens >= len
  }

  function Debit(tb: UeTb, b: BucketId, len: nat): UeTb
    requires BucketOf(tb, b) && Get(tb, b).tokens >= len
  {
    Put(tb, b, Get(tb, b).(tokens := Get(tb, b).tokens - len))
  }

  function Charge(tb: UeTb, service: Service, k: int, len: nat): UeTb
    requires Usable(tb, service, k) && Affordable(tb, service, k, len)
  {
    match service
    case SessionAmbr => Debit(tb, Ambr, len)
    case Excess => Debit(tb, Mfbr(k), len)
    case Guaranteed => Debit(Debit(tb, Gfbr(k), len), Mfbr(k), len)
  }

  /** consume_session_ambr, consume_gbr_guaranteed, consume_gbr_excess. */
  function Consume(tb: UeTb, service: Service, qerId: nat, len: nat, now: nat, hz: nat): (r: Payment)
    requires hz > 0 && Timely(tb, now)
  {
    var k := if service == SessionAmbr then -1 else FindQer(tb.qers, qerId, 0);
    if tb.ueIp == 0 || !Usable(tb, service, k) then Payment(tb, false, -1, [])
    else
      var tb1 := RefillFor(tb, service, k, now, hz);
      var cs := CreditsFor(tb, service, k, now, hz);
      if Affordable(tb1, service, k, len) then Payment(Charge(tb1, service, k, len), true, k, cs)
      else Payment(tb1, false, k, cs)
  }

  // ----- configuration

  datatype Configured = Configured(tb: UeTb, ok: bool, events: seq<Event>)

  /** refreshUeSessionAmbr: a changed rate restarts the bucket with a full burst. */
  function RefreshAmbr(tb: UeTb, rate: nat, conflict: bool, now: nat): Configured {
    if tb.ueIp == 0 then Configured(tb, false, [])
    else if tb.ambr != rate then
      Configured(tb.(ambr := rate, ambrTb := Init(rate, now), conflict := conflict), true, [Inited(Ambr, now)])
    else Configured(tb.(conflict := conflict), true, [])
  }

  function FreeQer(qers: seq<Qer>, from: nat): (r: int)
    requires from <= |qers|
    ensures -1 <= r < |qers|
    ensures r >= 0 ==> !qers[r].used
    decreases |qers| - from
  {
    if from == |qers| then -1 else if !qers[from].used then from else FreeQer(qers, from + 1)
  }

  /** refreshUeGbrQer: new or changed rates restart both buckets of the QER. */
  function RefreshQer(tb: UeTb, id: nat, qfi: nat, gfbr: nat, mfbr: nat, now: nat): Configured {
    if id == 0 || gfbr == 0 || mfbr == 0 || tb.ueIp == 0 then Configured(tb, false, [])
    else
      var k := FindQer(tb.qers, id, 0);
      var at := if k >= 0 then k else FreeQer(tb.qers, 0);
      if at < 0 then Configured(tb, false, [])
      else if k < 0 || tb.qers[k].gfbr != gfbr || tb.qers[k].mfbr != mfbr then
        Configured(tb.(qers := tb.qers[at := Qer(true, id, qfi, gfbr, mfbr, Init(gfbr, now), Init(mfbr, now))]),
                   true, [Inited(Gfbr(at), now), Inited(Mfbr(at), now)])
      else Configured(tb.(qers := tb.qers[k := tb.qers[k].(qfi := qfi)]), true, [])
  }

  /** The row addEntrybyUeIp writes for a new UE. */
  function NewUe(ueIp: nat, rate: nat, conflict: bool, now: nat): UeTb {
    UeTb(ueIp, rate, conflict, Init(rate, now), ZeroQers())
  }

  // ----- accounts read off the trace

  datatype Account = Account(spent: nat, credits: nat, since: nat)

  /** Does this departure take its bytes out of bucket b? Guaranteed service pays both the
      GFBR and the MFBR bucket of its QER, excess service only the MFBR bucket. */
  predicate Pays(service: Service, slot: int, b: BucketId) {
    match b
    case Ambr => service == SessionAmbr
    case Gfbr(k) => service == Guaranteed && slot == k
    case Mfbr(k) => (service == Guaranteed || service == Excess) && slot == k
  }

  function Post(a: Account, ev: Event, b: BucketId): Account {
    match ev
    case Passed(_, e, service, slot, _) => if Pays(service, slot, b) then a.(spent := a.spent + e.len) else a
    case Sent(_, e, service, slot, _) => if Pays(service, slot, b) then a.(spent := a.spent + e.len) else a
    case Credited(c) => if c == b then a.(credits := a.credits + 1) else a
    case Inited(c, at) => if c == b then Account(0, 0, at) else a
    case Cleared => Account(0, 0, 0)
    case _ => a
  }

  /** Bytes sent, uncapped refills and start time since the bucket was last initialised. */
  function AccountOf(tr: seq<Event>, b: BucketId): Account {
    if tr == [] then Account(0, 0, 0) else Post(AccountOf(tr[..|tr| - 1], b), tr[|tr| - 1], b)
  }

  /** Every bucket honours its account: the rate bound, for all buckets of the UE at once. */
  ghost predicate MeterInv(tb: UeTb, tr: seq<Event>, hz: nat) {
    && |tb.qers| == MAX_QERS
    && (forall b :: BucketOf(tb, b) ==> BucketMeter(tb, tr, b, hz))
  }

  ghost predicate BucketMeter(tb: UeTb, tr: seq<Event>, b: BucketId, hz: nat)
    requires BucketOf(tb, b)
  {
    var a := AccountOf(tr, b);
    Metered(Get(tb, b), a.spent, a.credits, a.since, hz)
  }

  lemma AccountAppend(tr: seq<Event>, ev: Event, b: BucketId)
    ensures AccountOf(tr + [ev], b) == Post(AccountOf(tr, b), ev, b)
  {
    assert (tr + [ev])[..|tr|] == tr;
  }

  /** Events that concern no bucket leave every account alone. */
  predicate Silent(ev: Event) {
    ev.Queued? || ev.Refused? || ev.Discarded? || ev.Flushed?
  }

  lemma SilentMeter(tb: UeTb, tr: seq<Event>, ev: Event, hz: nat)
    requires MeterInv(tb, tr, hz) && Silent(ev)
    ensures MeterInv(tb, tr + [ev], hz)
  {
    forall b | BucketOf(tb, b) ensures BucketMeter(tb, tr + [ev], b, hz) {
      AccountAppend(tr, ev, b);
      assert BucketMeter(tb, tr, b, hz);
    }
  }

  lemma {:induction false} SilentMeters(tb: UeTb, tr: seq<Event>, evs: seq<Event>, hz: nat)
    requires MeterInv(tb, tr, hz) && forall i :: 0 <= i < |evs| ==> Silent(evs[i])
    ensures MeterInv(tb, tr + evs, hz)
    decreases |evs|
  {
    if evs == [] {
      assert tr + evs == tr;
    } else {
      SilentMeter(tb, tr, evs[0], hz);
      SilentMeters(tb, tr + [evs[0]], evs[1..], hz);
      assert tr + evs == tr + [evs[0]] + evs[1..];
    }
  }

  lemma GetPut(tb: UeTb, b: BucketId, v: Bucket, c: BucketId)
    requires BucketOf(tb, b) && BucketOf(tb, c)
    ensures BucketOf(Put(tb, b, v), c)
    ensures Get(Put(tb, b, v), c) == if b == c then v else Get(tb, c)
  {}

  /** One refill: the bucket moves and its account gains the credit it made. */
  lemma RefillMeter(tb: UeTb, tr: seq<Event>, b: BucketId, now: nat, hz: nat)
    requires hz > 0 && MeterInv(tb, tr, hz) && BucketOf(tb, b) && Get(tb, b).last <= now
    ensures MeterInv(RefillAt(tb, b, now, hz), tr + CreditOf(Get(tb, b), b, now, hz), hz)
  {
    var v := Get(tb, b);
    var tb' := RefillAt(tb, b, now, hz);
    var tr' := tr + CreditOf(v, b, now, hz);
    assert BucketMeter(tb, tr, b, hz);
    var a := AccountOf(tr, b);
    RefillMetered(v, a.spent, a.credits, a.since, now, hz);
    forall c | BucketOf(tb', c) ensures BucketMeter(tb', tr', c, hz) {
      assert BucketMeter(tb, tr, c, hz);
      GetPut(tb, b, Refill(v, now, hz), c);
      if Credits(v, now, hz) { AccountAppend(tr, Credited(b), c); } else { assert tr' == tr; }
    }
  }

  lemma RefillForMeter(tb: UeTb, tr: seq<Event>, service: Service, k: int, now: nat, hz: nat)
    requires hz > 0 && MeterInv(tb, tr, hz) && Timely(tb, now) && Usable(tb, service, k)
    ensures MeterInv(RefillFor(tb, service, k, now, hz), tr + CreditsFor(tb, service, k, now, hz), hz)
  {
    match service
    case SessionAmbr => RefillMeter(tb, tr, Ambr, now, hz);
    case Excess => RefillMeter(tb, tr, Mfbr(k), now, hz);
    case Guaranteed =>
      RefillMeter(tb, tr, Gfbr(k), now, hz);
      var cs := CreditOf(tb.qers[k].gfbrTb, Gfbr(k), now, hz);
      RefillMeter(RefillAt(tb, Gfbr(k), now, hz), tr + cs, Mfbr(k), now, hz);
      assert tr + (cs + CreditOf(tb.qers[k].mfbrTb, Mfbr(k), now, hz))
          == tr + cs + CreditOf(tb.qers[k].mfbrTb, Mfbr(k), now, hz);
  }

  /** Charging takes the length out of exactly the buckets that pay. */
  lemma ChargeGet(tb: UeTb, service: Service, k: int, len: nat, c: BucketId)
    requires Usable(tb, service, k) && Affordable(tb, service, k, len) && BucketOf(tb, c)
    requires service == SessionAmbr ==> k == -1
    ensures BucketOf(Charge(tb, service, k, len), c) && |Charge(tb, service, k, len).qers| == |tb.qers|
    ensures var v := Get(tb, c);
      && (Pays(service, k, c) ==> v.tokens >= len)
      && Get(Charge(tb, service, k, len), c) == if Pays(service, k, c) then v.(tokens := v.tokens - len) else v
  {}

  lemma ChargeMeter(tb: UeTb, tr: seq<Event>, key: FlowKey, e: Entry, service: Service, k: int, policy: Policy,
                    fast: bool, hz: nat)
    requires MeterInv(tb, tr, hz) && Usable(tb, service, k) && Affordable(tb, service, k, e.len)
    requires service == SessionAmbr ==> k == -1
    ensures MeterInv(Charge(tb, service, k, e.len), tr + [Departure(key, e, service, k, policy, fast)], hz)
  {
    var tb' := Charge(tb, service, k, e.len);
    var ev := Departure(key, e, service, k, policy, fast);
    ChargeGet(tb, service, k, e.len, Ambr);
    forall c | BucketOf(tb', c) ensures BucketMeter(tb', tr + [ev], c, hz) {
      ChargeGet(tb, service, k, e.len, c);
      assert BucketMeter(tb, tr, c, hz);
      AccountAppend(tr, ev, c);
      var a := AccountOf(tr, c);
      if Pays(service, k, c) { SpendMetered(Get(tb, c), e.len, a.spent, a.credits, a.since, hz); }
    }
  }

  /** The events of a consume call, given the packet it was made for. */
  function PaymentEvents(p: Payment, key: FlowKey, e: Entry, service: Service, policy: Policy, fast: bool): seq<Event> {
    p.credits + if p.ok then [Departure(key, e, service, p.slot, policy, fast)] else []
  }

  /** Whatever the service, a consume call keeps every bucket within its account. */
  lemma ConsumeMeter(tb: UeTb, tr: seq<Event>, service: Service, qerId: nat, key: FlowKey, e: Entry, policy: Policy,
                     fast: bool, now: nat, hz: nat)
    requires hz > 0 && MeterInv(tb, tr, hz) && Timely(tb, now)
    ensures var p := Consume(tb, service, qerId, e.len, now, hz);
      MeterInv(p.tb, tr + PaymentEvents(p, key, e, service, policy, fast), hz)
  {
    var p := Consume(tb, service, qerId, e.len, now, hz);
    var k := if service == SessionAmbr then -1 else FindQer(tb.qers, qerId, 0);
    if tb.ueIp == 0 || !Usable(tb, service, k) {
      assert tr + PaymentEvents(p, key, e, service, policy, fast) == tr;
    } else {
      RefillForMeter(tb, tr, service, k, now, hz);
      if p.ok {
        ChargeMeter(RefillFor(tb, service, k, now, hz), tr + p.credits, key, e, service, k, policy, fast, hz);
        assert tr + PaymentEvents(p, key, e, service, policy, fast)
            == tr + p.credits + [Departure(key, e, service, k, policy, fast)];
      } else {
        assert tr + PaymentEvents(p, key, e, service, policy, fast) == tr + p.credits;
      }
    }
  }

  // ----- what payments leave alone

  predicate SameLimits(b: Bucket, c: Bucket) { b.rate == c.rate && b.depth == c.depth }

  /** Same UE, same QERs, same rates and depths: only tokens and times may differ. */
  predicate SameRates(tb: UeTb, tc: UeTb) {
    && tb.ueIp == tc.ueIp && tb.ambr == tc.ambr && SameLimits(tb.ambrTb, tc.ambrTb)
    && |tb.qers| == |tc.qers|
    && (forall k :: 0 <= k < |tb.qers| ==> SameQer(tb.qers[k], tc.qers[k]))
  }

  predicate SameQer(q: Qer, r: Qer) {
    && q.used == r.used && q.id == r.id && q.gfbr == r.gfbr && q.mfbr == r.mfbr
    && SameLimits(q.gfbrTb, r.gfbrTb) && SameLimits(q.mfbrTb, r.mfbrTb)
  }

  /** A refill moves tokens and time only. */
  lemma RefillLimits(b: Bucket, now: nat, hz: nat)
    requires hz > 0 && b.last <= now && WellFormed(b)
    ensures SameLimits(b, Refill(b, now, hz)) && Refill(b, now, hz).last <= now && WellFormed(Refill(b, now, hz))
  {
    RefillTracksFluid(b, now, hz);
  }

  predicate AllWellFormed(tb: UeTb) {
    && WellFormed(tb.ambrTb)
    && (forall k :: 0 <= k < |tb.qers| ==> WellFormed(tb.qers[k].gfbrTb) && WellFormed(tb.qers[k].mfbrTb))
  }

  lemma RefillKeeps(tb: UeTb, b: BucketId, now: nat, hz: nat)
    requires hz > 0 && Timely(tb, now) && AllWellFormed(tb) && BucketOf(tb, b)
    ensures var r := RefillAt(tb, b, now, hz);
      SameRates(tb, r) && Timely(r, now) && AllWellFormed(r)
  {
    RefillLimits(Get(tb, b), now, hz);
  }

  lemma RefillForKeeps(tb: UeTb, service: Service, k: int, now: nat, hz: nat)
    requires hz > 0 && Timely(tb, now) && AllWellFormed(tb) && Usable(tb, service, k)
    ensures var r := RefillFor(tb, service, k, now, hz);
      SameRates(tb, r) && Timely(r, now) && AllWellFormed(r)
  {
    match service
    case SessionAmbr => RefillKeeps(tb, Ambr, now, hz);
    case Excess => RefillKeeps(tb, Mfbr(k), now, hz);
    case Guaranteed =>
      RefillKeeps(tb, Gfbr(k), now, hz);
      RefillKeeps(RefillAt(tb, Gfbr(k), now, hz), Mfbr(k), now, hz);
  }

  lemma ChargeKeeps(tb: UeTb, service: Service, k: int, len: nat, now: nat)
    requires Timely(tb, now) && AllWellFormed(tb) && Usable(tb, service, k) && Affordable(tb, service, k, len)
    ensures var r := Charge(tb, service, k, len);
      SameRates(tb, r) && Timely(r, now) && AllWellFormed(r)
  {}

  lemma SameRatesSelf(tb: UeTb)
    ensures SameRates(tb, tb)
  {}

  lemma SameRatesTrans(a: UeTb, b: UeTb, c: UeTb)
    requires SameRates(a, b) && SameRates(b, c)
    ensures SameRates(a, c)
  {
    forall k | 0 <= k < |a.qers| ensures SameQer(a.qers[k], c.qers[k]) {
      assert SameQer(a.qers[k], b.qers[k]) && SameQer(b.qers[k], c.qers[k]);
    }
  }

  lemma ConsumeKeeps(tb: UeTb, service: Service, qerId: nat, len: nat, now: nat, hz: nat)
    requires hz > 0 && Timely(tb, now) && AllWellFormed(tb)
    ensures var p := Consume(tb, service, qerId, len, now, hz);
      SameRates(tb, p.tb) && Timely(p.tb, now) && AllWellFormed(p.tb)
  {
    var k := if service == SessionAmbr then -1 else FindQer(tb.qers, qerId, 0);
    if tb.ueIp != 0 && Usable(tb, service, k) {
      RefillForKeeps(tb, service, k, now, hz);
      var tb1 := RefillFor(tb, service, k, now, hz);
      if Affordable(tb1, service, k, len) {
        ChargeKeeps(tb1, service, k, len, now);
        SameRatesTrans(tb, tb1, Charge(tb1, service, k, len));
      }
    }
  }

  lemma {:induction false} FindQerSame(qs: seq<Qer>, rs: seq<Qer>, id: nat, from: nat)
    requires |qs| == |rs| && from <= |qs| && forall k :: 0 <= k < |qs| ==> SameQer(qs[k], rs[k])
    ensures FindQer(qs, id, from) == FindQer(rs, id, from)
    decreases |qs| - from
  {
    if from < |qs| {
      assert SameQer(qs[from], rs[from]);
      FindQerSame(qs, rs, id, from + 1);
    }
  }

  /** What fits depends on rates and depths only. */
  lemma FitsSame(tb: UeTb, tc: UeTb, service: Service, qerId: nat, len: nat)
    requires SameRates(tb, tc)
    ensures Fits(tb, service, qerId, len) == Fits(tc, service, qerId, len)
  {
    FindQerSame(tb.qers, tc.qers, qerId, 0);
  }

  lemma MeterWellFormed(tb: UeTb, tr: seq<Event>, hz: nat)
    requires MeterInv(tb, tr, hz)
    ensures AllWellFormed(tb)
  {
    assert BucketMeter(tb, tr, Ambr, hz);
    forall k | 0 <= k < |tb.qers| ensures WellFormed(tb.qers[k].gfbrTb) && WellFormed(tb.qers[k].mfbrTb) {
      assert BucketMeter(tb, tr, Gfbr(k), hz);
      assert BucketMeter(tb, tr, Mfbr(k), hz);
    }
  }

  /** Fitting the guaranteed bucket implies fitting the excess bucket. */
  lemma GuaranteedImpliesExcess(tb: UeTb, qerId: nat, len: nat)
    requires Fits(tb, Guaranteed, qerId, len)
    ensures Fits(tb, Excess, qerId, len)
  {}

  // ----- configuration keeps the accounts

  lemma InitMeter(tb: UeTb, tr: seq<Event>, b: BucketId, rate: nat, now: nat, hz: nat)
    requires MeterInv(tb, tr, hz) && BucketOf(tb, b)
    ensures MeterInv(Put(tb, b, Init(rate, now)), tr + [Inited(b, now)], hz)
  {
    var tb' := Put(tb, b, Init(rate, now));
    forall c | BucketOf(tb', c) ensures BucketMeter(tb', tr + [Inited(b, now)], c, hz) {
      GetPut(tb, b, Init(rate, now), c);
      AccountAppend(tr, Inited(b, now), c);
      if c == b { InitMetered(rate, now, hz); } else { assert BucketMeter(tb, tr, c, hz); }
    }
  }

  /** Two token states with the same buckets have the same accounts. */
  lemma SameBucketsMeter(tb: UeTb, tc: UeTb, tr: seq<Event>, hz: nat)
    requires MeterInv(tb, tr, hz) && |tc.qers| == |tb.qers|
    requires forall b :: BucketOf(tb, b) ==> Get(tc, b) == Get(tb, b)
    ensures MeterInv(tc, tr, hz)
  {
    forall b | BucketOf(tc, b) ensures BucketMeter(tc, tr, b, hz) {
      assert BucketMeter(tb, tr, b, hz);
    }
  }

  lemma RefreshAmbrMeter(tb: UeTb, tr: seq<Event>, rate: nat, conflict: bool, now: nat, hz: nat)
    requires MeterInv(tb, tr, hz)
    ensures var r := RefreshAmbr(tb, rate, conflict, now); MeterInv(r.tb, tr + r.events, hz)
  {
    var r := RefreshAmbr(tb, rate, conflict, now);
    var tc := if tb.ueIp == 0 then tb else tb.(ambr := rate, conflict := conflict);
    SameBucketsMeter(tb, tc, tr, hz);
    if r.events == [] {
      assert tr + r.events == tr;
    } else {
      InitMeter(tc, tr, Ambr, rate, now, hz);
      assert r.tb == Put(tc, Ambr, Init(rate, now));
    }
  }

  lemma RefreshQerMeter(tb: UeTb, tr: seq<Event>, id: nat, qfi: nat, gfbr: nat, mfbr: nat, now: nat, hz: nat)
    requires MeterInv(tb, tr, hz)
    ensures var r := RefreshQer(tb, id, qfi, gfbr, mfbr, now); MeterInv(r.tb, tr + r.events, hz)
  {
    var r := RefreshQer(tb, id, qfi, gfbr, mfbr, now);
    if r.events == [] {
      assert tr + r.events == tr;
      SameBucketsMeter(tb, r.tb, tr, hz);
    } else {
      var at := r.events[0].b.slot;
      InitMeter(tb, tr, Gfbr(at), gfbr, now, hz);
      var tb1, tr1 := Put(tb, Gfbr(at), Init(gfbr, now)), tr + [Inited(Gfbr(at), now)];
      InitMeter(tb1, tr1, Mfbr(at), mfbr, now, hz);
      assert tr + r.events == tr1 + [Inited(Mfbr(at), now)];
      SameBucketsMeter(Put(tb1, Mfbr(at), Init(mfbr, now)), r.tb, tr + r.events, hz);
    }
  }

  lemma ClearMeter(tr: seq<Event>, hz: nat)
    ensures MeterInv(ZeroUe(), tr + [Cleared], hz)
  {
    forall c | BucketOf(ZeroUe(), c) ensures BucketMeter(ZeroUe(), tr + [Cleared], c, hz) {
      AccountAppend(tr, Cleared, c);
    }
  }

  lemma NewUeMeter(tr: seq<Event>, ueIp: nat, rate: nat, conflict: bool, now: nat, hz: nat)
    ensures MeterInv(NewUe(ueIp, rate, conflict, now), tr + [Cleared, Inited(Ambr, now)], hz)
  {
    ClearMeter(tr, hz);
    InitMeter(ZeroUe(), tr + [Cleared], Ambr, rate, now, hz);
    assert tr + [Cleared, Inited(Ambr, now)] == tr + [Cleared] + [Inited(Ambr, now)];
    SameBucketsMeter(Put(ZeroUe(), Ambr, Init(rate, now)), NewUe(ueIp, rate, conflict, now),
                     tr + [Cleared, Inited(Ambr, now)], hz);
  }

  /** Bytes spent since `a.since` are at most the depth, plus the byte rate times the
      elapsed cycles and one cycle per uncapped refill. */
  ghost predicate WithinRate(b: Bucket, a: Account, now: nat, hz: nat) {
    && a.since <= now && b.depth == Depth(b.rate)
    && a.spent * hz <= b.depth * hz + (now - a.since + a.credits) * ByteRate(b.rate)
  }

  /** The bound on what left through a bucket since it was last initialised. For an Mfbr
      bucket these are all bytes of the QER, guaranteed and excess, whatever its GFBR; for
      a Gfbr bucket the guaranteed bytes; for Ambr all non-GBR bytes of the UE. */
  lemma RateBound(tb: UeTb, tr: seq<Event>, b: BucketId, now: nat, hz: nat)
    requires MeterInv(tb, tr, hz) && BucketOf(tb, b) && Timely(tb, now)
    ensures WithinRate(Get(tb, b), AccountOf(tr, b), now, hz)
  {
    assert BucketMeter(tb, tr, b, hz);
    var a := AccountOf(tr, b);
    MeteredBound(Get(tb, b), a.spent, a.credits, a.since, now, hz);
  }
}
