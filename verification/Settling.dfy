/** Token buckets that are refilled several times at the same instant. The refill rounds, so
    a second refill may find more tokens; a third one never does. */
module Settling {
  import opened Sched
  import opened Arith
  import opened TokenBucket
  import opened Rates

  // ----- one bucket

  /** A bucket that can be refilled at `now`. */
  predicate Fillable(b: Bucket, now: nat, hz: nat) { hz > 0 && b.last <= now && WellFormed(b) }

  /** What one refill does, without its arithmetic. */
  lemma RefillCases(b: Bucket, now: nat, hz: nat)
    requires Fillable(b, now, hz)
    ensures
      var r := Refill(b, now, hz);
      && Fillable(r, now, hz) && r.rate == b.rate && b.tokens <= r.tokens
      && (r == b || r.last == now || (b.tokens < r.tokens && Credits(b, now, hz)))
  {
    RefillTracksFluid(b, now, hz);
  }

  /** The tokens a consume call at `now` would find. */
  function Worth(b: Bucket, now: nat, hz: nat): nat
    requires Fillable(b, now, hz)
  {
    Refill(b, now, hz).tokens
  }

  /** The tokens a second consume call at `now` would find if the first took nothing. */
  function Ceiling(b: Bucket, now: nat, hz: nat): nat
    requires Fillable(b, now, hz)
  {
    RefillCases(b, now, hz);
    Worth(Refill(b, now, hz), now, hz)
  }

  /** A second refill at the same instant would add nothing. */
  predicate Settles(b: Bucket, now: nat, hz: nat)
    requires Fillable(b, now, hz)
  {
    Ceiling(b, now, hz) == Worth(b, now, hz)
  }

  /** Not every bucket does: at 3 kbit/s and 1000 cycles a second, five idle cycles give one
      token at the first refill and another one at the second. */
  lemma SomeBucketsDoNotSettle()
    ensures var b := Bucket(3, 2048, 0, 0); Fillable(b, 5, 1000) && !Settles(b, 5, 1000)
  {
    var b := Bucket(3, 2048, 0, 0);
    assert Produced(b, 5, 1000) == 1 && CyclesUsed(1, 375, 1000) == 2;
    var r := Refill(b, 5, 1000);
    assert r == Bucket(3, 2048, 1, 2) && Produced(r, 5, 1000) == 1;
  }

  // ----- two refills are enough

  /** The cycles a crediting refill leaves uncharged after `e` of them went by. */
  function Left(e: nat, br: nat, hz: nat): int
    requires br > 0 && hz > 0
  {
    e - CyclesUsed(Quot(e * br, hz), br, hz)
  }

  /** What a first crediting refill leaves is worth less than two tokens, or a cycle. */
  lemma LeftAfterOne(e: nat, br: nat, hz: nat)
    requires br > 0 && hz > 0 && Quot(e * br, hz) > 0
    ensures 0 <= Left(e, br, hz)
    ensures br <= hz ==> Left(e, br, hz) * br < hz + br
    ensures br > hz ==> Left(e, br, hz) <= 1
  {
    var p := Quot(e * br, hz);
    DivBounds(e * br, hz);
    ChargeBounds(e, p, br, hz);
    var u := CyclesUsed(p, br, hz);
    Distribute(e - u, u, br);
    if br > hz {
      assert (e - u) * br < hz + br;
      if e - u >= 2 { MulMono(2, e - u, br); }
    }
  }

  /** A second crediting refill leaves less than a token. */
  lemma LeftAfterTwo(e: nat, br: nat, hz: nat)
    requires br > 0 && hz > 0 && Quot(e * br, hz) > 0
    requires br <= hz ==> e * br < hz + br
    requires br > hz ==> e <= 1
    ensures 0 <= Left(e, br, hz) && Quot(Left(e, br, hz) * br, hz) == 0
  {
    var p := Quot(e * br, hz);
    DivBounds(e * br, hz);
    ChargeBounds(e, p, br, hz);
    var u := CyclesUsed(p, br, hz);
    Distribute(e - u, u, br);
    MulMono(1, u, br);
    QuotIs((e - u) * br, hz, 0);
  }

  /** The tokens a refill would produce depend on the time alone. */
  lemma ProducedByTime(b: Bucket, tokens: nat, now: nat, hz: nat)
    requires hz > 0 && b.last <= now
    ensures Produced(b.(tokens := tokens), now, hz) == Produced(b, now, hz)
  {}

  /** A crediting refill produces what its cycles are worth, unclamped. */
  lemma CreditIs(b: Bucket, now: nat, hz: nat)
    requires Fillable(b, now, hz) && Credits(b, now, hz)
    ensures
      var br, e := ByteRate(b.rate), now - b.last;
      && br > 0 && Produced(b, now, hz) == Quot(e * br, hz) > 0
      && Refill(b, now, hz).last == now - Left(e, br, hz)
  {}

  /** No time has passed since the last refill: another one changes nothing. */
  lemma RefillAtOnce(b: Bucket, hz: nat)
    requires hz > 0 && WellFormed(b)
    ensures Refill(b, b.last, hz) == b
  {
    ZeroProduced(b, hz);
  }

  lemma ZeroProduced(b: Bucket, hz: nat)
    requires hz > 0
    ensures Produced(b, b.last, hz) == 0
  {
    assert (b.last - b.last) * ByteRate(b.rate) == 0;
    QuotZero(hz);
  }

  /** Nothing left to earn: a refill changes nothing but the time of a full bucket. */
  lemma NothingToEarn(b: Bucket, now: nat, hz: nat)
    requires Fillable(b, now, hz) && Produced(b, now, hz) == 0
    ensures Worth(b, now, hz) == b.tokens && Settles(b, now, hz)
  {
    RefillCases(b, now, hz);
    var r := Refill(b, now, hz);
    if r.last == now { RefillAtOnce(r, hz); }
  }

  /** After any refill at `now`, whatever is then spent, one more refill settles the bucket. */
  lemma RefilledSettles(b: Bucket, tokens: nat, now: nat, hz: nat)
    requires Fillable(b, now, hz) && tokens <= Refill(b, now, hz).tokens
    ensures var r := Refill(b, now, hz).(tokens := tokens); Fillable(r, now, hz) && Settles(r, now, hz)
  {
    hide Produced, Credits, Left, CyclesUsed, Depth;
    RefillCases(b, now, hz);
    var f := Refill(b, now, hz);
    var r := f.(tokens := tokens);
    RefillCases(r, now, hz);
    var s := Refill(r, now, hz);
    if f.last == now {
      RefillAtOnce(r, hz);
    } else if f == b {
      StillNothing(b, tokens, now, hz);
    } else if s.last == now {
      RefillAtOnce(s, hz);
    } else if s != r {
      var br := ByteRate(b.rate);
      CreditIs(b, now, hz);
      LeftAfterOne(now - b.last, br, hz);
      CreditIs(r, now, hz);
      LeftAfterTwo(now - r.last, br, hz);
      NothingLeft(s, now, hz);
      NothingToEarn(s, now, hz);
    }
  }

  lemma NothingLeft(s: Bucket, now: nat, hz: nat)
    requires hz > 0 && s.last <= now && Quot((now - s.last) * ByteRate(s.rate), hz) == 0
    ensures Produced(s, now, hz) == 0
  {}

  /** A refill that changed nothing before its clock was up found nothing to earn. */
  lemma StillNothing(b: Bucket, tokens: nat, now: nat, hz: nat)
    requires Fillable(b, now, hz) && Refill(b, now, hz) == b && b.last < now && tokens <= b.tokens
    ensures Settles(b.(tokens := tokens), now, hz)
  {
    assert Produced(b, now, hz) == 0;
    ProducedByTime(b, tokens, now, hz);
    NothingToEarn(b.(tokens := tokens), now, hz);
  }

  /** The ceiling does not change while nothing is spent. */
  lemma CeilingStays(b: Bucket, now: nat, hz: nat)
    requires Fillable(b, now, hz)
    ensures var r := Refill(b, now, hz); Fillable(r, now, hz) && Ceiling(r, now, hz) == Ceiling(b, now, hz)
    ensures Worth(b, now, hz) <= Ceiling(b, now, hz) <= b.depth
  {
    RefillCases(b, now, hz);
    RefillCases(Refill(b, now, hz), now, hz);
    RefilledSettles(b, Refill(b, now, hz).tokens, now, hz);
  }

  // ----- the buckets of a UE

  predicate Ready(tb: UeTb, now: nat, hz: nat) { hz > 0 && Timely(tb, now) && AllWellFormed(tb) }

  function CeilingOf(tb: UeTb, b: BucketId, now: nat, hz: nat): nat
    requires Ready(tb, now, hz) && BucketOf(tb, b)
  {
    Ceiling(Get(tb, b), now, hz)
  }

  predicate SettlesAt(tb: UeTb, b: BucketId, now: nat, hz: nat)
    requires Ready(tb, now, hz) && BucketOf(tb, b)
  {
    Settles(Get(tb, b), now, hz)
  }

  /** The consume call reaches the buckets: the UE is known and so is the QER. */
  predicate Meets(tb: UeTb, service: Service, qerId: nat) {
    && tb.ueIp != 0 && service != NoService
    && (service == SessionAmbr || FindQer(tb.qers, qerId, 0) >= 0)
  }

  function SlotFor(tb: UeTb, service: Service, qerId: nat): int {
    if service == SessionAmbr then -1 else FindQer(tb.qers, qerId, 0)
  }

  lemma RefillForGet(tb: UeTb, service: Service, k: int, now: nat, hz: nat, c: BucketId)
    requires Ready(tb, now, hz) && Usable(tb, service, k) && BucketOf(tb, c) && (service == SessionAmbr ==> k == -1)
    ensures BucketOf(RefillFor(tb, service, k, now, hz), c)
    ensures
      Get(RefillFor(tb, service, k, now, hz), c)
        == if Pays(service, k, c) then Refill(Get(tb, c), now, hz) else Get(tb, c)
  {
    match service
    case SessionAmbr => GetPut(tb, Ambr, Refill(tb.ambrTb, now, hz), c);
    case Excess => GetPut(tb, Mfbr(k), Refill(tb.qers[k].mfbrTb, now, hz), c);
    case Guaranteed =>
      GetPut(tb, Gfbr(k), Refill(tb.qers[k].gfbrTb, now, hz), c);
      var g := RefillAt(tb, Gfbr(k), now, hz);
      GetPut(g, Mfbr(k), Refill(g.qers[k].mfbrTb, now, hz), c);
  }

  /** A consume call refills the buckets that would pay, takes the length from all of them or
      from none, and leaves every other bucket alone. */
  lemma ConsumeGet(tb: UeTb, service: Service, qerId: nat, len: nat, now: nat, hz: nat, c: BucketId)
    requires Ready(tb, now, hz) && BucketOf(tb, c)
    ensures BucketOf(Consume(tb, service, qerId, len, now, hz).tb, c)
    ensures
      var p, k := Consume(tb, service, qerId, len, now, hz), SlotFor(tb, service, qerId);
      if Meets(tb, service, qerId) && Pays(service, k, c) then
        var f := Refill(Get(tb, c), now, hz);
        (p.ok ==> len <= f.tokens) && Get(p.tb, c) == if p.ok then f.(tokens := f.tokens - len) else f
      else Get(p.tb, c) == Get(tb, c)
  {
    hide Refill;
    var k := SlotFor(tb, service, qerId);
    if Meets(tb, service, qerId) {
      RefillForGet(tb, service, k, now, hz, c);
      var r := RefillFor(tb, service, k, now, hz);
      if Affordable(r, service, k, len) { ChargeGet(r, service, k, len, c); }
    }
  }

  /** A consume call pays iff it reaches its buckets and each of them, refilled, holds the
      length of the packet. */
  lemma ConsumePaysIff(tb: UeTb, service: Service, qerId: nat, len: nat, now: nat, hz: nat)
    requires Ready(tb, now, hz)
    ensures
      Consume(tb, service, qerId, len, now, hz).ok
        <==>
      && Meets(tb, service, qerId)
      && forall c :: BucketOf(tb, c) && Pays(service, SlotFor(tb, service, qerId), c) ==>
           len <= Worth(Get(tb, c), now, hz)
  {
    hide Refill;
    var k := SlotFor(tb, service, qerId);
    if Meets(tb, service, qerId) {
      var p := Consume(tb, service, qerId, len, now, hz);
      if p.ok {
        forall c | BucketOf(tb, c) && Pays(service, k, c) ensures len <= Worth(Get(tb, c), now, hz) {
          ConsumeGet(tb, service, qerId, len, now, hz, c);
        }
      } else {
        var c := if service == SessionAmbr then Ambr else Mfbr(k);
        assert Pays(service, k, c);
        RefillForGet(tb, service, k, now, hz, c);
        if service == Guaranteed { RefillForGet(tb, service, k, now, hz, Gfbr(k)); }
      }
    }
  }

  /** Only rounding happened: same rates, and every bucket has the ceiling it had. */
  ghost predicate SameCeilings(tb: UeTb, tc: UeTb, now: nat, hz: nat) {
    && Ready(tb, now, hz) && Ready(tc, now, hz) && SameRates(tb, tc)
    && (forall c :: BucketOf(tb, c) ==> EqualCeiling(tb, tc, c, now, hz))
  }

  predicate EqualCeiling(tb: UeTb, tc: UeTb, c: BucketId, now: nat, hz: nat)
    requires Ready(tb, now, hz) && Ready(tc, now, hz)
  {
    BucketOf(tb, c) && BucketOf(tc, c) && CeilingOf(tb, c, now, hz) == CeilingOf(tc, c, now, hz)
  }

  /** Every bucket is as it was or settles. */
  ghost predicate Calmed(tb: UeTb, tc: UeTb, now: nat, hz: nat) {
    && Ready(tb, now, hz) && Ready(tc, now, hz) && SameRates(tb, tc)
    && (forall c :: BucketOf(tb, c) ==> SameOrSettled(tb, tc, c, now, hz))
  }

  predicate SameOrSettled(tb: UeTb, tc: UeTb, c: BucketId, now: nat, hz: nat)
    requires Ready(tb, now, hz) && Ready(tc, now, hz)
  {
    BucketOf(tb, c) && BucketOf(tc, c) && (Get(tc, c) == Get(tb, c) || SettlesAt(tc, c, now, hz))
  }

  /** A consume call calms the buckets it touches; a refused one keeps their ceilings. */
  lemma ConsumeCalms(tb: UeTb, service: Service, qerId: nat, len: nat, now: nat, hz: nat)
    requires Ready(tb, now, hz)
    ensures var p := Consume(tb, service, qerId, len, now, hz); Calmed(tb, p.tb, now, hz)
    ensures var p := Consume(tb, service, qerId, len, now, hz); !p.ok ==> SameCeilings(tb, p.tb, now, hz)
  {
    hide Refill, Ceiling, Settles, Consume, SameRates;
    var p, k := Consume(tb, service, qerId, len, now, hz), SlotFor(tb, service, qerId);
    ConsumeKeeps(tb, service, qerId, len, now, hz);
    forall c | BucketOf(tb, c)
      ensures SameOrSettled(tb, p.tb, c, now, hz) && (!p.ok ==> EqualCeiling(tb, p.tb, c, now, hz))
    {
      ConsumeGet(tb, service, qerId, len, now, hz, c);
      var b := Get(tb, c);
      CeilingStays(b, now, hz);
      var left := Refill(b, now, hz).tokens;
      RefilledSettles(b, left - (if p.ok && len <= left then len else 0), now, hz);
    }
  }

  /** The bucket that must have enough tokens whichever of its services pays for a flow. */
  function WidestOf(tb: UeTb, policy: Policy): BucketId {
    if policy.hasGbr then
      var k := FindQer(tb.qers, policy.qerId, 0); Mfbr(if k < 0 then 0 else k)
    else Ambr
  }

  /** A refused call that reached the widest bucket found too little in it, and leaves it
      settled. */
  lemma RefusalMeans(tb: UeTb, policy: Policy, service: Service, len: nat, now: nat, hz: nat)
    requires Ready(tb, now, hz) && service == (if policy.hasGbr then Excess else SessionAmbr)
    requires Meets(tb, service, policy.qerId) && !Consume(tb, service, policy.qerId, len, now, hz).ok
    ensures BucketOf(tb, WidestOf(tb, policy)) && Worth(Get(tb, WidestOf(tb, policy)), now, hz) < len
  {
    hide Refill;
  }

  /** A guaranteed call that reached the QER leaves its MFBR bucket settled. */
  lemma GuaranteedCalms(tb: UeTb, qerId: nat, len: nat, now: nat, hz: nat)
    requires Ready(tb, now, hz) && Meets(tb, Guaranteed, qerId)
    ensures
      var p, k := Consume(tb, Guaranteed, qerId, len, now, hz), FindQer(tb.qers, qerId, 0);
      Ready(p.tb, now, hz) && BucketOf(p.tb, Mfbr(k)) && SettlesAt(p.tb, Mfbr(k), now, hz)
  {
    hide Refill, Ceiling, Settles, Consume;
    var k := FindQer(tb.qers, qerId, 0);
    var p := Consume(tb, Guaranteed, qerId, len, now, hz);
    ConsumeKeeps(tb, Guaranteed, qerId, len, now, hz);
    ConsumeGet(tb, Guaranteed, qerId, len, now, hz, Mfbr(k));
    var b := Get(tb, Mfbr(k));
    RefilledSettles(b, Refill(b, now, hz).tokens - (if p.ok then len else 0), now, hz);
  }

  /** No service pays more than the ceiling of the widest bucket. */
  lemma BeyondCeiling(tb: UeTb, policy: Policy, service: Service, len: nat, now: nat, hz: nat)
    requires Ready(tb, now, hz) && BucketOf(tb, WidestOf(tb, policy))
    requires len > CeilingOf(tb, WidestOf(tb, policy), now, hz)
    requires if policy.hasGbr then service == Guaranteed || service == Excess else service == SessionAmbr
    ensures !Consume(tb, service, policy.qerId, len, now, hz).ok
  {
    hide Refill;
    var c := WidestOf(tb, policy);
    CeilingStays(Get(tb, c), now, hz);
    ConsumeGet(tb, service, policy.qerId, len, now, hz, c);
  }

  lemma SameCeilingsTrans(a: UeTb, b: UeTb, c: UeTb, now: nat, hz: nat)
    requires SameCeilings(a, b, now, hz) && SameCeilings(b, c, now, hz)
    ensures SameCeilings(a, c, now, hz)
  {
    SameRatesTrans(a, b, c);
    forall d | BucketOf(a, d) ensures EqualCeiling(a, c, d, now, hz) {
      assert EqualCeiling(a, b, d, now, hz) && EqualCeiling(b, c, d, now, hz);
    }
  }

  lemma SameCeilingsSelf(tb: UeTb, now: nat, hz: nat)
    requires Ready(tb, now, hz)
    ensures SameCeilings(tb, tb, now, hz) && Calmed(tb, tb, now, hz)
  {}

  lemma CalmedTrans(a: UeTb, b: UeTb, c: UeTb, now: nat, hz: nat)
    requires Calmed(a, b, now, hz) && Calmed(b, c, now, hz)
    ensures Calmed(a, c, now, hz)
  {
    SameRatesTrans(a, b, c);
    forall d | BucketOf(a, d) ensures SameOrSettled(a, c, d, now, hz) {
      assert SameOrSettled(a, b, d, now, hz) && SameOrSettled(b, c, d, now, hz);
    }
  }
}
