/** The token state of one UE as the source keeps it: a row of the table, whose buckets are
    refilled, charged and restarted in place (5gc/upf_u/upf_u_trtcm.c:284-354, 482-609, 689-837).
    A pointer to a bucket of the row is a `BucketId`. */
module BucketState {
  import opened Arith
  import opened TokenBucket
  import opened Rates

  lemma PutGet(tb: UeTb, b: BucketId)
    requires BucketOf(tb, b)
    ensures Put(tb, b, Get(tb, b)) == tb
  {}

  lemma TimelyGet(tb: UeTb, b: BucketId, now: nat)
    requires BucketOf(tb, b) && Timely(tb, now)
    ensures Get(tb, b).last <= now
  {}

  class UeRow {
    var tb: UeTb

    constructor ()
      ensures tb == ZeroUe()
    {
      tb := ZeroUe();
    }

    // ----- one bucket

    /** initBucket. */
    method Restart(b: BucketId, rate: nat, now: nat)
      requires BucketOf(tb, b)
      modifies this
      ensures tb == Put(old(tb), b, Init(rate, now))
    {
      tb := Put(tb, b, Bucket(rate, Depth(rate), Depth(rate), now));
    }

    /** shaper_update_bucket_tokens. */
    method Update(b: BucketId, now: nat, hz: nat)
      requires hz > 0 && BucketOf(tb, b) && Get(tb, b).last <= now
      modifies this
      ensures tb == RefillAt(old(tb), b, now, hz)
    {
      hide Quot;
      PutGet(tb, b);
      var v := Get(tb, b);
      if v.rate == 0 || v.depth == 0 {
        tb := Put(tb, b, v.(tokens := 0, last := now));
        return;
      }
      if v.tokens >= v.depth {
        tb := Put(tb, b, v.(tokens := v.depth, last := now));
        return;
      }
      var elapsed := now - v.last;
      var byteRate := v.rate * 125;
      var produced := Quot(elapsed * byteRate, hz);
      if produced > U64_MAX { produced := U64_MAX; }
      if produced == 0 { return; }
      if produced >= v.depth - v.tokens {
        tb := Put(tb, b, v.(tokens := v.depth, last := now));
        return;
      }
      var used := Quot(produced * hz, byteRate);
      if used == 0 { used := 1; }
      tb := Put(tb, b, v.(tokens := v.tokens + produced, last := v.last + used));
    }

    // ----- payments

    /** findGbrQerLocked. */
    method FindSlot(id: nat) returns (r: int)
      ensures r == FindQer(tb.qers, id, 0)
    {
      var k := 0;
      while k < |tb.qers|
        invariant 0 <= k <= |tb.qers| && FindQer(tb.qers, id, 0) == FindQer(tb.qers, id, k)
      {
        if tb.qers[k].used && tb.qers[k].id == id { return k; }
        k := k + 1;
      }
      r := -1;
    }

    /** shaper_service_can_fit. */
    method CanCarry(service: Service, qerId: nat, len: nat) returns (fits: bool)
      ensures fits == Fits(tb, service, qerId, len)
    {
      if tb.ueIp == 0 || service == NoService { return false; }
      if service == SessionAmbr { return CanFit(tb.ambrTb, len); }
      var k := FindSlot(qerId);
      if k < 0 { return false; }
      fits := CanFit(tb.qers[k].mfbrTb, len) && (service == Excess || CanFit(tb.qers[k].gfbrTb, len));
    }

    /** The payment of consume_session_ambr and consume_gbr_excess, from one bucket. */
    method PayOne(b: BucketId, len: nat, now: nat, hz: nat) returns (paid: bool)
      requires hz > 0 && BucketOf(tb, b) && Get(tb, b).last <= now
      modifies this
      ensures
        var r := RefillAt(old(tb), b, now, hz);
        && BucketOf(r, b) && (paid <==> Get(r, b).tokens >= len)
        && tb == if paid then Debit(r, b, len) else r
    {
      hide Refill;
      GetPut(tb, b, Refill(Get(tb, b), now, hz), b);
      Update(b, now, hz);
      var v := Get(tb, b);
      paid := v.tokens >= len;
      if paid { tb := Put(tb, b, v.(tokens := v.tokens - len)); }
    }

    /** The payment of consume_gbr_guaranteed: from both buckets of a QER or from neither. */
    method PayBoth(k: nat, len: nat, now: nat, hz: nat) returns (paid: bool)
      requires hz > 0 && Timely(tb, now) && k < |tb.qers|
      modifies this
      ensures
        var r := RefillFor(old(tb), Guaranteed, k, now, hz);
        && Usable(r, Guaranteed, k) && (paid <==> Affordable(r, Guaranteed, k, len))
        && tb == if paid then Charge(r, Guaranteed, k, len) else r
    {
      hide Refill;
      Update(Gfbr(k), now, hz);
      Update(Mfbr(k), now, hz);
      var q := tb.qers[k];
      paid := q.gfbrTb.tokens >= len && q.mfbrTb.tokens >= len;
      if paid {
        tb := Put(tb, Gfbr(k), q.gfbrTb.(tokens := q.gfbrTb.tokens - len));
        tb := Put(tb, Mfbr(k), q.mfbrTb.(tokens := q.mfbrTb.tokens - len));
      }
    }

    /** shaper_consume_service: the buckets of a service pay for a packet, all or none. */
    method Pay(service: Service, qerId: nat, len: nat, now: nat, hz: nat) returns (paid: bool)
      requires hz > 0 && Timely(tb, now)
      modifies this
      ensures var p := Consume(old(tb), service, qerId, len, now, hz); tb == p.tb && paid == p.ok
    {
      hide Refill;
      if tb.ueIp == 0 || service == NoService { return false; }
      if service == SessionAmbr {
        paid := PayOne(Ambr, len, now, hz);
        return;
      }
      var k := FindSlot(qerId);
      if k < 0 { return false; }
      if service == Guaranteed {
        paid := PayBoth(k, len, now, hz);
      } else {
        TimelyGet(tb, Mfbr(k), now);
        paid := PayOne(Mfbr(k), len, now, hz);
      }
    }

    // ----- configuration

    /** refreshUeSessionAmbr. */
    method SetAmbr(rate: nat, conflict: bool, now: nat) returns (ok: bool)
      modifies this
      ensures var c := RefreshAmbr(old(tb), rate, conflict, now); tb == c.tb && ok == c.ok
    {
      if tb.ueIp == 0 { return false; }
      if tb.ambr != rate {
        tb := tb.(ambr := rate);
        Restart(Ambr, rate, now);
      }
      tb := tb.(conflict := conflict);
      ok := true;
    }

    /** The loop of refreshUeGbrQer: the slot of a QER, else the first free one. */
    method FindOrFree(id: nat) returns (k: int, free: int)
      ensures k == FindQer(tb.qers, id, 0) && (k < 0 ==> free == FreeQer(tb.qers, 0))
    {
      k, free := -1, -1;
      var i := 0;
      while i < |tb.qers|
        invariant 0 <= i <= |tb.qers| && FindQer(tb.qers, id, 0) == FindQer(tb.qers, id, i)
        invariant FreeQer(tb.qers, 0) == if free >= 0 then free else FreeQer(tb.qers, i)
      {
        if tb.qers[i].used && tb.qers[i].id == id { return i, free; }
        if !tb.qers[i].used && free < 0 { free := i; }
        i := i + 1;
      }
    }

    /** refreshUeGbrQer. */
    method SetQer(id: nat, qfi: nat, gfbr: nat, mfbr: nat, now: nat) returns (ok: bool)
      modifies this
      ensures var c := RefreshQer(old(tb), id, qfi, gfbr, mfbr, now); tb == c.tb && ok == c.ok
    {
      if id == 0 || gfbr == 0 || mfbr == 0 || tb.ueIp == 0 { return false; }
      var k, free := FindOrFree(id);
      if k < 0 {
        if free < 0 { return false; }
        tb := tb.(qers := tb.qers[free := ZERO_QER.(used := true, id := id, qfi := qfi, gfbr := gfbr, mfbr := mfbr)]);
        Restart(Gfbr(free), gfbr, now);
        Restart(Mfbr(free), mfbr, now);
        return true;
      }
      tb := tb.(qers := tb.qers[k := tb.qers[k].(qfi := qfi)]);
      if tb.qers[k].gfbr != gfbr || tb.qers[k].mfbr != mfbr {
        tb := tb.(qers := tb.qers[k := tb.qers[k].(gfbr := gfbr, mfbr := mfbr)]);
        Restart(Gfbr(k), gfbr, now);
        Restart(Mfbr(k), mfbr, now);
      }
      ok := true;
    }

    /** The row that addEntrybyUeIp writes. */
    method Open(ip: nat, rate: nat, conflict: bool, now: nat)
      modifies this
      ensures tb == NewUe(ip, rate, conflict, now)
    {
      tb := ZeroUe().(ambr := rate, conflict := conflict);
      Restart(Ambr, rate, now);
      tb := tb.(ueIp := ip);
    }

    method Clear()
      modifies this
      ensures tb == ZeroUe()
    {
      tb := ZeroUe();
    }
  }
}
