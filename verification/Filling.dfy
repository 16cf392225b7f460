/** What a bucket gives, the counterpart of the bound on what it lets through: the exact tokens
    after a refill, the least that a polling run is served, and the most it is served in any
    window of time (5gc/upf_u/upf_u_trtcm.c:258-326, 755-778). */
module Filling {
  import opened Arith
  import opened TokenBucket

  function Least(a: nat, b: nat): nat { if a < b then a else b }

  /** A rate is in kbit/s. The depth is what it carries in 100 ms, in whole bytes, but at least
      2048 bytes and at most what 64 bits hold; a rate of zero has no depth. */
  lemma DepthMeans(rate: nat)
    ensures 8 * ByteRate(rate) == 1000 * rate
    ensures rate == 0 <==> Depth(rate) == 0
    ensures rate > 0 ==> 2048 <= Depth(rate) <= 0xFFFF_FFFF_FFFF_FFFF
    ensures 0 < rate && Depth(rate) < 0xFFFF_FFFF_FFFF_FFFF ==> 10 * Depth(rate) >= ByteRate(rate)
    ensures Depth(rate) > 2048 ==> 10 * (Depth(rate) - 1) < ByteRate(rate)
  {}

  // ----- one refill

  /** Bytes that a rate earns in some cycles. */
  function Earned(rate: nat, cycles: nat, hz: nat): nat
    requires hz > 0
  {
    Quot(cycles * ByteRate(rate), hz)
  }

  /** A refill adds exactly the whole bytes earned since the last one, up to the depth. */
  lemma RefillValue(b: Bucket, now: nat, hz: nat)
    requires hz > 0 && b.last <= now && WellFormed(b)
    ensures Refill(b, now, hz).tokens == Least(b.depth, b.tokens + Earned(b.rate, now - b.last, hz))
    ensures Refill(b, now, hz).rate == b.rate && Refill(b, now, hz).depth == b.depth
  {
    hide Quot;
    DepthMeans(b.rate);
    if b.rate == 0 { NothingEarned(now - b.last, hz); }
  }

  lemma NothingEarned(cycles: nat, hz: nat)
    requires hz > 0
    ensures Earned(0, cycles, hz) == 0
  {
    QuotZero(hz);
  }

  /** The clock of a refilled bucket: it stands at `now` when the bucket is full, and otherwise
      is behind by less than one byte and one cycle are worth; no more than one cycle is lost. */
  ghost predicate ClockKept(b: Bucket, r: Bucket, now: nat, hz: nat)
    requires b.last <= now
  {
    var br := ByteRate(b.rate);
    && b.last <= r.last <= now && (r.tokens >= b.depth ==> r.last == now)
    && (now - r.last) * br < hz + br
    && (r.tokens < b.depth ==> Fluid(b, now, hz) < r.tokens * hz + (now - r.last) * br + br)
  }

  lemma RefillClock(b: Bucket, now: nat, hz: nat)
    requires hz > 0 && b.last <= now && WellFormed(b) && b.rate > 0
    ensures ClockKept(b, Refill(b, now, hz), now, hz)
  {
    hide Quot, CyclesUsed, Fluid, ClockKept;
    DepthMeans(b.rate);
    var r, e := Refill(b, now, hz), now - b.last;
    if Credits(b, now, hz) {
      CreditClock(b, now, hz);
    } else if b.tokens < b.depth && Produced(b, now, hz) == 0 {
      IdleClock(b, now, hz);
    } else {
      FullClock(b, r, now, hz);
    }
  }

  lemma FullClock(b: Bucket, r: Bucket, now: nat, hz: nat)
    requires hz > 0 && b.last <= now && r.last == now && r.tokens >= b.depth
    ensures ClockKept(b, r, now, hz)
  {
    assert (now - r.last) * ByteRate(b.rate) == 0;
  }

  lemma IdleClock(b: Bucket, now: nat, hz: nat)
    requires hz > 0 && b.last <= now && b.rate > 0 && b.tokens < b.depth && Produced(b, now, hz) == 0
    ensures ClockKept(b, b, now, hz)
  {
    DivBounds((now - b.last) * ByteRate(b.rate), hz);
  }

  lemma CreditClock(b: Bucket, now: nat, hz: nat)
    requires hz > 0 && b.last <= now && WellFormed(b) && b.rate > 0 && Credits(b, now, hz)
    ensures ClockKept(b, Refill(b, now, hz), now, hz)
  {
    DepthMeans(b.rate);
    var br, e, p := ByteRate(b.rate), now - b.last, Produced(b, now, hz);
    Clamped(b, now, hz);
    DivBounds(e * br, hz);
    ChargeBounds(e, p, br, hz);
    CreditSpans(e, p, CyclesUsed(p, br, hz), br, hz);
    ChargedAtMost(p, br, hz);
    Distribute(b.tokens, p, hz);
  }

  /** Nothing is clamped before the depth is reached. */
  lemma Clamped(b: Bucket, now: nat, hz: nat)
    requires hz > 0 && b.last <= now && WellFormed(b) && Credits(b, now, hz)
    ensures Produced(b, now, hz) == Quot((now - b.last) * ByteRate(b.rate), hz)
  {
    hide Quot;
    DepthMeans(b.rate);
  }

  lemma ChargedAtMost(p: nat, br: nat, hz: nat)
    requires br > 0 && hz > 0 && p > 0
    ensures CyclesUsed(p, br, hz) * br < p * hz + br
  {
    DivBounds(p * hz, br);
    MulMono(1, p, hz);
  }

  lemma CreditSpans(e: nat, p: nat, u: nat, br: nat, hz: nat)
    requires u <= e && p * hz <= e * br < p * hz + hz && p * hz < u * br + br
    ensures (e - u) * br < hz + br && (e - u) * br == e * br - u * br
  {
    Distribute(e - u, u, br);
  }

  /** Full or not, what a refilled bucket is worth is bounded by its depth and one cycle. */
  lemma RefillCaps(b: Bucket, now: nat, hz: nat)
    requires hz > 0 && b.last <= now && WellFormed(b) && b.rate > 0
    ensures var r := Refill(b, now, hz); r.last <= now && Fluid(r, now, hz) < b.depth * hz + ByteRate(b.rate)
  {
    hide Refill;
    RefillClock(b, now, hz);
    RefillTracksFluid(b, now, hz);
    var r := Refill(b, now, hz);
    if r.tokens < b.depth {
      MulMono(r.tokens + 1, b.depth, hz);
      Distribute(r.tokens, 1, hz);
    } else {
      assert (now - r.last) * ByteRate(b.rate) == 0;
    }
  }

  /** A bucket left alone long enough to earn its depth is full. */
  lemma IdleFills(b: Bucket, now: nat, hz: nat)
    requires hz > 0 && b.last <= now && WellFormed(b) && b.rate > 0
    requires now - b.last > Quot(b.depth * hz, ByteRate(b.rate))
    ensures Refill(b, now, hz).tokens == b.depth
  {
    RefillValue(b, now, hz);
    var br := ByteRate(b.rate);
    var c := Quot(b.depth * hz, br) + 1;
    DivBounds(b.depth * hz, br);
    Distribute(c - 1, 1, br);
    MulMono(c, now - b.last, br);
    DivAtLeast((now - b.last) * br, hz, b.depth);
  }

  // ----- polling runs

  /** A poll is served iff its length is there, counting what was earned up to the depth. */
  lemma TakeValue(b: Bucket, q: Poll, hz: nat)
    requires hz > 0 && b.last <= q.now && WellFormed(b)
    ensures
      var there := Least(b.depth, b.tokens + Earned(b.rate, q.now - b.last, hz));
      var (b1, n) := Take(b, q, hz);
      if q.len <= there then n == q.len && b1.tokens == there - q.len else n == 0 && b1.tokens == there
  {
    hide Refill, Earned;
    RefillValue(b, q.now, hz);
  }

  /** The bucket after a polling run. */
  ghost function After(b: Bucket, polls: seq<Poll>, from: nat, hz: nat): (r: Bucket)
    requires hz > 0 && b.last <= from && WellFormed(b) && Ordered(polls, from)
    ensures WellFormed(r) && r.rate == b.rate && r.last <= EndTime(polls, from)
    decreases |polls|
  {
    if polls == [] then b
    else
      RefillTracksFluid(b, polls[0].now, hz);
      After(Take(b, polls[0], hz).0, polls[1..], polls[0].now, hz)
  }

  /** No poll of the run finds the bucket full, so that nothing it earns runs over. */
  ghost predicate NeverFull(b: Bucket, polls: seq<Poll>, from: nat, hz: nat)
    requires hz > 0 && b.last <= from && WellFormed(b) && Ordered(polls, from)
    decreases |polls|
  {
    if polls == [] then true
    else
      RefillTracksFluid(b, polls[0].now, hz);
      && Refill(b, polls[0].now, hz).tokens < b.depth
      && NeverFull(Take(b, polls[0], hz).0, polls[1..], polls[0].now, hz)
  }

  lemma {:induction false} RunEnds(polls: seq<Poll>, from: nat)
    requires Ordered(polls, from)
    ensures from <= EndTime(polls, from)
    decreases |polls|
  {
    if polls != [] { RunEnds(polls[1..], polls[0].now); }
  }

  /** What one poll does to the books: at most a cycle is won, at most a cycle is lost. */
  lemma PollTracks(b: Bucket, q: Poll, end: nat, hz: nat)
    requires hz > 0 && b.last <= q.now <= end && WellFormed(b) && b.rate > 0
    ensures
      var (b1, n) := Take(b, q, hz);
      && b1.last <= q.now && WellFormed(b1) && b1.rate == b.rate
      && n * hz + Fluid(b1, end, hz) <= Fluid(b, end, hz) + ByteRate(b.rate)
      && (Refill(b, q.now, hz).tokens < b.depth ==>
            Fluid(b, end, hz) <= n * hz + Fluid(b1, end, hz) + ByteRate(b.rate))
  {
    hide Refill;
    var f, br := Refill(b, q.now, hz), ByteRate(b.rate);
    RefillTracksFluid(b, q.now, hz);
    RefillClock(b, q.now, hz);
    var (b1, n) := Take(b, q, hz);
    Distribute(n, b1.tokens, hz);
    Distribute(end - q.now, q.now - b.last, br);
    Distribute(end - q.now, q.now - f.last, br);
  }

  /** Over any polling run, what was served and what is left is what was there and what was
      earned, up to a cycle per poll; from below as long as nothing ran over. */
  lemma {:induction false} RunTracks(b: Bucket, polls: seq<Poll>, from: nat, hz: nat)
    requires hz > 0 && b.last <= from && WellFormed(b) && Ordered(polls, from) && b.rate > 0
    ensures
      var end, r, slack := EndTime(polls, from), After(b, polls, from, hz), |polls| * ByteRate(b.rate);
      && from <= end
      && Drained(b, polls, from, hz) * hz + Fluid(r, end, hz) <= Fluid(b, end, hz) + slack
      && (NeverFull(b, polls, from, hz) ==>
            Fluid(b, end, hz) <= Drained(b, polls, from, hz) * hz + Fluid(r, end, hz) + slack)
    decreases |polls|
  {
    hide Fluid, Take, Refill, WellFormed;
    if polls != [] {
      var q, rest, end := polls[0], polls[1..], EndTime(polls, from);
      RunEnds(rest, q.now);
      RefillTracksFluid(b, q.now, hz) by { WellFormedIs(b); }
      assert EndTime(rest, q.now) == end;
      PollTracks(b, q, end, hz);
      var (b1, n) := Take(b, q, hz);
      RunTracks(b1, rest, q.now, hz);
      Distribute(n, Drained(b1, rest, q.now, hz), hz);
      Distribute(|rest|, 1, ByteRate(b.rate));
    }
  }

  lemma WellFormedIs(b: Bucket)
    requires WellFormed(b)
    ensures b.depth == Depth(b.rate) && b.tokens <= b.depth
  {}

  /** In any window that begins with a refill, whatever happened before it, no more leaves than
      the depth, the rate over the window, and a cycle per poll. */
  lemma WindowBound(b: Bucket, at: nat, polls: seq<Poll>, hz: nat)
    requires hz > 0 && b.last <= at && WellFormed(b) && Ordered(polls, at) && b.rate > 0
    ensures
      var r := Refill(b, at, hz);
      && r.last <= at && WellFormed(r) && at <= EndTime(polls, at)
      && Drained(r, polls, at, hz) * hz
           < b.depth * hz + (EndTime(polls, at) - at + |polls| + 1) * ByteRate(b.rate)
  {
    hide Refill, After, Drained;
    RefillTracksFluid(b, at, hz);
    RefillCaps(b, at, hz);
    var r, br, end := Refill(b, at, hz), ByteRate(b.rate), EndTime(polls, at);
    RunTracks(r, polls, at, hz);
    Distribute(end - at, at - r.last, br);
    Distribute(end - at, |polls| + 1, br);
    Distribute(|polls|, 1, br);
  }

  /** A backlogged run is served its rate: if a poll at the end is refused `len` bytes and nothing
      ran over before, then what was served and `len` together exceed all that was there and
      earned, but for a byte and a cycle per poll. */
  lemma ServedAtLeast(b: Bucket, polls: seq<Poll>, from: nat, len: nat, hz: nat)
    requires hz > 0 && b.last <= from && WellFormed(b) && Ordered(polls, from) && b.rate > 0
    requires NeverFull(b, polls, from, hz) && polls != []
    requires After(b, polls, from, hz).tokens < len && len <= b.depth
    ensures from <= EndTime(polls, from)
    ensures
      Fluid(b, EndTime(polls, from), hz)
        < (Drained(b, polls, from, hz) + len) * hz + hz + (|polls| + 1) * ByteRate(b.rate)
  {
    hide Refill, Drained, NeverFull;
    RunTracks(b, polls, from, hz);
    LeftBehind(b, polls, from, hz);
    var r, br := After(b, polls, from, hz), ByteRate(b.rate);
    MulMono(r.tokens, len, hz);
    Distribute(Drained(b, polls, from, hz), len, hz);
    Distribute(|polls|, 1, br);
  }

  /** After a run the clock of a bucket is behind by less than a byte and a cycle. */
  lemma {:induction false} LeftBehind(b: Bucket, polls: seq<Poll>, from: nat, hz: nat)
    requires hz > 0 && b.last <= from && WellFormed(b) && Ordered(polls, from) && b.rate > 0 && polls != []
    ensures
      var r, end := After(b, polls, from, hz), EndTime(polls, from);
      (end - r.last) * ByteRate(b.rate) < hz + ByteRate(b.rate)
    decreases |polls|
  {
    hide Fluid, Refill;
    var q, rest := polls[0], polls[1..];
    RefillTracksFluid(b, q.now, hz);
    RefillClock(b, q.now, hz);
    var b1 := Take(b, q, hz).0;
    if rest == [] {
      assert After(b1, rest, q.now, hz) == b1;
    } else {
      LeftBehind(b1, rest, q.now, hz);
    }
  }
}
