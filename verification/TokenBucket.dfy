/** The shaper's token buckets (5gc/upf_u/upf_u_trtcm.c): depth, refill and the
    bound that the integer arithmetic of the refill really gives.

    Cycles, bytes and rates are unbounded here; `NoOverflow` shows that the
    128-bit intermediate products of the source cannot overflow. */
module TokenBucket {

  import opened Arith

  const MIN_DEPTH := 2048
  const BURST_MS := 100
  const U64_MAX := 0xFFFF_FFFF_FFFF_FFFF

  /** `rate` in kbit/s, `depth` and `tokens` in bytes, `last` in TSC cycles. */
  datatype Bucket = Bucket(rate: nat, depth: nat, tokens: nat, last: nat)

  const ZERO_BUCKET := Bucket(0, 0, 0, 0)

  function ByteRate(rate: nat): nat { rate * 125 }

  function Depth(rate: nat): nat {
    if rate == 0 then 0
    else
      var bytes := (rate * BURST_MS + 7) / 8;
      if bytes < MIN_DEPTH then MIN_DEPTH
      else if bytes > U64_MAX then U64_MAX else bytes
  }

  function Init(rate: nat, now: nat): Bucket {
    Bucket(rate, Depth(rate), Depth(rate), now)
  }

  predicate CanFit(b: Bucket, len: nat) {
    b.depth > 0 && len <= b.depth
  }

  /** Whole tokens earned since `b.last`, clamped to 64 bits. */
  function Produced(b: Bucket, now: nat, hz: nat): nat
    requires hz > 0 && b.last <= now
  {
    var p := Quot((now - b.last) * ByteRate(b.rate), hz);
    if p > U64_MAX then U64_MAX else p
  }

  /** Cycles charged for `p` tokens: rounded down, but never zero. */
  function CyclesUsed(p: nat, br: nat, hz: nat): nat
    requires br > 0
  {
    var c := Quot(p * hz, br);
    if c == 0 then 1 else c
  }

  function Refill(b: Bucket, now: nat, hz: nat): Bucket
    requires hz > 0 && b.last <= now
  {
    if b.rate == 0 || b.depth == 0 then b.(tokens := 0, last := now)
    else if b.tokens >= b.depth then b.(tokens := b.depth, last := now)
    else
      var p := Produced(b, now, hz);
      if p == 0 then b
      else if p >= b.depth - b.tokens then b.(tokens := b.depth, last := now)
      else b.(tokens := b.tokens + p, last := b.last + CyclesUsed(p, ByteRate(b.rate), hz))
  }

  /** The refill takes its crediting branch without reaching the depth. */
  predicate Credits(b: Bucket, now: nat, hz: nat)
    requires hz > 0 && b.last <= now
  {
    b.rate != 0 && b.depth != 0 && b.tokens < b.depth &&
    0 < Produced(b, now, hz) < b.depth - b.tokens
  }

  /** What every bucket satisfies from its initialisation on. */
  predicate WellFormed(b: Bucket) {
    b.depth == Depth(b.rate) && b.tokens <= b.depth
  }

  /** The cycles charged cover the tokens to within one cycle, and never exceed the
      cycles that elapsed. */
  lemma {:induction false} ChargeBounds(e: nat, p: nat, br: nat, hz: nat)
    requires br > 0 && hz > 0
    requires 0 < p && p * hz <= e * br
    ensures 1 <= CyclesUsed(p, br, hz) <= e
    ensures p * hz < CyclesUsed(p, br, hz) * br + br
    ensures br <= hz ==> CyclesUsed(p, br, hz) * br <= p * hz
    ensures hz % br == 0 ==> CyclesUsed(p, br, hz) * br >= p * hz
  {
    var x := p * hz;
    MulMono(1, p, hz);
    DivAtMost(x, br, e);
    DivBounds(x, br);
    if hz % br == 0 { MultipleDivides(p, hz, br); }
  }

  lemma ProducedBound(b: Bucket, now: nat, hz: nat)
    requires hz > 0 && b.last <= now
    ensures Produced(b, now, hz) * hz <= (now - b.last) * ByteRate(b.rate)
  {
    var x := (now - b.last) * ByteRate(b.rate);
    DivBounds(x, hz);
    MulMono(Produced(b, now, hz), Quot(x, hz), hz);
  }

  // ----- the refill as an approximation of a fluid bucket

  /** Tokens plus the credit still in the clock, in bytes times `hz`: what an ideal
      fluid bucket would keep constant while nothing is consumed and it is not full. */
  function Fluid(b: Bucket, now: nat, hz: nat): nat
    requires b.last <= now
  {
    b.tokens * hz + (now - b.last) * ByteRate(b.rate)
  }

  /** One of the two rates divides the other, so that nothing is rounded away for good. */
  predicate Commensurate(br: nat, hz: nat)
    requires br > 0 && hz > 0
  {
    hz % br == 0 || br % hz == 0
  }

  /** When the clock rate divides the byte rate, all elapsed cycles are charged. */
  lemma AllCharged(b: Bucket, now: nat, hz: nat)
    requires hz > 0 && b.last <= now && Credits(b, now, hz) && b.depth <= U64_MAX && ByteRate(b.rate) % hz == 0
    ensures CyclesUsed(Produced(b, now, hz), ByteRate(b.rate), hz) == now - b.last
  {
    var e, br := now - b.last, ByteRate(b.rate);
    MultipleDivides(e, br, hz);
    QuotOfMultiple(e, br);
    if e == 0 { QuotZero(hz); }
  }

  /** An uncapped refill raises the fluid level by less than one cycle's worth; when a
      cycle earns at most one byte it never lowers it, and it never raises it when one of
      the two rates divides the other. */
  lemma CreditTracksFluid(b: Bucket, now: nat, hz: nat)
    requires hz > 0 && b.last <= now && Credits(b, now, hz)
    ensures var r := Refill(b, now, hz);
      && b.last < r.last <= now
      && Fluid(r, now, hz) < Fluid(b, now, hz) + ByteRate(b.rate)
      && (ByteRate(b.rate) <= hz ==> Fluid(b, now, hz) <= Fluid(r, now, hz))
      && (b.depth <= U64_MAX && Commensurate(ByteRate(b.rate), hz) ==> Fluid(b, now, hz) >= Fluid(r, now, hz))
  {
    var br := ByteRate(b.rate);
    if b.depth <= U64_MAX && br % hz == 0 { AllCharged(b, now, hz); }
    var p := Produced(b, now, hz);
    ProducedBound(b, now, hz);
    ChargeBounds(now - b.last, p, br, hz);
    Distribute(now - Refill(b, now, hz).last, CyclesUsed(p, br, hz), br);
    Distribute(b.tokens, p, hz);
  }

  lemma CapBound(b: Bucket, now: nat, hz: nat)
    requires hz > 0 && b.last <= now && b.tokens < b.depth <= b.tokens + Produced(b, now, hz)
    ensures b.depth * hz <= Fluid(b, now, hz)
  {
    ProducedBound(b, now, hz);
    MulMono(b.depth - b.tokens, Produced(b, now, hz), hz);
    Distribute(b.tokens, b.depth - b.tokens, hz);
  }

  lemma SettledFluid(b: Bucket, now: nat, hz: nat)
    requires b.last == now
    ensures Fluid(b, now, hz) == b.tokens * hz
  {}

  /** A refill that is not an uncapped credit never raises the fluid level. */
  lemma CapNeverRaises(b: Bucket, now: nat, hz: nat)
    requires hz > 0 && b.last <= now && b.tokens <= b.depth && !Credits(b, now, hz)
    ensures Fluid(Refill(b, now, hz), now, hz) <= Fluid(b, now, hz)
  {
    var r := Refill(b, now, hz);
    if r != b {
      SettledFluid(r, now, hz);
      if r.tokens <= b.tokens {
        MulMono(r.tokens, b.tokens, hz);
      } else {
        CapBound(b, now, hz);
      }
    }
  }

  lemma RefillTracksFluid(b: Bucket, now: nat, hz: nat)
    requires hz > 0 && b.last <= now && WellFormed(b)
    ensures var r := Refill(b, now, hz);
      && WellFormed(r) && r.rate == b.rate && b.last <= r.last <= now
      && b.tokens <= r.tokens
      && Fluid(r, now, hz)
           <= Fluid(b, now, hz) + if Credits(b, now, hz) then ByteRate(b.rate) else 0
  {
    if Credits(b, now, hz) {
      CreditTracksFluid(b, now, hz);
    } else {
      CapNeverRaises(b, now, hz);
    }
  }

  // ----- the rate bound

  /** The account of a bucket since its last initialisation at `t0`: `spent` bytes were
      taken out and `credits` uncapped refills happened. */
  ghost predicate Metered(b: Bucket, spent: nat, credits: nat, t0: nat, hz: nat) {
    && WellFormed(b) && t0 <= b.last
    && (spent + b.tokens) * hz <= b.depth * hz + (b.last - t0 + credits) * ByteRate(b.rate)
  }

  lemma InitMetered(rate: nat, now: nat, hz: nat)
    ensures Metered(Init(rate, now), 0, 0, now, hz)
  {}

  lemma RefillMetered(b: Bucket, spent: nat, credits: nat, t0: nat, now: nat, hz: nat)
    requires hz > 0 && b.last <= now && Metered(b, spent, credits, t0, hz)
    ensures Metered(Refill(b, now, hz), spent, credits + if Credits(b, now, hz) then 1 else 0, t0, hz)
    ensures Refill(b, now, hz).last <= now
  {
    RefillTracksFluid(b, now, hz);
    var r := Refill(b, now, hz);
    var br := ByteRate(b.rate);
    var c := if Credits(b, now, hz) then 1 else 0;
    Distribute(now - r.last, r.last - b.last, br);
    Distribute(r.last - b.last, c, br);
    Distribute(b.last - t0 + credits, r.last - b.last + c, br);
    Distribute(spent, r.tokens, hz);
    Distribute(spent, b.tokens, hz);
  }

  lemma SpendMetered(b: Bucket, len: nat, spent: nat, credits: nat, t0: nat, hz: nat)
    requires Metered(b, spent, credits, t0, hz) && len <= b.tokens
    ensures Metered(b.(tokens := b.tokens - len), spent + len, credits, t0, hz)
  {
    assert (spent + len) + (b.tokens - len) == spent + b.tokens;
  }

  /** The bound a caller sees: bytes spent against elapsed cycles and crediting refills. */
  lemma MeteredBound(b: Bucket, spent: nat, credits: nat, t0: nat, now: nat, hz: nat)
    requires Metered(b, spent, credits, t0, hz) && b.last <= now
    ensures spent * hz <= b.depth * hz + (now - t0 + credits) * ByteRate(b.rate)
  {
    MulMono(spent, spent + b.tokens, hz);
    MulMono(b.last - t0 + credits, now - t0 + credits, ByteRate(b.rate));
  }

  // ----- a polling run, and when the bound without slack holds

  /** One `consume` call: refill at `now`, then take `len` bytes if they are there. */
  datatype Poll = Poll(now: nat, len: nat)

  function Take(b: Bucket, q: Poll, hz: nat): (r: (Bucket, nat))
    requires hz > 0 && b.last <= q.now
  {
    var f := Refill(b, q.now, hz);
    if f.tokens >= q.len then (f.(tokens := f.tokens - q.len), q.len) else (f, 0)
  }

  /** The polls happen at nondecreasing times, none before `from`. */
  ghost predicate Ordered(polls: seq<Poll>, from: nat) {
    polls == [] || (from <= polls[0].now && Ordered(polls[1..], polls[0].now))
  }

  ghost function EndTime(polls: seq<Poll>, from: nat): nat {
    if polls == [] then from else polls[|polls| - 1].now
  }

  /** Bytes that a polling run takes out of a bucket. */
  ghost function Drained(b: Bucket, polls: seq<Poll>, from: nat, hz: nat): nat
    requires hz > 0 && b.last <= from && WellFormed(b) && Ordered(polls, from)
    decreases |polls|
  {
    if polls == [] then 0
    else
      RefillTracksFluid(b, polls[0].now, hz);
      var (b1, n) := Take(b, polls[0], hz);
      n + Drained(b1, polls[1..], polls[0].now, hz)
  }

  /** The textbook bound: depth plus rate times elapsed time, with no slack. */
  ghost predicate TextbookBound(rate: nat, polls: seq<Poll>, hz: nat)
    requires hz > 0 && Ordered(polls, 0)
  {
    Drained(Init(rate, 0), polls, 0, hz) * hz
      <= Depth(rate) * hz + EndTime(polls, 0) * ByteRate(rate)
  }

  lemma {:induction false} DrainedWithin(b: Bucket, polls: seq<Poll>, from: nat, hz: nat)
    requires hz > 0 && b.last <= from && WellFormed(b) && Ordered(polls, from)
    requires b.rate > 0 && Commensurate(ByteRate(b.rate), hz)
    ensures from <= EndTime(polls, from)
    ensures Drained(b, polls, from, hz) * hz
         <= Fluid(b, EndTime(polls, from), hz)
    decreases |polls|
  {
    if polls != [] {
      var q := polls[0];
      RefillTracksFluid(b, q.now, hz);
      if Credits(b, q.now, hz) { CreditTracksFluid(b, q.now, hz); }
      var f := Refill(b, q.now, hz);
      var (b1, n) := Take(b, q, hz);
      DrainedWithin(b1, polls[1..], q.now, hz);
      var end := EndTime(polls, from);
      assert EndTime(polls[1..], q.now) == end;
      Distribute(n, Drained(b1, polls[1..], q.now, hz), hz);
      Distribute(b1.tokens, n, hz);
      Distribute(end - q.now, q.now - b.last, ByteRate(b.rate));
      Distribute(end - q.now, q.now - f.last, ByteRate(b.rate));
    }
  }

  /** q + 1 cycles earn p tokens, for which only q cycles are charged although p tokens are
      worth more than that. */
  predicate Eager(rate: nat, hz: nat, q: nat, p: nat)
    requires rate > 0 && hz > 0
  {
    var br := ByteRate(rate);
    && 0 < q && 0 < p < Depth(rate) && Quot((q + 1) * br, hz) == p && Quot(p * hz, br) == q && q * br < p * hz
  }

  /** Polls for p bytes every q cycles, the first q + 1 cycles after `at`. */
  ghost function EagerPolls(at: nat, q: nat, p: nat, n: nat): seq<Poll>
    decreases n
  {
    if n == 0 then [] else [Poll(at + q + 1, p)] + EagerPolls(at + q, q, p, n - 1)
  }

  lemma EagerCredit(b: Bucket, now: nat, hz: nat, q: nat, p: nat)
    requires b.rate > 0 && hz > 0 && WellFormed(b) && b.tokens == 0 && Eager(b.rate, hz, q, p) && now == b.last + q + 1
    ensures Take(b, Poll(now, p), hz) == (b.(last := now - 1), p)
  {
    assert Produced(b, now, hz) == p && CyclesUsed(p, ByteRate(b.rate), hz) == q;
  }

  lemma EagerWaits(rate: nat, hz: nat, q: nat, p: nat)
    requires rate > 0 && hz > 0 && Eager(rate, hz, q, p)
    ensures q > 0
  {}

  ghost function Repeat(n: nat, k: nat): nat { n * k }

  lemma RepeatNone(k: nat)
    ensures Repeat(0, k) == 0
  {}

  lemma RepeatStep(n: nat, k: nat)
    requires n > 0
    ensures Repeat(n, k) == Repeat(n - 1, k) + k
  {
    Distribute(n - 1, 1, k);
  }

  /** A run is its first poll and the rest of it. */
  lemma DrainedStep(b: Bucket, q: Poll, rest: seq<Poll>, from: nat, hz: nat, b1: Bucket, n: nat)
    requires hz > 0 && b.last <= from <= q.now && WellFormed(b) && b1.last <= q.now && WellFormed(b1)
    requires Ordered(rest, q.now) && Take(b, q, hz) == (b1, n)
    ensures Ordered([q] + rest, from) && Drained(b, [q] + rest, from, hz) == n + Drained(b1, rest, q.now, hz)
    ensures EndTime([q] + rest, from) == EndTime(rest, q.now)
  {
    hide Take, Fluid, Depth, Refill;
    RefillTracksFluid(b, q.now, hz);
    assert ([q] + rest)[1..] == rest;
  }

  lemma NothingDrained(b: Bucket, from: nat, hz: nat)
    requires hz > 0 && b.last <= from && WellFormed(b)
    ensures Ordered([], from) && EndTime([], from) == from && Drained(b, [], from, hz) == 0
  {}

  lemma {:induction false} EagerDrains(b: Bucket, from: nat, hz: nat, q: nat, p: nat, n: nat)
    requires b.rate > 0 && hz > 0 && WellFormed(b) && b.tokens == 0 && Eager(b.rate, hz, q, p)
    requires b.last <= from <= b.last + 1
    ensures var polls := EagerPolls(b.last, q, p, n);
      && Ordered(polls, from)
      && EndTime(polls, from) == (if n == 0 then from else b.last + Repeat(n, q) + 1)
      && Drained(b, polls, from, hz) == Repeat(n, p)
    decreases n
  {
    hide Eager, Depth, Repeat, Take, Drained, Ordered, EndTime, Refill, Produced, ByteRate, Fluid;
    if n == 0 {
      RepeatNone(p);
      NothingDrained(b, from, hz);
    } else {
      var now := b.last + q + 1;
      EagerWaits(b.rate, hz, q, p);
      EagerCredit(b, now, hz, q, p);
      var b1 := b.(last := now - 1);
      EagerDrains(b1, now, hz, q, p, n - 1);
      DrainedStep(b, Poll(now, p), EagerPolls(now - 1, q, p, n - 1), from, hz, b1, p);
      RepeatStep(n, q);
      RepeatStep(n, p);
      RepeatNone(q);
    }
  }

  lemma TextbookBoundHolds(rate: nat, polls: seq<Poll>, hz: nat)
    requires 0 < rate && 0 < hz && Commensurate(ByteRate(rate), hz) && Ordered(polls, 0)
    ensures TextbookBound(rate, polls, hz)
  {
    DrainedWithin(Init(rate, 0), polls, 0, hz);
  }

  /** A full burst, then byteRate + 1 eager polls. */
  ghost function EagerRun(rate: nat, q: nat, p: nat): seq<Poll>
    requires 0 < rate
  {
    [Poll(0, Depth(rate))] + EagerPolls(0, q, p, ByteRate(rate) + 1)
  }

  lemma EagerRunDrains(rate: nat, hz: nat, q: nat, p: nat)
    requires 0 < rate && 0 < hz && Eager(rate, hz, q, p)
    ensures var polls := EagerRun(rate, q, p);
      var n := ByteRate(rate) + 1;
      && Ordered(polls, 0)
      && Drained(Init(rate, 0), polls, 0, hz) == Depth(rate) + n * p
      && EndTime(polls, 0) == n * q + 1
  {
    hide Eager, Depth;
    var n := ByteRate(rate) + 1;
    var polls := EagerRun(rate, q, p);
    var b := Init(rate, 0);
    EagerDrains(b.(tokens := 0), 0, hz, q, p, n);
    assert polls[1..] == EagerPolls(0, q, p, n);
    assert Take(b, polls[0], hz) == (b.(tokens := 0), Depth(rate));
  }

  lemma EagerRunExceeds(rate: nat, hz: nat, q: nat, p: nat)
    requires 0 < rate && 0 < hz && Eager(rate, hz, q, p)
    ensures Ordered(EagerRun(rate, q, p), 0) && !TextbookBound(rate, EagerRun(rate, q, p), hz)
  {
    hide EagerRun, Depth;
    var br := ByteRate(rate);
    var n := br + 1;
    EagerRunDrains(rate, hz, q, p);
    EagerGain(br, hz, q, p);
    Distribute(Depth(rate), n * p, hz);
  }

  lemma EagerGain(br: nat, hz: nat, q: nat, p: nat)
    requires q * br < p * hz
    ensures ((br + 1) * q + 1) * br < ((br + 1) * p) * hz
  {
    var n := br + 1;
    Distribute(n * q, 1, br);
    assert (n * q) * br == n * (q * br) && (n * p) * hz == n * (p * hz);
    MulMono(q * br + 1, p * hz, n);
    assert n * (q * br) + n == (q * br + 1) * n by { Distribute(q * br, 1, n); }
  }

  /** Slow rates: one token after hz / br + 1 cycles. */
  lemma EagerSlow(rate: nat, hz: nat)
    requires 0 < rate && ByteRate(rate) < hz && hz % ByteRate(rate) != 0
    ensures Eager(rate, hz, Quot(hz, ByteRate(rate)), 1)
  {
    var br := ByteRate(rate);
    var q := Quot(hz, br);
    DivBounds(hz, br);
    DivAtLeast(hz, br, 1);
    NotMultiple(hz, br);
    Distribute(q, 1, br);
    QuotIsOne((q + 1) * br, hz);
  }

  /** Fast rates: after e = 2 or 3 cycles, whichever does not earn a whole number of bytes. */
  lemma EagerFast(rate: nat, hz: nat, e: nat)
    requires 0 < rate < 0x100_0000_0000 && 30 < hz < ByteRate(rate) && 2 <= e <= 3 && (e * ByteRate(rate)) % hz != 0
    ensures Eager(rate, hz, e - 1, Quot(e * ByteRate(rate), hz))
  {
    var br := ByteRate(rate);
    var x := e * br;
    var p := Quot(x, hz);
    DivBounds(x, hz);
    NotMultiple(x, hz);
    DivAtLeast(x, hz, 1);
    Distribute(e - 1, 1, br);
    QuotIs(p * hz, br, e - 1);
    BelowDepth(rate, hz, e, p);
  }

  lemma BelowDepth(rate: nat, hz: nat, e: nat, p: nat)
    requires 0 < rate < 0x100_0000_0000 && hz > 30 && e <= 3 && p * hz <= e * ByteRate(rate)
    ensures p < Depth(rate)
  {
    MulMono(31, hz, p);
    MulMono(e, 3, ByteRate(rate));
    assert p * 31 <= 3 * ByteRate(rate) && ByteRate(rate) <= 10 * Depth(rate);
  }

  lemma TwoOrThree(br: nat, hz: nat)
    requires hz > 0 && br % hz != 0
    ensures (2 * br) % hz != 0 || (3 * br) % hz != 0
  {
    if (2 * br) % hz == 0 && (3 * br) % hz == 0 {
      var a, b := Quot(2 * br, hz), Quot(3 * br, hz);
      ModIsRest(2 * br, hz);
      ModIsRest(3 * br, hz);
      Distribute(b - a, a, hz);
      assert br == (b - a) * hz;
      if b < a { MulMono(b, a, hz); }
      MultipleMod(b - a, hz);
    }
  }

  /** The textbook bound holds for every polling run exactly when one of the two rates
      divides the other: otherwise rounding `cycles_used` down lets an eager poller gain. */
  lemma TextbookBoundIff(rate: nat, hz: nat)
    requires 0 < rate < 0x100_0000_0000 && hz > 30
    ensures (forall polls | Ordered(polls, 0) :: TextbookBound(rate, polls, hz))
       <==> Commensurate(ByteRate(rate), hz)
  {
    hide Eager, TextbookBound, Ordered;
    var br := ByteRate(rate);
    if Commensurate(br, hz) {
      forall polls | Ordered(polls, 0) ensures TextbookBound(rate, polls, hz) {
        TextbookBoundHolds(rate, polls, hz);
      }
    } else if br < hz {
      EagerSlow(rate, hz);
      EagerRunExceeds(rate, hz, Quot(hz, br), 1);
    } else {
      SelfMod(hz);
      TwoOrThree(br, hz);
      var e := if (2 * br) % hz != 0 then 2 else 3;
      EagerFast(rate, hz, e);
      EagerRunExceeds(rate, hz, e - 1, Quot(e * br, hz));
    }
  }

  /** The refill's 128-bit products stay below 2^128 for 5-byte bit rates (sections 8.2.8
      and 8.2.9 of 3GPP TS 29.244) and 64-bit cycle counts. */
  lemma NoOverflow(rate: nat, elapsed: nat, produced: nat, hz: nat)
    requires rate < 0x100_0000_0000
    requires elapsed <= U64_MAX && produced <= U64_MAX && hz <= U64_MAX
    ensures rate * BURST_MS + 7 < 0x1_0000_0000_0000_0000_0000_0000_0000_0000
    ensures elapsed * ByteRate(rate) < 0x1_0000_0000_0000_0000_0000_0000_0000_0000
    ensures produced * hz < 0x1_0000_0000_0000_0000_0000_0000_0000_0000
  {
    MulMono(elapsed, U64_MAX, ByteRate(rate));
    MulMono(produced, U64_MAX, hz);
  }
}
