/** How a PDR becomes a box over 14 packet fields, and what the reference list search then
    finds (5gc/classifiers/classifier_wrapper.cpp:23-110, 178-206;
    5gc/classifiers/ElementaryClasses.h:64-70; 5gc/classifiers/Simulation.h:61-68). */
module Classifier {
  import opened Arith

  const FIELDS := 14
  const U32_MAX := 0xFFFF_FFFF
  const INT32_MAX := 0x7FFF_FFFF
  const TWO32 := 0x1_0000_0000

  type U32 = x: nat | x <= 0xFFFF_FFFF

  // ----- words as bits

  /** A 32-bit word, most significant bit first. */
  type Word = w: seq<bool> | |w| == 32 witness seq(32, _ => false)

  function Pow2(k: nat): (r: nat)
    ensures r > 0
  {
    if k == 0 then 1 else 2 * Pow2(k - 1)
  }

  /** The number that a string of bits stands for. */
  function Value(s: seq<bool>): nat {
    if s == [] then 0 else 2 * Value(s[..|s| - 1]) + if s[|s| - 1] then 1 else 0
  }

  /** The last n bits of a number. */
  function Bits(x: nat, n: nat): (s: seq<bool>)
    ensures |s| == n
    decreases n
  {
    if n == 0 then [] else Bits(x / 2, n - 1) + [x % 2 == 1]
  }

  function WordOf(x: U32): Word { Bits(x, 32) }

  function And(a: Word, b: Word): (r: Word)
    ensures forall i :: 0 <= i < 32 ==> r[i] == (a[i] && b[i])
  {
    seq(32, i requires 0 <= i < 32 => a[i] && b[i])
  }

  function Or(a: Word, b: Word): (r: Word)
    ensures forall i :: 0 <= i < 32 ==> r[i] == (a[i] || b[i])
  {
    seq(32, i requires 0 <= i < 32 => a[i] || b[i])
  }

  function Not(a: Word): (r: Word)
    ensures forall i :: 0 <= i < 32 ==> r[i] == !a[i]
  {
    seq(32, i requires 0 <= i < 32 => !a[i])
  }

  function Repeat(k: nat, b: bool): (s: seq<bool>)
    ensures |s| == k && forall i :: 0 <= i < k ==> s[i] == b
  {
    seq(k, _ => b)
  }

  function AllOnes(): Word { Repeat(32, true) }

  /** The bits move k places up; zeros come in below. */
  function ShiftLeft(a: Word, k: nat): Word
    requires k <= 32
  {
    a[k..] + Repeat(k, false)
  }

  // ----- address prefixes

  datatype Range = Range(lo: nat, hi: nat)

  predicate In(x: nat, r: Range) { r.lo <= x <= r.hi }

  const ANY := Range(0, U32_MAX)

  /** ip_range; a prefix is at most 32 bits long. */
  function IpRange(ip: U32, len: nat): Range
    requires len <= 32
  {
    if len == 0 then ANY
    else
      var mask := if len == 32 then AllOnes() else ShiftLeft(AllOnes(), 32 - len);
      var lo := And(WordOf(ip), mask);
      Range(Value(lo), Value(Or(lo, Not(mask))))
  }

  /** The first `len` bits of two addresses agree. */
  predicate SamePrefix(a: U32, b: U32, len: nat)
    requires len <= 32
  {
    WordOf(a)[..len] == WordOf(b)[..len]
  }

  lemma {:induction false} BitsValue(x: nat, n: nat)
    requires x < Pow2(n)
    ensures Value(Bits(x, n)) == x
    decreases n
  {
    if n > 0 {
      BitsValue(x / 2, n - 1);
      assert Bits(x, n)[..n - 1] == Bits(x / 2, n - 1);
    }
  }

  lemma {:induction false} ValueBound(s: seq<bool>)
    ensures Value(s) < Pow2(|s|)
  {
    if s != [] { ValueBound(s[..|s| - 1]); }
  }

  lemma {:induction false} ValueInjective(a: seq<bool>, b: seq<bool>)
    requires |a| == |b| && Value(a) == Value(b)
    ensures a == b
    decreases |a|
  {
    if a != [] {
      var n := |a| - 1;
      ValueInjective(a[..n], b[..n]);
      assert a == a[..n] + [a[n]] && b == b[..n] + [b[n]];
    }
  }

  lemma {:induction false} ValueConcat(a: seq<bool>, b: seq<bool>)
    ensures Value(a + b) == Value(a) * Pow2(|b|) + Value(b)
    decreases |b|
  {
    if b == [] {
      assert a + b == a;
    } else {
      var n := |b| - 1;
      ValueConcat(a, b[..n]);
      assert (a + b)[..|a| + n] == a + b[..n] && (a + b)[|a| + n] == b[n];
      Doubled(Value(a), Pow2(n));
    }
  }

  lemma Doubled(x: nat, p: nat)
    ensures 2 * (x * p) == x * (2 * p)
  {}

  lemma {:induction false} ZerosAndOnes(k: nat)
    ensures Value(Repeat(k, false)) == 0 && Value(Repeat(k, true)) == Pow2(k) - 1
  {
    if k > 0 {
      ZerosAndOnes(k - 1);
      assert Repeat(k, false)[..k - 1] == Repeat(k - 1, false);
      assert Repeat(k, true)[..k - 1] == Repeat(k - 1, true);
    }
  }

  /** Masking keeps the prefix and clears the rest; the complement then sets the rest. */
  lemma MaskedBounds(ip: U32, len: nat)
    requires 0 < len <= 32
    ensures
      var mask := if len == 32 then AllOnes() else ShiftLeft(AllOnes(), 32 - len);
      var lo := And(WordOf(ip), mask);
      && lo == WordOf(ip)[..len] + Repeat(32 - len, false)
      && Or(lo, Not(mask)) == WordOf(ip)[..len] + Repeat(32 - len, true)
  {
    hide Bits;
    var mask := if len == 32 then AllOnes() else ShiftLeft(AllOnes(), 32 - len);
    assert forall i :: 0 <= i < 32 ==> mask[i] == (i < len);
  }

  /** A number lies in a window of 2^k numbers exactly when it has the window's top bits. */
  lemma InWindow(w: seq<bool>, p: seq<bool>, k: nat)
    requires |w| == |p| + k
    ensures Value(p) * Pow2(k) <= Value(w) <= Value(p) * Pow2(k) + (Pow2(k) - 1) <==> w[..|p|] == p
  {
    hide Value, Pow2;
    var a, b := w[..|p|], w[|p|..];
    assert w == a + b;
    ValueConcat(a, b);
    ValueBound(b);
    var x, y, m := Value(a), Value(p), Pow2(k);
    if x < y { MulMono(x + 1, y, m); Distribute(x, 1, m); }
    if y < x { MulMono(y + 1, x, m); Distribute(y, 1, m); }
    if x == y { ValueInjective(a, p); }
  }

  /** A packet's address lies in the range exactly when the prefix matches. */
  lemma IpRangeIsPrefix(ip: U32, len: nat, x: U32)
    requires len <= 32
    ensures In(x, IpRange(ip, len)) <==> SamePrefix(ip, x, len)
  {
    hide Pow2, Value, Bits, And, Or, Not, ShiftLeft;
    if len > 0 {
      var p, k := WordOf(ip)[..len], 32 - len;
      MaskedBounds(ip, len);
      ZerosAndOnes(k);
      ValueConcat(p, Repeat(k, false));
      ValueConcat(p, Repeat(k, true));
      Pow2Of32();
      BitsValue(x, 32);
      InWindow(WordOf(x), p, k);
    }
  }

  lemma Pow2Of32()
    ensures Pow2(32) == TWO32
  {
    assert Pow2(8) == 256;
    assert Pow2(16) == 0x1_0000;
    assert Pow2(24) == 0x100_0000;
  }

  // ----- rules

  /** A PDR's filter. Zero means that a field is not set, except for the TEID, the source
      interface and the direction, which always count. */
  datatype Pdi = Pdi(ueIp: U32, uePref: nat, srcIp: U32, srcPref: nat, dstIp: U32, dstPref: nat,
                     srcPort: U32, dstPort: U32, proto: U32, tos: U32, spi: U32, flowLabel: U32,
                     qfi: U32, teid: U32, sourceIf: U32, niHash: U32)

  datatype Pdr = Pdr(id: nat, precedence: U32, pdi: Pdi, descriptor: nat, uplink: bool)

  predicate PrefixesOk(d: Pdi) { d.uePref <= 32 && d.srcPref <= 32 && d.dstPref <= 32 }

  datatype Packet = Packet(ueIp: U32, srcIp: U32, dstIp: U32, srcPort: U32, dstPort: U32, proto: U32, tos: U32,
                           spi: U32, flowLabel: U32, teid: U32, sourceIf: U32, niHash: U32, qfi: U32, uplink: U32)

  datatype Rule = Rule(ranges: seq<Range>, priority: int, descriptor: nat, id: nat)

  /** The conversion of an integer to 32 bits, two's complement. */
  function Int32(x: int): int {
    var m := x % TWO32;
    if m <= INT32_MAX then m else m - TWO32
  }

  /** Lower precedence values are stronger; higher priorities are. */
  function Priority(precedence: U32): int { Int32(INT32_MAX - Int32(precedence)) }

  function Exactly(x: U32): Range { Range(x, x) }

  function IfSet(x: U32): Range { if x != 0 then Exactly(x) else ANY }

  function Direction(uplink: bool): U32 { if uplink then 1 else 0 }

  /** to_cpp_rule. */
  function Compile(p: Pdr): (r: Rule)
    requires PrefixesOk(p.pdi)
    ensures |r.ranges| == FIELDS
  {
    var d := p.pdi;
    Rule([IpRange(d.ueIp, d.uePref), IpRange(d.srcIp, d.srcPref), IpRange(d.dstIp, d.dstPref),
          IfSet(d.srcPort), IfSet(d.dstPort), IfSet(d.proto), IfSet(d.tos), IfSet(d.spi), ANY,
          Exactly(d.teid), Exactly(d.sourceIf), IfSet(d.niHash), IfSet(d.qfi), Exactly(Direction(p.uplink))],
         Priority(p.precedence), p.descriptor, p.id)
  }

  /** to_cpp_pkt. */
  function Fields(k: Packet): (r: seq<U32>)
    ensures |r| == FIELDS
  {
    [k.ueIp, k.srcIp, k.dstIp, k.srcPort, k.dstPort, k.proto, k.tos, k.spi, k.flowLabel, k.teid, k.sourceIf,
     k.niHash, k.qfi, k.uplink]
  }

  ghost predicate InBox(ranges: seq<Range>, x: seq<U32>)
    requires |ranges| == |x|
  {
    forall i :: 0 <= i < |x| ==> In(x[i], ranges[i])
  }

  /** A field that is not set matches everything. */
  predicate Agrees(wanted: U32, actual: U32) { wanted != 0 ==> wanted == actual }

  /** What a PDR asks of a packet. */
  predicate Selects(p: Pdr, k: Packet)
    requires PrefixesOk(p.pdi)
  {
    var d := p.pdi;
    && SamePrefix(d.ueIp, k.ueIp, d.uePref) && SamePrefix(d.srcIp, k.srcIp, d.srcPref)
    && SamePrefix(d.dstIp, k.dstIp, d.dstPref)
    && Agrees(d.srcPort, k.srcPort) && Agrees(d.dstPort, k.dstPort) && Agrees(d.proto, k.proto) && Agrees(d.tos, k.tos)
    && Agrees(d.spi, k.spi) && Agrees(d.niHash, k.niHash) && Agrees(d.qfi, k.qfi)
    && d.teid == k.teid && d.sourceIf == k.sourceIf && (k.uplink == 1 || k.uplink == 0) && (k.uplink == 1 <==> p.uplink)
  }

  lemma IfSetMeans(x: U32, y: U32)
    ensures In(y, IfSet(x)) <==> Agrees(x, y)
  {}

  /** The compiled box contains a packet exactly when the PDR selects it. */
  lemma BoxMeans(p: Pdr, k: Packet)
    requires PrefixesOk(p.pdi)
    ensures InBox(Compile(p).ranges, Fields(k)) <==> Selects(p, k)
  {
    hide IpRange, SamePrefix, IfSet, Agrees;
    var d, r, x := p.pdi, Compile(p).ranges, Fields(k);
    IpRangeIsPrefix(d.ueIp, d.uePref, k.ueIp);
    IpRangeIsPrefix(d.srcIp, d.srcPref, k.srcIp);
    IpRangeIsPrefix(d.dstIp, d.dstPref, k.dstIp);
    IfSetMeans(d.srcPort, k.srcPort);
    IfSetMeans(d.dstPort, k.dstPort);
    IfSetMeans(d.proto, k.proto);
    IfSetMeans(d.tos, k.tos);
    IfSetMeans(d.spi, k.spi);
    IfSetMeans(d.niHash, k.niHash);
    IfSetMeans(d.qfi, k.qfi);
    if InBox(r, x) {
      assert In(x[0], r[0]) && In(x[1], r[1]) && In(x[2], r[2]) && In(x[3], r[3]) && In(x[4], r[4]) && In(x[5], r[5])
          && In(x[6], r[6]) && In(x[7], r[7]) && In(x[9], r[9]) && In(x[10], r[10]) && In(x[11], r[11])
          && In(x[12], r[12])
          && In(x[13], r[13]);
    }
  }

  // ----- searching

  /** Rule::MatchesPacket. */
  method MatchesPacket(r: Rule, x: seq<U32>) returns (ok: bool)
    requires |r.ranges| == FIELDS == |x|
    ensures ok <==> InBox(r.ranges, x)
  {
    for i := 0 to FIELDS
      invariant forall j :: 0 <= j < i ==> In(x[j], r.ranges[j])
    {
      if x[i] < r.ranges[i].lo || x[i] > r.ranges[i].hi { return false; }
    }
    ok := true;
  }

  datatype Answer = Miss | Hit(precedence: int, descriptor: nat)

  ghost predicate RulesOk(rules: seq<Rule>) { forall i :: 0 <= i < |rules| ==> |rules[i].ranges| == FIELDS }

  /** The first rule that matches, from k on. */
  ghost function FirstMatch(rules: seq<Rule>, x: seq<U32>, k: nat): (n: nat)
    requires RulesOk(rules) && |x| == FIELDS && k <= |rules|
    ensures k <= n <= |rules| && (n < |rules| ==> InBox(rules[n].ranges, x))
    ensures forall j :: k <= j < n ==> !InBox(rules[j].ranges, x)
    decreases |rules| - k
  {
    if k == |rules| || InBox(rules[k].ranges, x) then k else FirstMatch(rules, x, k + 1)
  }

  /** cls_classify_packet over the list search: a negative priority reads as no match. */
  ghost function Answered(rules: seq<Rule>, x: seq<U32>): Answer
    requires RulesOk(rules) && |x| == FIELDS
  {
    var n := FirstMatch(rules, x, 0);
    if n == |rules| || rules[n].priority < 0 then Miss
    else Hit((INT32_MAX - rules[n].priority) % TWO32, rules[n].descriptor)
  }

  method Classify(rules: seq<Rule>, k: Packet) returns (a: Answer)
    requires RulesOk(rules)
    ensures a == Answered(rules, Fields(k))
  {
    var x := Fields(k);
    var n := 0;
    while n < |rules|
      invariant 0 <= n <= |rules| && FirstMatch(rules, x, 0) == FirstMatch(rules, x, n)
    {
      var ok := MatchesPacket(rules[n], x);
      if ok {
        if rules[n].priority < 0 { return Miss; }
        return Hit((INT32_MAX - rules[n].priority) % TWO32, rules[n].descriptor);
      }
      n := n + 1;
    }
    return Miss;
  }

  // ----- the lowest precedence wins

  /** Up to 2^31 - 1 the inversion is exact and reverses the order; above, it goes negative. */
  lemma PriorityInverts(c: U32)
    ensures if c <= INT32_MAX then Priority(c) == INT32_MAX - c >= 0 else Priority(c) == INT32_MAX - c < 0
    ensures c <= INT32_MAX <==> Priority(c) >= 0
    ensures (INT32_MAX - Priority(c)) % TWO32 == c
  {}

  ghost predicate Descending(rules: seq<Rule>) {
    forall i, j :: 0 <= i < j < |rules| ==> rules[i].priority >= rules[j].priority
  }

  /** The rules are the compiled PDRs, in descending priority. */
  ghost predicate Compiled(pdrs: set<Pdr>, rules: seq<Rule>) {
    && (forall p :: p in pdrs ==> PrefixesOk(p.pdi) && Compile(p) in rules)
    && (forall r :: r in rules ==> exists p :: p in pdrs && PrefixesOk(p.pdi) && r == Compile(p))
    && Descending(rules)
  }

  lemma CompiledOk(pdrs: set<Pdr>, rules: seq<Rule>)
    requires Compiled(pdrs, rules)
    ensures RulesOk(rules)
  {
    forall i | 0 <= i < |rules| ensures |rules[i].ranges| == FIELDS {
      assert rules[i] in rules;
    }
  }

  /** The PDR that wins: it selects the packet, and none that does has lower precedence. */
  ghost predicate Wins(pdrs: set<Pdr>, k: Packet, p: Pdr)
    requires forall q :: q in pdrs ==> PrefixesOk(q.pdi)
  {
    p in pdrs && Selects(p, k) && forall q :: q in pdrs && Selects(q, k) ==> p.precedence <= q.precedence
  }

  /** A hit reports the precedence and the descriptor of a PDR that wins; a miss means that
      every PDR that selects the packet has a precedence of 2^31 or more. */
  lemma LowestPrecedenceWins(pdrs: set<Pdr>, rules: seq<Rule>, k: Packet)
    requires Compiled(pdrs, rules)
    ensures RulesOk(rules)
    ensures Answered(rules, Fields(k)).Miss? <==> forall q :: q in pdrs && Selects(q, k) ==> q.precedence > INT32_MAX
    ensures Answered(rules, Fields(k)).Hit? ==>
      exists p :: Wins(pdrs, k, p) && Answered(rules, Fields(k)) == Hit(p.precedence, p.descriptor)
  {
    hide Compile, Fields, Selects, InBox, Priority, FirstMatch;
    CompiledOk(pdrs, rules);
    var n := FirstMatch(rules, Fields(k), 0);
    forall q | q in pdrs && Selects(q, k) ensures n < |rules| && rules[n].priority >= Priority(q.precedence) {
      Outranked(rules, k, q, n);
    }
    forall q | q in pdrs ensures q.precedence <= INT32_MAX <==> Priority(q.precedence) >= 0 {
      PriorityInverts(q.precedence);
    }
    if n < |rules| {
      assert rules[n] in rules;
      var p :| p in pdrs && PrefixesOk(p.pdi) && rules[n] == Compile(p);
      BoxMeans(p, k);
      CompiledPriority(p);
      PriorityInverts(p.precedence);
      forall q | q in pdrs && Selects(q, k) ensures p.precedence <= q.precedence { PriorityInverts(q.precedence); }
      assert Wins(pdrs, k, p);
    }
  }

  lemma CompiledPriority(p: Pdr)
    requires PrefixesOk(p.pdi)
    ensures Compile(p).priority == Priority(p.precedence) && Compile(p).descriptor == p.descriptor
  {}

  /** The first match has at least the priority of every PDR that selects the packet. */
  lemma Outranked(rules: seq<Rule>, k: Packet, q: Pdr, n: nat)
    requires RulesOk(rules) && Descending(rules) && PrefixesOk(q.pdi) && Compile(q) in rules && Selects(q, k)
    requires n == FirstMatch(rules, Fields(k), 0)
    ensures n < |rules| && rules[n].priority >= Priority(q.precedence)
  {
    hide Compile, Fields, Selects, InBox, Priority;
    BoxMeans(q, k);
    CompiledPriority(q);
    var j :| 0 <= j < |rules| && rules[j] == Compile(q);
    assert n <= j;
  }
}
