/** Which UE is drained next: the bitmap of UEs with queued packets and the two-pass scan
    from the cursor (5gc/upf_u/upf_u.c:336-402). A word is its 64 bits, lowest first. */
module RoundRobin {
  import opened Common

  const WORD := 64
  const WORDS := 4

  type Word = w: seq<bool> | |w| == 64 witness seq(64, _ => false)

  type Bitmap = b: seq<Word> | |b| == 4 witness seq(4, _ => seq(64, _ => false))

  predicate Bit(b: Bitmap, ue: nat)
    requires ue < MAX_UE
  {
    b[ue / WORD][ue % WORD]
  }

  function SetBit(b: Bitmap, ue: nat, v: bool): (r: Bitmap)
    requires ue < MAX_UE
    ensures forall i :: 0 <= i < MAX_UE ==> Bit(r, i) == if i == ue then v else Bit(b, i)
  {
    var r := b[ue / WORD := b[ue / WORD][ue % WORD := v]];
    assert forall i :: 0 <= i < MAX_UE && i != ue && i / WORD == ue / WORD ==> i % WORD != ue % WORD;
    r
  }

  // ----- word operations

  function And(a: Word, b: Word): (r: Word)
    ensures forall i :: 0 <= i < WORD ==> r[i] == (a[i] && b[i])
  {
    seq(WORD, i requires 0 <= i < WORD => a[i] && b[i])
  }

  function Not(a: Word): (r: Word)
    ensures forall i :: 0 <= i < WORD ==> r[i] == !a[i]
  {
    seq(WORD, i requires 0 <= i < WORD => !a[i])
  }

  /** All ones shifted left by s. */
  function From(s: nat): (r: Word)
    ensures forall i :: 0 <= i < WORD ==> r[i] == (i >= s)
  {
    seq(WORD, i => i >= s)
  }

  /** Where the lowest set bit is, or WORD for the zero word. */
  function LowestFrom(w: Word, i: nat): (r: nat)
    requires i <= WORD
    ensures i <= r <= WORD && (r < WORD ==> w[r]) && forall j :: i <= j < r ==> !w[j]
    decreases WORD - i
  {
    if i == WORD || w[i] then i else LowestFrom(w, i + 1)
  }

  // ----- what the scan looks for

  /** A UE that has packets and was not tried yet. */
  predicate Eligible(active: Bitmap, skip: Bitmap, ue: nat)
    requires ue < MAX_UE
  {
    Bit(active, ue) && !Bit(skip, ue)
  }

  /** How far ue lies ahead of the cursor, going round. */
  function Ahead(cursor: nat, ue: nat): (d: nat)
    requires ue < MAX_UE
    ensures d < MAX_UE
  {
    var start := cursor % MAX_UE;
    if ue >= start then ue - start else ue + MAX_UE - start
  }

  /** The plain form of the scan: one UE after the other, from d places past the cursor. */
  function NextFrom(active: Bitmap, skip: Bitmap, cursor: nat, d: nat): (r: int)
    requires d <= MAX_UE
    ensures -1 <= r < MAX_UE && (r >= 0 ==> Eligible(active, skip, r))
    decreases MAX_UE - d
  {
    if d == MAX_UE then -1
    else
      var ue := (cursor + d) % MAX_UE;
      if Eligible(active, skip, ue) then ue else NextFrom(active, skip, cursor, d + 1)
  }

  /** It finds the eligible UE least far ahead, and fails only if there is none. */
  lemma {:induction false} NextFromNearest(active: Bitmap, skip: Bitmap, cursor: nat, d: nat, ue: nat)
    requires d <= MAX_UE && ue < MAX_UE && Eligible(active, skip, ue) && d <= Ahead(cursor, ue)
    ensures var r := NextFrom(active, skip, cursor, d); r >= 0 && Ahead(cursor, r) <= Ahead(cursor, ue)
    decreases MAX_UE - d
  {
    var first := (cursor + d) % MAX_UE;
    AheadOf(cursor, d);
    if !Eligible(active, skip, first) {
      if d == Ahead(cursor, ue) { AheadUnique(cursor, first, ue); }
      NextFromNearest(active, skip, cursor, d + 1, ue);
    }
  }

  lemma AheadOf(cursor: nat, d: nat)
    requires d < MAX_UE
    ensures Ahead(cursor, (cursor + d) % MAX_UE) == d
  {}

  lemma AheadUnique(cursor: nat, a: nat, b: nat)
    requires a < MAX_UE && b < MAX_UE && Ahead(cursor, a) == Ahead(cursor, b)
    ensures a == b
  {}

  lemma NextFromIsNext(active: Bitmap, skip: Bitmap, cursor: nat)
    ensures
      var r := NextFrom(active, skip, cursor, 0);
      if r < 0 then forall ue :: 0 <= ue < MAX_UE ==> !Eligible(active, skip, ue) else IsNext(active, skip, cursor, r)
  {
    forall ue | 0 <= ue < MAX_UE && Eligible(active, skip, ue)
      ensures var r := NextFrom(active, skip, cursor, 0); r >= 0 && Ahead(cursor, r) <= Ahead(cursor, ue)
    {
      NextFromNearest(active, skip, cursor, 0, ue);
    }
  }

  /** There is only one such UE, so the two forms of the scan agree. */
  lemma IsNextUnique(active: Bitmap, skip: Bitmap, cursor: nat, a: nat, b: nat)
    requires a < MAX_UE && b < MAX_UE && IsNext(active, skip, cursor, a) && IsNext(active, skip, cursor, b)
    ensures a == b
  {
    AheadUnique(cursor, a, b);
  }

  /** The word that one step of the scan looks at. The mask of valid bits is all ones, since
      256 is a multiple of 64. */
  function Masked(active: Bitmap, skip: Bitmap, start: nat, pass: nat, word: nat): (r: Word)
    requires word < WORDS && start < MAX_UE
    ensures forall i :: 0 <= i < WORD ==> r[i] == (active[word][i] && !skip[word][i] && InPass(start, pass, word, i))
  {
    var w := And(active[word], Not(skip[word]));
    if pass == 0 && word == start / WORD then
      if start % WORD > 0 then And(w, From(start % WORD)) else w
    else if pass == 1 && word == start / WORD then
      if start % WORD == 0 then From(WORD) else And(w, Not(From(start % WORD)))
    else w
  }

  /** The first pass covers the start word from the start bit on, the second the rest of it. */
  predicate InPass(start: nat, pass: nat, word: nat, bit: nat) {
    word == start / WORD ==> (pass == 0 ==> bit >= start % WORD) && (pass == 1 ==> bit < start % WORD)
  }

  /** UEs before (word, 0) of this pass have been looked at, and none was eligible. */
  ghost predicate Searched(active: Bitmap, skip: Bitmap, start: nat, pass: nat, word: nat)
    requires start < MAX_UE
  {
    forall ue :: 0 <= ue < MAX_UE && Eligible(active, skip, ue) ==> !Covered(start, pass, word, ue)
  }

  predicate Covered(start: nat, pass: nat, word: nat, ue: nat) {
    if pass == 0 then start <= ue < word * WORD else ue >= start || ue < word * WORD
  }

  /** The cyclically first eligible UE at or after the cursor. */
  ghost predicate IsNext(active: Bitmap, skip: Bitmap, cursor: nat, r: nat)
    requires r < MAX_UE
  {
    && Eligible(active, skip, r)
    && (forall ue :: 0 <= ue < MAX_UE && Eligible(active, skip, ue) ==> Ahead(cursor, r) <= Ahead(cursor, ue))
  }

  /** A word without a bit to offer extends what has been searched. */
  lemma WordSearched(active: Bitmap, skip: Bitmap, start: nat, pass: nat, word: nat)
    requires start < MAX_UE && word < WORDS && pass < 2 && Searched(active, skip, start, pass, word)
    requires pass == 0 ==> start / WORD <= word
    requires pass == 1 ==> word <= start / WORD
    requires LowestFrom(Masked(active, skip, start, pass, word), 0) == WORD
    ensures Searched(active, skip, start, pass, word + 1)
  {
    var w := Masked(active, skip, start, pass, word);
    forall ue | 0 <= ue < MAX_UE && Eligible(active, skip, ue) ensures !Covered(start, pass, word + 1, ue) {
      if ue / WORD == word { assert !w[ue % WORD]; }
    }
  }

  /** The lowest bit of the first nonzero word is the UE to serve. */
  lemma BitIsNext(active: Bitmap, skip: Bitmap, start: nat, pass: nat, word: nat)
    requires start < MAX_UE && word < WORDS && pass < 2 && Searched(active, skip, start, pass, word)
    requires pass == 0 ==> start / WORD <= word
    requires pass == 1 ==> word <= start / WORD
    requires LowestFrom(Masked(active, skip, start, pass, word), 0) < WORD
    ensures
      var r := word * WORD + LowestFrom(Masked(active, skip, start, pass, word), 0);
      r < MAX_UE && IsNext(active, skip, start, r)
  {
    var w := Masked(active, skip, start, pass, word);
    var bit := LowestFrom(w, 0);
    var r := word * WORD + bit;
    assert r / WORD == word && r % WORD == bit && w[bit];
    forall ue | 0 <= ue < MAX_UE && Eligible(active, skip, ue) ensures Ahead(start, r) <= Ahead(start, ue) {
      assert !Covered(start, pass, word, ue);
      if ue / WORD == word { assert w[ue % WORD] <==> InPass(start, pass, word, ue % WORD); }
      NotEarlier(start, pass, word, bit, ue);
    }
  }

  lemma NotEarlier(start: nat, pass: nat, word: nat, bit: nat, ue: nat)
    requires start < MAX_UE && word < WORDS && pass < 2 && bit < WORD && ue < MAX_UE && InPass(start, pass, word, bit)
    requires (pass == 0 ==> start / WORD <= word) && (pass == 1 ==> word <= start / WORD)
    requires !Covered(start, pass, word, ue)
    requires ue / WORD == word && InPass(start, pass, word, ue % WORD) ==> bit <= ue % WORD
    ensures Ahead(start, word * WORD + bit) <= Ahead(start, ue)
  {
    var r := word * WORD + bit;
    assert pass == 0 ==> r >= start;
    assert pass == 1 ==> r < start && ue < start;
    assert pass == 0 ==> ue < start || ue >= r;
    assert pass == 1 ==> ue >= r;
  }

  /** The globals the scan works on. */
  class Scanner {
    var active: Bitmap
    var cursor: nat

    constructor ()
      ensures cursor == 0 && forall ue :: 0 <= ue < MAX_UE ==> !Bit(active, ue)
    {
      active := seq(4, _ => seq(64, _ => false));
      cursor := 0;
    }

    method Mark(ue: nat, busy: bool)
      requires ue < MAX_UE
      modifies this`active
      ensures forall i :: 0 <= i < MAX_UE ==> Bit(active, i) == if i == ue then busy else Bit(old(active), i)
    {
      active := SetBit(active, ue, busy);
    }

    /** shaper_next_active_ue: the cyclically first eligible UE, or -1 exactly if none is. */
    method Next(skip: Bitmap) returns (r: int)
      modifies this`cursor
      ensures r == -1 <==> forall ue :: 0 <= ue < MAX_UE ==> !Eligible(active, skip, ue)
      ensures r != -1 ==> 0 <= r < MAX_UE && IsNext(active, skip, old(cursor), r) && cursor == (r + 1) % MAX_UE
      ensures r == -1 ==> cursor == old(cursor)
      ensures r == NextFrom(active, skip, old(cursor), 0)
    {
      NextFromIsNext(active, skip, cursor);
      hide NextFrom, LowestFrom, Masked, Searched, IsNext, Eligible;
      var start := cursor % MAX_UE;
      SearchBegins(active, skip, start);
      var pass := 0;
      while pass < 2
        invariant 0 <= pass <= 2 && cursor == old(cursor)
        invariant pass == 0 ==> Searched(active, skip, start, 0, start / WORD)
        invariant pass == 1 ==> Searched(active, skip, start, 1, 0)
        invariant pass == 2 ==> Searched(active, skip, start, 1, start / WORD + 1)
      {
        var word := if pass == 0 then start / WORD else 0;
        var last := if pass == 0 then WORDS else start / WORD + 1;
        while word < last
          invariant word <= last && (pass == 0 ==> start / WORD <= word) && cursor == old(cursor)
          invariant Searched(active, skip, start, pass, word)
        {
          var bit := LowestFrom(Masked(active, skip, start, pass, word), 0);
          if bit < WORD {
            BitIsNext(active, skip, start, pass, word);
            NextFound(active, skip, old(cursor), word * WORD + bit);
            r := word * WORD + bit;
            cursor := (r + 1) % MAX_UE;
            assert Eligible(active, skip, r);
            IsNextUnique(active, skip, old(cursor), r, NextFrom(active, skip, old(cursor), 0));
            return;
          }
          LowestMax(Masked(active, skip, start, pass, word));
          WordSearched(active, skip, start, pass, word);
          word := word + 1;
        }
        if pass == 0 { PassEnds(active, skip, start); }
        pass := pass + 1;
      }
      SearchEnds(active, skip, start);
      r := -1;
    }
  }

  lemma LowestMax(w: Word)
    ensures LowestFrom(w, 0) <= WORD
  {}

  lemma SearchBegins(active: Bitmap, skip: Bitmap, start: nat)
    requires start < MAX_UE
    ensures Searched(active, skip, start, 0, start / WORD)
  {}

  lemma PassEnds(active: Bitmap, skip: Bitmap, start: nat)
    requires start < MAX_UE && Searched(active, skip, start, 0, WORDS)
    ensures Searched(active, skip, start, 1, 0)
  {}

  lemma SearchEnds(active: Bitmap, skip: Bitmap, start: nat)
    requires start < MAX_UE && Searched(active, skip, start, 1, start / WORD + 1)
    ensures forall ue :: 0 <= ue < MAX_UE ==> !Eligible(active, skip, ue)
  {
    forall ue | 0 <= ue < MAX_UE ensures !Eligible(active, skip, ue) {
      assert Covered(start, 1, start / WORD + 1, ue);
    }
  }

  /** The cursor and its place in the bitmap are the same distance from everything. */
  lemma NextFound(active: Bitmap, skip: Bitmap, cursor: nat, r: nat)
    requires r < MAX_UE && IsNext(active, skip, cursor % MAX_UE, r)
    ensures IsNext(active, skip, cursor, r) && Eligible(active, skip, r)
  {
    forall ue | 0 <= ue < MAX_UE ensures Ahead(cursor % MAX_UE, ue) == Ahead(cursor, ue) {}
  }

  // ----- nobody is passed over

  /** A visit serves a waiting UE or brings the cursor strictly closer to it. */
  lemma VisitApproaches(active: Bitmap, skip: Bitmap, cursor: nat, r: nat, ue: nat)
    requires r < MAX_UE && ue < MAX_UE && IsNext(active, skip, cursor, r) && Eligible(active, skip, ue)
    ensures r == ue || Ahead((r + 1) % MAX_UE, ue) < Ahead(cursor, ue)
  {
    assert Ahead(cursor, r) <= Ahead(cursor, ue);
  }

  /** One visit as the scan sees it: what was active and skipped, where the cursor was, and how
      many visits its drain call had made before. */
  datatype Visit = Visit(active: Bitmap, skip: Bitmap, cursor: nat, served: nat, turn: nat)

  ghost predicate VisitsFollow(vs: seq<Visit>) {
    && (forall k :: 0 <= k < |vs| ==>
          vs[k].served < MAX_UE && IsNext(vs[k].active, vs[k].skip, vs[k].cursor, vs[k].served))
    && (forall k :: 0 < k < |vs| ==> vs[k].cursor == (vs[k - 1].served + 1) % MAX_UE)
  }

  /** A UE that stays eligible is served within as many visits as it lies ahead of the
      cursor, plus one: never more than MAX_UE, whatever the others do. */
  lemma {:induction false} ServedInTime(vs: seq<Visit>, ue: nat)
    requires VisitsFollow(vs) && ue < MAX_UE && vs != [] && |vs| > Ahead(vs[0].cursor, ue)
    requires forall k :: 0 <= k < |vs| ==> Eligible(vs[k].active, vs[k].skip, ue)
    ensures exists k :: 0 <= k <= Ahead(vs[0].cursor, ue) && vs[k].served == ue
    decreases |vs|
  {
    VisitApproaches(vs[0].active, vs[0].skip, vs[0].cursor, vs[0].served, ue);
    if vs[0].served != ue {
      var rest := vs[1..];
      ServedInTime(rest, ue);
      var k :| 0 <= k <= Ahead(rest[0].cursor, ue) && rest[k].served == ue;
      assert vs[k + 1].served == ue;
    }
  }

  // ----- across drain calls

  /** Visits that one drain call makes at most. */
  const SCAN_BUDGET := 32

  ghost predicate ServedBetween(vs: seq<Visit>, from: int, to: int, ue: nat) {
    exists j :: 0 <= j < |vs| && from <= j < to && vs[j].served == ue
  }

  /** The turns of each call count up from zero, and a UE is skipped only if the same call
      has served it. */
  ghost predicate ScansOk(vs: seq<Visit>) {
    && (forall k :: 0 <= k < |vs| ==> vs[k].turn < SCAN_BUDGET && vs[k].turn <= k)
    && (forall k :: 0 < k < |vs| && vs[k].turn > 0 ==> vs[k - 1].turn == vs[k].turn - 1)
    && (forall k, ue :: 0 <= k < |vs| && 0 <= ue < MAX_UE && Bit(vs[k].skip, ue) ==>
          ServedBetween(vs, k - vs[k].turn, k, ue))
  }

  /** A call begins at `from` or less than SCAN_BUDGET visits later. */
  lemma {:induction false} NextCall(vs: seq<Visit>, from: nat) returns (c: nat)
    requires ScansOk(vs) && from + SCAN_BUDGET <= |vs|
    ensures from <= c < from + SCAN_BUDGET && vs[c].turn == 0
  {
    c := from;
    while vs[c].turn != 0
      invariant from <= c < from + SCAN_BUDGET
      invariant vs[c].turn == 0 || (vs[from].turn > 0 && vs[c].turn == vs[from].turn + (c - from))
      decreases |vs| - c
    {
      assert vs[c].turn == vs[from].turn + (c - from) < SCAN_BUDGET;
      c := c + 1;
    }
  }

  /** Turns of one call go back without a break. */
  lemma {:induction false} SameCall(vs: seq<Visit>, k: nat, c: nat)
    requires ScansOk(vs) && c <= k < |vs| && vs[c].turn == 0
    ensures vs[k].turn <= k - c
    decreases k
  {
    if c < k && vs[k].turn > 0 { SameCall(vs, k - 1, c); }
  }

  /** A UE that has packets throughout MAX_UE + SCAN_BUDGET - 1 consecutive visits is served by
      one of them, wherever in a call they begin. */
  lemma ServedInAnyWindow(vs: seq<Visit>, from: nat, ue: nat)
    requires VisitsFollow(vs) && ScansOk(vs) && ue < MAX_UE && from + MAX_UE + SCAN_BUDGET - 1 <= |vs|
    requires forall k :: from <= k < from + MAX_UE + SCAN_BUDGET - 1 ==> Bit(vs[k].active, ue)
    ensures ServedBetween(vs, from, from + MAX_UE + SCAN_BUDGET - 1, ue)
  {
    hide IsNext, Bit, Ahead;
    var c := NextCall(vs, from);
    if forall k :: c <= k < c + MAX_UE ==> !Bit(vs[k].skip, ue) {
      var w := vs[c..c + MAX_UE];
      assert forall k :: 0 <= k < |w| ==> w[k] == vs[c + k];
      assert VisitsFollow(w);
      AheadBound(w[0].cursor, ue);
      ServedInTime(w, ue);
      var k :| 0 <= k <= Ahead(w[0].cursor, ue) && w[k].served == ue;
      assert vs[c + k].served == ue;
    } else {
      var k :| c <= k < c + MAX_UE && Bit(vs[k].skip, ue);
      SameCall(vs, k, c);
      var j :| 0 <= j < |vs| && k - vs[k].turn <= j < k && vs[j].served == ue;
    }
  }

  lemma AheadBound(cursor: nat, ue: nat)
    requires ue < MAX_UE
    ensures Ahead(cursor, ue) < MAX_UE
  {}
}
