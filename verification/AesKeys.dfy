/** Key expansion (section 5.2 of FIPS 197; examples/aes_encrypt/aes.c:67, 561-613): the
    in-place loops of aes_key_setup make the schedule of the standard. */
module AesKeys {
  import opened AesTables
  import opened Aes
  import opened AesStandard

  // ----- the standard

  /** Each byte of a word through the S-box. */
  function StdSubWord(w: bv32): bv32 { WordOf(SubColumn(KeyColumn(w))) }

  /** [a0, a1, a2, a3] becomes [a1, a2, a3, a0]. */
  function StdRotWord(w: bv32): bv32 {
    var c := KeyColumn(w);
    WordOf(Column(c.b1, c.b2, c.b3, c.b0))
  }

  /** The (i - 1)-th power of x. */
  function PowerOfX(i: nat): bv8
    requires i > 0
  {
    if i == 1 then 1 else Xtime(PowerOfX(i - 1))
  }

  function StdRcon(i: nat): bv32
    requires i > 0
  {
    WordOf(Column(PowerOfX(i), 0, 0, 0))
  }

  /** What is added to the word nk places back to make word i; `before` is word i - 1. */
  function StdTemp(before: bv32, i: nat, nk: nat): bv32
    requires 0 < nk <= i
  {
    if i % nk == 0 then RconAt(i, nk); StdSubWord(StdRotWord(before)) ^ StdRcon(i / nk)
    else if nk > 6 && i % nk == 4 then StdSubWord(before)
    else before
  }

  lemma RconAt(i: nat, nk: nat)
    requires 0 < nk <= i
    ensures i / nk > 0
  {}

  /** Word i of a key. */
  function WordAt(key: seq<bv8>, i: nat): bv32
    requires 4 * i + 3 < |key|
  {
    WordOf(Column(key[4 * i], key[4 * i + 1], key[4 * i + 2], key[4 * i + 3]))
  }

  /** The first n words of the schedule of a key of nk words. */
  ghost predicate Expands(w: seq<bv32>, key: seq<bv8>, nk: nat, n: nat) {
    && 0 < nk && n <= |w| && |key| == 4 * nk
    && (forall i :: 0 <= i < n && i < nk ==> w[i] == WordAt(key, i))
    && (forall i :: nk <= i < n ==> w[i] == w[i - nk] ^ StdTemp(w[i - 1], i, nk))
  }

  // ----- the code

  /** The table of round constants. */
  function Rcon(i: nat): bv32
    requires i < 15
  {
    if i == 0 then 0x01000000 else if i == 1 then 0x02000000 else if i == 2 then 0x04000000
    else if i == 3 then 0x08000000 else if i == 4 then 0x10000000 else if i == 5 then 0x20000000
    else if i == 6 then 0x40000000 else if i == 7 then 0x80000000 else if i == 8 then 0x1b000000
    else if i == 9 then 0x36000000 else if i == 10 then 0x6c000000 else if i == 11 then 0xd8000000
    else if i == 12 then 0xab000000 else if i == 13 then 0x4d000000 else 0x9a000000
  }

  /** The table holds the powers of x, all of it. */
  lemma {:induction false} RconIsPower(i: nat)
    requires i < 15
    ensures Rcon(i) == StdRcon(i + 1)
    decreases i
  {
    if i > 0 {
      RconIsPower(i - 1);
      NextRcon(PowerOfX(i), PowerOfX(i + 1), i);
    }
  }

  lemma NextRcon(p: bv8, q: bv8, i: nat)
    requires 0 < i < 15 && q == Xtime(p) && Rcon(i - 1) == WordOf(Column(p, 0, 0, 0))
    ensures Rcon(i) == WordOf(Column(q, 0, 0, 0))
  {}

  /** KE_ROTWORD. */
  function RotWord(w: bv32): bv32 { (w << 8) | (w >> 24) }

  lemma RotWordIs(w: bv32)
    ensures RotWord(w) == StdRotWord(w)
  {}

  /** SubWord: the S-box of the four bytes, put together again by addition. */
  function SubWord(w: bv32): bv32 {
    var c := KeyColumn(w);
    SumOf(Column(Sbox(c.b0), Sbox(c.b1), Sbox(c.b2), Sbox(c.b3)))
  }

  function Add32(a: bv32, b: bv32): bv32 { a + b }

  function Or32(a: bv32, b: bv32): bv32 { a | b }

  /** A byte n places up in a word. */
  function Place(b: bv8, n: nat): bv32 {
    if n == 0 then b as bv32 else if n == 1 then (b as bv32) << 8 else if n == 2 then (b as bv32) << 16
    else (b as bv32) << 24
  }

  function SumOf(c: Column): bv32 {
    Add32(Add32(Add32(Place(c.b3, 0), Place(c.b2, 1)), Place(c.b1, 2)), Place(c.b0, 3))
  }

  lemma SubWordIs(w: bv32)
    ensures SubWord(w) == StdSubWord(w)
  {
    hide Sbox, WordOf, SumOf, KeyColumn;
    Added(SubColumn(KeyColumn(w)));
  }

  /** Adding bytes in their places is putting them there. */
  lemma Added(c: Column)
    ensures WordOf(c) == SumOf(c)
  {
    hide Add32, Or32, Place, Clear, WordOf;
    WordIsJoined(c);
    var x3, x2, x1 := Place(c.b3, 0), Place(c.b2, 1), Place(c.b1, 2);
    FirstByte(c.b3);
    SecondByte(x3, c.b2);
    ThirdByte(Or32(x3, x2), c.b1);
    FourthByte(Or32(Or32(x3, x2), x1), c.b0);
  }

  lemma WordIsJoined(c: Column)
    ensures WordOf(c) == Or32(Or32(Or32(Place(c.b3, 0), Place(c.b2, 1)), Place(c.b1, 2)), Place(c.b0, 3))
  {}

  predicate Clear(x: bv32, mask: bv32) { x & mask == 0 }

  lemma FirstByte(b: bv8)
    ensures Clear(Place(b, 0), 0xFFFFFF00)
  {}

  lemma SecondByte(x: bv32, b: bv8)
    requires Clear(x, 0xFFFFFF00)
    ensures Add32(x, Place(b, 1)) == Or32(x, Place(b, 1)) && Clear(Or32(x, Place(b, 1)), 0xFFFF0000)
  {}

  lemma ThirdByte(x: bv32, b: bv8)
    requires Clear(x, 0xFFFF0000)
    ensures Add32(x, Place(b, 2)) == Or32(x, Place(b, 2)) && Clear(Or32(x, Place(b, 2)), 0xFF000000)
  {}

  lemma FourthByte(x: bv32, b: bv8)
    requires Clear(x, 0xFF000000)
    ensures Add32(x, Place(b, 3)) == Or32(x, Place(b, 3))
  {
    BelowTop(x);
    OnTop(x, b);
  }

  lemma BelowTop(x: bv32)
    requires Clear(x, 0xFF000000)
    ensures x == x & 0x00FFFFFF
  {}

  lemma OnTop(x: bv32, b: bv8)
    ensures (x & 0x00FFFFFF) + ((b as bv32) << 24) == (x & 0x00FFFFFF) | ((b as bv32) << 24)
  {}

  lemma RconPlace(i: nat, nk: nat)
    requires (nk == 4 || nk == 6 || nk == 8) && nk <= i < 60 && i % nk == 0
    ensures (i - 1) / nk < 15 && i / nk == (i - 1) / nk + 1
  {
    if nk == 4 {} else if nk == 6 {}
  }

  /** What the loop adds to the word nk places back. */
  method Temp(before: bv32, i: nat, nk: nat) returns (temp: bv32)
    requires (nk == 4 || nk == 6 || nk == 8) && nk <= i < 60
    ensures temp == StdTemp(before, i, nk)
  {
    hide SubWord, RotWord, Rcon, StdSubWord, StdRotWord, StdRcon;
    temp := before;
    if i % nk == 0 {
      RconPlace(i, nk);
      RotWordIs(before);
      SubWordIs(RotWord(before));
      RconIsPower((i - 1) / nk);
      temp := SubWord(RotWord(temp)) ^ Rcon((i - 1) / nk);
    } else if nk > 6 && i % nk == 4 {
      SubWordIs(before);
      temp := SubWord(temp);
    }
  }

  /** The first loop: the words of the key itself. */
  method CopyKey(key: seq<bv8>, w: array<bv32>, nk: nat)
    requires w.Length == 60 && 0 < nk <= 8 && |key| == 4 * nk
    modifies w
    ensures Expands(w[..], key, nk, nk)
  {
    hide WordOf;
    for i := 0 to nk
      invariant forall j :: 0 <= j < i ==> w[j] == WordAt(key, j)
    {
      KeyWord(key, i);
      w[i] := ((key[4 * i] as bv32) << 24) | ((key[4 * i + 1] as bv32) << 16) | ((key[4 * i + 2] as bv32) << 8)
              | (key[4 * i + 3] as bv32);
    }
  }

  lemma KeyWord(key: seq<bv8>, i: nat)
    requires 4 * i + 3 < |key|
    ensures
      WordAt(key, i)
      == ((key[4 * i] as bv32) << 24) | ((key[4 * i + 1] as bv32) << 16) | ((key[4 * i + 2] as bv32) << 8)
         | (key[4 * i + 3] as bv32)
  {}

  /** The second loop. */
  method Extend(key: seq<bv8>, w: array<bv32>, nk: nat, n: nat)
    requires w.Length == 60 && (nk == 4 || nk == 6 || nk == 8) && nk <= n <= 60 && Expands(w[..], key, nk, nk)
    modifies w
    ensures Expands(w[..], key, nk, n)
  {
    hide WordAt, StdTemp, Expands;
    for i := nk to n
      invariant Expands(w[..], key, nk, i)
    {
      var temp := Temp(w[i - 1], i, nk);
      ghost var before := w[..];
      w[i] := w[i - nk] ^ temp;
      OneWordMore(before, w[..], key, nk, i);
    }
  }

  lemma OneWordMore(w: seq<bv32>, v: seq<bv32>, key: seq<bv8>, nk: nat, i: nat)
    requires Expands(w, key, nk, i) && nk <= i < |w| && v == w[i := w[i - nk] ^ StdTemp(w[i - 1], i, nk)]
    ensures Expands(v, key, nk, i + 1)
  {
    hide WordAt, StdTemp;
  }

  /** aes_key_setup; other sizes leave the schedule as it is. */
  method KeySetup(key: seq<bv8>, w: array<bv32>, keysize: int)
    requires w.Length == 60 && (StdKeySize(keysize) ==> |key| == 4 * Nk(keysize))
    modifies w
    ensures StdKeySize(keysize) ==> Expands(w[..], key, Nk(keysize), 4 * (Nr(keysize) + 1))
    ensures !StdKeySize(keysize) ==> w[..] == old(w[..])
  {
    hide Expands;
    if keysize == 128 {
      CopyKey(key, w, 4);
      Extend(key, w, 4, 44);
    } else if keysize == 192 {
      CopyKey(key, w, 6);
      Extend(key, w, 6, 52);
    } else if keysize == 256 {
      CopyKey(key, w, 8);
      Extend(key, w, 8, 60);
    }
  }

  /** A key has one schedule. */
  lemma {:induction false} OneSchedule(w: seq<bv32>, v: seq<bv32>, key: seq<bv8>, nk: nat, n: nat, i: nat)
    requires Expands(w, key, nk, n) && Expands(v, key, nk, n) && i < n
    ensures w[i] == v[i]
    decreases i
  {
    if i >= nk {
      OneSchedule(w, v, key, nk, n, i - nk);
      OneSchedule(w, v, key, nk, n, i - 1);
    }
  }
}
