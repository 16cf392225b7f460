/** The cipher of FIPS 197 by the indices of its state array (sections 3.4, 5.1 to 5.3), and that
    the code computes it (examples/aes_encrypt/aes.c:561-613, 963-1185). */
module AesStandard {
  import opened AesTables
  import opened Aes

  // ----- the state array

  function RowOf(c: Column, r: nat): bv8
    requires r < 4
  {
    if r == 0 then c.b0 else if r == 1 then c.b1 else if r == 2 then c.b2 else c.b3
  }

  /** The byte in row r and column c. */
  function At(s: State, r: nat, c: nat): bv8
    requires r < 4 && c < 4
  {
    RowOf(ColOf(s, c), r)
  }

  function ColOf(s: State, c: nat): Column
    requires c < 4
  {
    if c == 0 then s.c0 else if c == 1 then s.c1 else if c == 2 then s.c2 else s.c3
  }

  // ----- the transformations

  datatype Layer =
    | SubLayer
    | InvSubLayer
    | ShiftLayer
    | InvShiftLayer
    | MixLayer
    | InvMixLayer
    | KeyLayer(k: Schedule, round: nat)

  predicate Proper(l: Layer) { l.KeyLayer? ==> l.round <= 14 }

  /** In a mixed column, {02} times the byte, {03} times the next one down, and the other two. */
  function MixedCell(c: Column, r: nat): bv8
    requires r < 4
  {
    Sum(Xtime(RowOf(c, r)), Three(RowOf(c, (r + 1) % 4)), RowOf(c, (r + 2) % 4), RowOf(c, (r + 3) % 4))
  }

  function UnmixedCell(c: Column, r: nat): bv8
    requires r < 4
  {
    Sum(Fourteen(RowOf(c, r)), Eleven(RowOf(c, (r + 1) % 4)), Thirteen(RowOf(c, (r + 2) % 4)),
        Nine(RowOf(c, (r + 3) % 4)))
  }

  /** The byte in row r and column c after a transformation: row r turns r places to the left
      (back to the right), and word 4 * round + c of the schedule is added to column c. */
  function CellOf(l: Layer, s: State, r: nat, c: nat): bv8
    requires Proper(l) && r < 4 && c < 4
  {
    match l
    case SubLayer => Sbox(At(s, r, c))
    case InvSubLayer => InvSbox(At(s, r, c))
    case ShiftLayer => At(s, r, (c + r) % 4)
    case InvShiftLayer => At(s, r, (c + 4 - r) % 4)
    case MixLayer => MixedCell(ColOf(s, c), r)
    case InvMixLayer => UnmixedCell(ColOf(s, c), r)
    case KeyLayer(k, round) => At(s, r, c) ^ RowOf(KeyColumn(k[4 * round + c]), r)
  }

  function ColumnBy(l: Layer, s: State, c: nat): Column
    requires Proper(l) && c < 4
  {
    Column(CellOf(l, s, 0, c), CellOf(l, s, 1, c), CellOf(l, s, 2, c), CellOf(l, s, 3, c))
  }

  function Apply(l: Layer, s: State): State
    requires Proper(l)
  {
    State(ColumnBy(l, s, 0), ColumnBy(l, s, 1), ColumnBy(l, s, 2), ColumnBy(l, s, 3))
  }

  lemma LayersAgree(s: State)
    ensures SubBytes(s) == Apply(SubLayer, s) && InvSubBytes(s) == Apply(InvSubLayer, s)
    ensures ShiftRows(s) == Apply(ShiftLayer, s) && InvShiftRows(s) == Apply(InvShiftLayer, s)
  {
    hide Sbox, InvSbox;
  }

  lemma MixAgrees(s: State, c: nat)
    requires c < 4
    ensures MixColumn(ColOf(s, c)) == ColumnBy(MixLayer, s, c)
    ensures InvMixColumn(ColOf(s, c)) == ColumnBy(InvMixLayer, s, c)
  {
    hide MixColumn, InvMixColumn, MixedCell, UnmixedCell, ColOf;
    MixedAgrees(ColOf(s, c));
    UnmixedAgrees(ColOf(s, c));
  }

  lemma MixedAgrees(c: Column)
    ensures MixColumn(c) == Column(MixedCell(c, 0), MixedCell(c, 1), MixedCell(c, 2), MixedCell(c, 3))
  {
    hide MixColumn, Sum, Xtime, Three;
    Mixed(c);
  }

  lemma UnmixedAgrees(c: Column)
    ensures InvMixColumn(c) == Column(UnmixedCell(c, 0), UnmixedCell(c, 1), UnmixedCell(c, 2), UnmixedCell(c, 3))
  {
    hide InvMixColumn, Sum, Nine, Eleven, Thirteen, Fourteen;
    Unmixed(c);
  }

  lemma MixesAgree(s: State)
    ensures MixColumns(s) == Apply(MixLayer, s) && InvMixColumns(s) == Apply(InvMixLayer, s)
  {
    hide MixColumn, InvMixColumn, ColumnBy;
    MixAgrees(s, 0);
    MixAgrees(s, 1);
    MixAgrees(s, 2);
    MixAgrees(s, 3);
  }

  lemma KeysAgree(s: State, k: Schedule, round: nat)
    requires round <= 14
    ensures AddRoundKey(s, k, 4 * round) == Apply(KeyLayer(k, round), s)
  {
    hide KeyColumn, ColumnBy, AddColumn;
    KeyAgrees(s, k, round, 0);
    KeyAgrees(s, k, round, 1);
    KeyAgrees(s, k, round, 2);
    KeyAgrees(s, k, round, 3);
  }

  lemma KeyAgrees(s: State, k: Schedule, round: nat, c: nat)
    requires round <= 14 && c < 4
    ensures AddColumn(ColOf(s, c), KeyColumn(k[4 * round + c])) == ColumnBy(KeyLayer(k, round), s, c)
  {
    hide KeyColumn, ColOf;
  }

  /** The word of four bytes, the first of them on top. */
  function WordOf(c: Column): bv32 {
    ((c.b0 as bv32) << 24) | ((c.b1 as bv32) << 16) | ((c.b2 as bv32) << 8) | (c.b3 as bv32)
  }

  /** The column of a round key is the one whose bytes make up its word. */
  lemma KeyColumnIs(w: bv32, c: Column)
    ensures WordOf(KeyColumn(w)) == w && KeyColumn(WordOf(c)) == c
  {}

  // ----- the cipher

  /** The state after the initial key addition and the rounds 1 to r. */
  function StdRounds(s: State, k: Schedule, r: nat): State
    requires r <= 14
  {
    if r == 0 then Apply(KeyLayer(k, 0), s)
    else Apply(KeyLayer(k, r), Apply(MixLayer, Apply(ShiftLayer, Apply(SubLayer, StdRounds(s, k, r - 1)))))
  }

  /** Section 5.1: Nr rounds, the last one without MixColumns. */
  function StdCipher(s: State, k: Schedule, nr: nat): State
    requires 1 <= nr <= 14
  {
    Apply(KeyLayer(k, nr), Apply(ShiftLayer, Apply(SubLayer, StdRounds(s, k, nr - 1))))
  }

  /** Section 5.3: the rounds r down to 1, then the last one. */
  function StdInvRounds(s: State, k: Schedule, r: nat): State
    requires r <= 13
    decreases r
  {
    var t := Apply(KeyLayer(k, r), Apply(InvSubLayer, Apply(InvShiftLayer, s)));
    if r == 0 then t else StdInvRounds(Apply(InvMixLayer, t), k, r - 1)
  }

  function StdInvCipher(s: State, k: Schedule, nr: nat): State
    requires 1 <= nr <= 14
  {
    StdInvRounds(Apply(KeyLayer(k, nr), s), k, nr - 1)
  }

  /** Section 3.4: the bytes of a block fill the state array column by column. */
  ghost predicate Holds(s: State, b: Block) {
    forall r, c :: 0 <= r < 4 && 0 <= c < 4 ==> At(s, r, c) == b[r + 4 * c]
  }

  lemma LoadHolds(b: Block, s: State)
    ensures Holds(Load(b), b) && Holds(s, Unload(s))
  {
    forall r, c | 0 <= r < 4 && 0 <= c < 4
      ensures At(Load(b), r, c) == b[r + 4 * c] && At(s, r, c) == Unload(s)[r + 4 * c]
    {
      CellHolds(b, s, r, c);
    }
  }

  lemma CellHolds(b: Block, s: State, r: nat, c: nat)
    requires r < 4 && c < 4
    ensures At(Load(b), r, c) == b[r + 4 * c] && At(s, r, c) == Unload(s)[r + 4 * c]
  {
    var j := r + 4 * c;
    if j == 0 {} else if j == 1 {} else if j == 2 {} else if j == 3 {} else if j == 4 {} else if j == 5 {}
    else if j == 6 {} else if j == 7 {} else if j == 8 {} else if j == 9 {} else if j == 10 {} else if j == 11 {}
  }

  lemma {:induction false} RoundsAgree(s: State, k: Schedule, r: nat)
    requires r <= 13
    ensures Forward(s, k, r + 1) == StdRounds(s, k, r)
  {
    hide AddRoundKey, ShiftRows, SubBytes, MixColumns, Apply;
    KeysAgree(s, k, 0);
    if r > 0 {
      RoundsAgree(s, k, r - 1);
      var t := StdRounds(s, k, r - 1);
      LayersAgree(t);
      LayersAgree(SubBytes(t));
      MixesAgree(ShiftRows(SubBytes(t)));
      KeysAgree(MixColumns(ShiftRows(SubBytes(t))), k, r);
    }
  }

  lemma {:induction false} InvRoundsAgree(s: State, k: Schedule, r: nat)
    requires r <= 13
    ensures AddRoundKey(InvSubBytes(InvShiftRows(Backward(s, k, r))), k, 0) == StdInvRounds(s, k, r)
    decreases r
  {
    hide AddRoundKey, InvShiftRows, InvSubBytes, InvMixColumns, Apply;
    LayersAgree(s);
    LayersAgree(InvShiftRows(s));
    var t := InvSubBytes(InvShiftRows(s));
    KeysAgree(t, k, r);
    if r > 0 {
      MixesAgree(AddRoundKey(t, k, 4 * r));
      InvRoundsAgree(InvMixColumns(AddRoundKey(t, k, 4 * r)), k, r - 1);
    }
  }

  // ----- blocks

  predicate StdKeySize(keysize: int) { keysize == 128 || keysize == 192 || keysize == 256 }

  /** Words in the key, and rounds (figure 4 of the standard). */
  function Nk(keysize: int): nat
    requires StdKeySize(keysize)
  {
    keysize / 32
  }

  function Nr(keysize: int): nat
    requires StdKeySize(keysize)
  {
    Nk(keysize) + 6
  }

  /** aes_encrypt computes the cipher of the standard, for every block and every schedule: it is
      the only block that holds the state which the cipher makes of the block it was given. */
  lemma EncryptIsCipher(b: Block, k: Schedule, keysize: int, s: State)
    requires StdKeySize(keysize) && Holds(s, b)
    ensures Holds(StdCipher(s, k, Nr(keysize)), Encrypt(b, k, keysize))
  {
    hide Load, Unload, AddRoundKey, ShiftRows, SubBytes, Apply, Forward, StdRounds, Holds;
    var n := Nr(keysize);
    SameState(s, Load(b), b) by { LoadHolds(b, s); }
    RoundsAgree(s, k, n - 1);
    var t := Forward(s, k, n);
    LayersAgree(t);
    LayersAgree(SubBytes(t));
    KeysAgree(ShiftRows(SubBytes(t)), k, n);
    LoadHolds(b, StdCipher(s, k, n));
  }

  /** aes_decrypt computes its inverse cipher. */
  lemma DecryptIsInvCipher(b: Block, k: Schedule, keysize: int, s: State)
    requires StdKeySize(keysize) && Holds(s, b)
    ensures Holds(StdInvCipher(s, k, Nr(keysize)), Decrypt(b, k, keysize))
  {
    hide Load, Unload, AddRoundKey, InvShiftRows, InvSubBytes, Apply, Backward, StdInvRounds, Holds;
    var n := Nr(keysize);
    SameState(s, Load(b), b) by { LoadHolds(b, s); }
    KeysAgree(s, k, n);
    InvRoundsAgree(AddRoundKey(s, k, 4 * n), k, n - 1);
    LoadHolds(b, StdInvCipher(s, k, n));
  }

  lemma SameState(s: State, t: State, b: Block)
    requires Holds(s, b) && Holds(t, b)
    ensures s == t
  {
    assert At(s, 0, 0) == At(t, 0, 0) && At(s, 1, 0) == At(t, 1, 0) && At(s, 2, 0) == At(t, 2, 0)
      && At(s, 3, 0) == At(t, 3, 0);
    assert At(s, 0, 1) == At(t, 0, 1) && At(s, 1, 1) == At(t, 1, 1) && At(s, 2, 1) == At(t, 2, 1)
      && At(s, 3, 1) == At(t, 3, 1);
    assert At(s, 0, 2) == At(t, 0, 2) && At(s, 1, 2) == At(t, 1, 2) && At(s, 2, 2) == At(t, 2, 2)
      && At(s, 3, 2) == At(t, 3, 2);
    assert At(s, 0, 3) == At(t, 0, 3) && At(s, 1, 3) == At(t, 1, 3) && At(s, 2, 3) == At(t, 2, 3)
      && At(s, 3, 3) == At(t, 3, 3);
  }
}
