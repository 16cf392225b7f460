/** The layers and the cipher on a 4x4 matrix that is updated in place
    (examples/aes_encrypt/aes.c:610-1185), proved equal to the functions on values. */
module AesInPlace {
  import opened AesTables
  import opened Aes

  ghost predicate Matrix(m: array2<bv8>) { m.Length0 == 4 && m.Length1 == 4 }

  ghost function ColumnOf(m: array2<bv8>, j: nat): Column
    requires Matrix(m) && j < 4
    reads m
  {
    Column(m[0, j], m[1, j], m[2, j], m[3, j])
  }

  ghost function View(m: array2<bv8>): State
    requires Matrix(m)
    reads m
  {
    State(ColumnOf(m, 0), ColumnOf(m, 1), ColumnOf(m, 2), ColumnOf(m, 3))
  }

  method AddKeyColumn(m: array2<bv8>, j: nat, w: bv32)
    requires Matrix(m) && j < 4
    modifies m
    ensures ColumnOf(m, j) == AddColumn(old(ColumnOf(m, j)), KeyColumn(w))
    ensures forall c :: 0 <= c < 4 && c != j ==> ColumnOf(m, c) == old(ColumnOf(m, c))
  {
    var k := KeyColumn(w);
    m[0, j] := m[0, j] ^ k.b0;
    m[1, j] := m[1, j] ^ k.b1;
    m[2, j] := m[2, j] ^ k.b2;
    m[3, j] := m[3, j] ^ k.b3;
  }

  method AddRoundKeyTo(m: array2<bv8>, k: Schedule, i: nat)
    requires Matrix(m) && i + 4 <= 60
    modifies m
    ensures View(m) == AddRoundKey(old(View(m)), k, i)
  {
    hide AddColumn, KeyColumn;
    AddKeyColumn(m, 0, k[i]);
    AddKeyColumn(m, 1, k[i + 1]);
    AddKeyColumn(m, 2, k[i + 2]);
    AddKeyColumn(m, 3, k[i + 3]);
  }

  method SetColumn(m: array2<bv8>, j: nat, c: Column)
    requires Matrix(m) && j < 4
    modifies m
    ensures ColumnOf(m, j) == c && forall i :: 0 <= i < 4 && i != j ==> ColumnOf(m, i) == old(ColumnOf(m, i))
  {
    m[0, j], m[1, j], m[2, j], m[3, j] := c.b0, c.b1, c.b2, c.b3;
  }

  method SubColumnOf(m: array2<bv8>, j: nat)
    requires Matrix(m) && j < 4
    modifies m
    ensures ColumnOf(m, j) == SubColumn(old(ColumnOf(m, j)))
    ensures forall i :: 0 <= i < 4 && i != j ==> ColumnOf(m, i) == old(ColumnOf(m, i))
  {
    hide Sbox;
    SetColumn(m, j, Column(Sbox(m[0, j]), Sbox(m[1, j]), Sbox(m[2, j]), Sbox(m[3, j])));
  }

  method SubBytesOf(m: array2<bv8>)
    requires Matrix(m)
    modifies m
    ensures View(m) == SubBytes(old(View(m)))
  {
    hide SubColumn;
    SubColumnOf(m, 0);
    SubColumnOf(m, 1);
    SubColumnOf(m, 2);
    SubColumnOf(m, 3);
  }

  method InvSubColumnOf(m: array2<bv8>, j: nat)
    requires Matrix(m) && j < 4
    modifies m
    ensures ColumnOf(m, j) == InvSubColumn(old(ColumnOf(m, j)))
    ensures forall i :: 0 <= i < 4 && i != j ==> ColumnOf(m, i) == old(ColumnOf(m, i))
  {
    hide InvSbox;
    SetColumn(m, j, Column(InvSbox(m[0, j]), InvSbox(m[1, j]), InvSbox(m[2, j]), InvSbox(m[3, j])));
  }

  method InvSubBytesOf(m: array2<bv8>)
    requires Matrix(m)
    modifies m
    ensures View(m) == InvSubBytes(old(View(m)))
  {
    hide InvSubColumn;
    InvSubColumnOf(m, 0);
    InvSubColumnOf(m, 1);
    InvSubColumnOf(m, 2);
    InvSubColumnOf(m, 3);
  }

  /** Row r turned d places to the left; the other rows stay. */
  twostate predicate Turned(m: array2<bv8>, r: nat, d: nat)
    requires Matrix(m) && r < 4 && d < 4
    reads m
  {
    && m[r, 0] == old(m[r, d]) && m[r, 1] == old(m[r, (d + 1) % 4])
    && m[r, 2] == old(m[r, (d + 2) % 4]) && m[r, 3] == old(m[r, (d + 3) % 4])
    && (forall i, j :: 0 <= i < 4 && 0 <= j < 4 && i != r ==> m[i, j] == old(m[i, j]))
  }

  method TurnByOne(m: array2<bv8>, r: nat)
    requires Matrix(m) && r < 4
    modifies m
    ensures Turned(m, r, 1)
  {
    var t := m[r, 0];
    m[r, 0] := m[r, 1];
    m[r, 1] := m[r, 2];
    m[r, 2] := m[r, 3];
    m[r, 3] := t;
  }

  method TurnByTwo(m: array2<bv8>, r: nat)
    requires Matrix(m) && r < 4
    modifies m
    ensures Turned(m, r, 2)
  {
    var t := m[r, 0];
    m[r, 0] := m[r, 2];
    m[r, 2] := t;
    t := m[r, 1];
    m[r, 1] := m[r, 3];
    m[r, 3] := t;
  }

  method TurnByThree(m: array2<bv8>, r: nat)
    requires Matrix(m) && r < 4
    modifies m
    ensures Turned(m, r, 3)
  {
    var t := m[r, 0];
    m[r, 0] := m[r, 3];
    m[r, 3] := m[r, 2];
    m[r, 2] := m[r, 1];
    m[r, 1] := t;
  }

  method ShiftRowsOf(m: array2<bv8>)
    requires Matrix(m)
    modifies m
    ensures View(m) == ShiftRows(old(View(m)))
  {
    TurnByOne(m, 1);
    TurnByTwo(m, 2);
    TurnByThree(m, 3);
  }

  /** Turning right by one is turning left by three, and the other way round. */
  method InvShiftRowsOf(m: array2<bv8>)
    requires Matrix(m)
    modifies m
    ensures View(m) == InvShiftRows(old(View(m)))
  {
    TurnByThree(m, 1);
    TurnByTwo(m, 2);
    TurnByOne(m, 3);
  }

  /** One column, from a copy, since each new byte needs all the old ones. */
  method MixColumnOf(m: array2<bv8>, j: nat)
    requires Matrix(m) && j < 4
    modifies m
    ensures ColumnOf(m, j) == MixColumn(old(ColumnOf(m, j)))
    ensures forall i :: 0 <= i < 4 && i != j ==> ColumnOf(m, i) == old(ColumnOf(m, i))
  {
    hide MixColumn;
    SetColumn(m, j, MixColumn(Column(m[0, j], m[1, j], m[2, j], m[3, j])));
  }

  method InvMixColumnOf(m: array2<bv8>, j: nat)
    requires Matrix(m) && j < 4
    modifies m
    ensures ColumnOf(m, j) == InvMixColumn(old(ColumnOf(m, j)))
    ensures forall i :: 0 <= i < 4 && i != j ==> ColumnOf(m, i) == old(ColumnOf(m, i))
  {
    hide InvMixColumn;
    SetColumn(m, j, InvMixColumn(Column(m[0, j], m[1, j], m[2, j], m[3, j])));
  }

  method MixColumnsOf(m: array2<bv8>)
    requires Matrix(m)
    modifies m
    ensures View(m) == MixColumns(old(View(m)))
  {
    hide MixColumn;
    MixColumnOf(m, 0);
    MixColumnOf(m, 1);
    MixColumnOf(m, 2);
    MixColumnOf(m, 3);
  }

  method InvMixColumnsOf(m: array2<bv8>)
    requires Matrix(m)
    modifies m
    ensures View(m) == InvMixColumns(old(View(m)))
  {
    hide InvMixColumn;
    InvMixColumnOf(m, 0);
    InvMixColumnOf(m, 1);
    InvMixColumnOf(m, 2);
    InvMixColumnOf(m, 3);
  }

  /** One full round of the cipher. */
  method Round(m: array2<bv8>, k: Schedule, i: nat)
    requires Matrix(m) && i + 4 <= 60
    modifies m
    ensures View(m) == AddRoundKey(MixColumns(ShiftRows(SubBytes(old(View(m))))), k, i)
  {
    hide View, AddRoundKey, ShiftRows, SubBytes, MixColumns;
    SubBytesOf(m);
    ShiftRowsOf(m);
    MixColumnsOf(m);
    AddRoundKeyTo(m, k, i);
  }

  method LastRound(m: array2<bv8>, k: Schedule, i: nat)
    requires Matrix(m) && i + 4 <= 60
    modifies m
    ensures View(m) == AddRoundKey(ShiftRows(SubBytes(old(View(m)))), k, i)
  {
    hide View, AddRoundKey, ShiftRows, SubBytes;
    SubBytesOf(m);
    ShiftRowsOf(m);
    AddRoundKeyTo(m, k, i);
  }

  /** One full round of the inverse cipher. */
  method InvRound(m: array2<bv8>, k: Schedule, i: nat)
    requires Matrix(m) && i + 4 <= 60
    modifies m
    ensures View(m) == InvMixColumns(AddRoundKey(InvSubBytes(InvShiftRows(old(View(m)))), k, i))
  {
    hide View, AddRoundKey, InvShiftRows, InvSubBytes, InvMixColumns;
    InvShiftRowsOf(m);
    InvSubBytesOf(m);
    AddRoundKeyTo(m, k, i);
    InvMixColumnsOf(m);
  }

  method LoadInto(b: Block) returns (m: array2<bv8>)
    ensures Matrix(m) && fresh(m) && View(m) == Load(b)
  {
    m := new bv8[4, 4];
    SetColumn(m, 0, Column(b[0], b[1], b[2], b[3]));
    SetColumn(m, 1, Column(b[4], b[5], b[6], b[7]));
    SetColumn(m, 2, Column(b[8], b[9], b[10], b[11]));
    SetColumn(m, 3, Column(b[12], b[13], b[14], b[15]));
  }

  method UnloadFrom(m: array2<bv8>) returns (b: Block)
    requires Matrix(m)
    ensures b == Unload(View(m))
  {
    b := [m[0, 0], m[1, 0], m[2, 0], m[3, 0], m[0, 1], m[1, 1], m[2, 1], m[3, 1],
          m[0, 2], m[1, 2], m[2, 2], m[3, 2], m[0, 3], m[1, 3], m[2, 3], m[3, 3]];
  }

  /** aes_encrypt: the nine rounds all key sizes share, then those the size asks for. */
  method EncryptBlock(b: Block, k: Schedule, keysize: int) returns (out: Block)
    ensures out == Encrypt(b, k, keysize)
  {
    hide View, AddRoundKey, ShiftRows, SubBytes, MixColumns, Load, Unload;
    ghost var s := Load(b);
    var m := LoadInto(b);
    AddRoundKeyTo(m, k, 0);
    FirstRounds(m, k, s);
    if keysize != 128 {
      Round(m, k, 40);
      assert View(m) == Forward(s, k, 11);
      Round(m, k, 44);
      assert View(m) == Forward(s, k, 12);
      if keysize != 192 {
        Round(m, k, 48);
        assert View(m) == Forward(s, k, 13);
        Round(m, k, 52);
        assert View(m) == Forward(s, k, 14);
        LastRound(m, k, 56);
      } else {
        LastRound(m, k, 48);
      }
    } else {
      LastRound(m, k, 40);
    }
    out := UnloadFrom(m);
  }

  method FirstRounds(m: array2<bv8>, k: Schedule, ghost s: State)
    requires Matrix(m) && View(m) == AddRoundKey(s, k, 0)
    modifies m
    ensures View(m) == Forward(s, k, 10)
  {
    hide View, AddRoundKey, ShiftRows, SubBytes, MixColumns;
    Round(m, k, 4);
    assert View(m) == Forward(s, k, 2);
    Round(m, k, 8);
    assert View(m) == Forward(s, k, 3);
    Round(m, k, 12);
    assert View(m) == Forward(s, k, 4);
    Round(m, k, 16);
    assert View(m) == Forward(s, k, 5);
    Round(m, k, 20);
    assert View(m) == Forward(s, k, 6);
    Round(m, k, 24);
    assert View(m) == Forward(s, k, 7);
    Round(m, k, 28);
    assert View(m) == Forward(s, k, 8);
    Round(m, k, 32);
    assert View(m) == Forward(s, k, 9);
    Round(m, k, 36);
    assert View(m) == Forward(s, k, 10);
  }

  /** aes_decrypt. */
  method DecryptBlock(b: Block, k: Schedule, keysize: int) returns (out: Block)
    ensures out == Decrypt(b, k, keysize)
  {
    hide View, AddRoundKey, InvShiftRows, InvSubBytes, InvMixColumns, Load, Unload;
    var m := LoadInto(b);
    ghost var goal := Backward(AddRoundKey(Load(b), k, 4 * DecryptRounds(keysize)), k, DecryptRounds(keysize) - 1);
    if keysize > 128 {
      if keysize > 192 {
        AddRoundKeyTo(m, k, 56);
        InvRound(m, k, 52);
        InvRound(m, k, 48);
      } else {
        AddRoundKeyTo(m, k, 48);
      }
      assert goal == Backward(View(m), k, 11);
      InvRound(m, k, 44);
      InvRound(m, k, 40);
    } else {
      AddRoundKeyTo(m, k, 40);
    }
    LastInvRounds(m, k, goal);
    InvShiftRowsOf(m);
    InvSubBytesOf(m);
    AddRoundKeyTo(m, k, 0);
    out := UnloadFrom(m);
  }

  method LastInvRounds(m: array2<bv8>, k: Schedule, ghost goal: State)
    requires Matrix(m) && goal == Backward(View(m), k, 9)
    modifies m
    ensures View(m) == goal
  {
    hide View, AddRoundKey, InvShiftRows, InvSubBytes, InvMixColumns;
    InvRound(m, k, 36);
    InvRound(m, k, 32);
    assert goal == Backward(View(m), k, 7);
    InvRound(m, k, 28);
    InvRound(m, k, 24);
    assert goal == Backward(View(m), k, 5);
    InvRound(m, k, 20);
    InvRound(m, k, 16);
    assert goal == Backward(View(m), k, 3);
    InvRound(m, k, 12);
    InvRound(m, k, 8);
    assert goal == Backward(View(m), k, 1);
    InvRound(m, k, 4);
    assert goal == Backward(View(m), k, 0);
  }
}
