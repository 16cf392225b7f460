/** The block modes (examples/aes_encrypt/aes.c:240-555): CBC and its MAC, counter mode with
    its big-endian counter, and CCM. They are defined over any cipher on blocks. */
module AesModes {
  import opened Common
  import opened Aes
  import Arith

  type Bytes = seq<bv8>

  type OnBlocks = Block -> Block

  // ----- xor

  /** a combined with as many bytes of b. */
  function Xor(a: Bytes, b: Bytes): (r: Bytes)
    requires |a| <= |b|
    ensures |r| == |a| && forall i :: 0 <= i < |a| ==> r[i] == a[i] ^ b[i]
  {
    seq(|a|, i requires 0 <= i < |a| => a[i] ^ b[i])
  }

  lemma XorByteTwice(x: bv8, y: bv8)
    ensures (x ^ y) ^ y == x
  {}

  lemma XorTwice(a: Bytes, b: Bytes)
    requires |a| <= |b|
    ensures Xor(Xor(a, b), b) == a
  {
    forall i | 0 <= i < |a| ensures Xor(Xor(a, b), b)[i] == a[i] { XorByteTwice(a[i], b[i]); }
  }

  // ----- CBC

  function CbcEncrypt(p: Bytes, e: OnBlocks, iv: Block): (c: Bytes)
    requires |p| % BLOCK == 0
    ensures |c| == |p|
    decreases |p|
  {
    if p == [] then []
    else
      var c := e(Xor(p[..BLOCK], iv));
      c + CbcEncrypt(p[BLOCK..], e, c)
  }

  function CbcDecrypt(c: Bytes, d: OnBlocks, iv: Block): (p: Bytes)
    requires |c| % BLOCK == 0
    ensures |p| == |c|
    decreases |c|
  {
    if c == [] then []
    else Xor(d(c[..BLOCK]), iv) + CbcDecrypt(c[BLOCK..], d, c[..BLOCK])
  }

  ghost predicate Inverts(d: OnBlocks, e: OnBlocks) { forall b :: d(e(b)) == b }

  /** CBC decryption inverts CBC encryption for any number of blocks. */
  lemma {:induction false} CbcUndone(p: Bytes, e: OnBlocks, d: OnBlocks, iv: Block)
    requires |p| % BLOCK == 0 && Inverts(d, e)
    ensures CbcDecrypt(CbcEncrypt(p, e, iv), d, iv) == p
    decreases |p|
  {
    if p != [] {
      var x := Xor(p[..BLOCK], iv);
      var c := e(x);
      var all := CbcEncrypt(p, e, iv);
      assert all[..BLOCK] == c && all[BLOCK..] == CbcEncrypt(p[BLOCK..], e, c);
      assert d(c) == x;
      XorTwice(p[..BLOCK], iv);
      CbcUndone(p[BLOCK..], e, d, c);
      assert p == p[..BLOCK] + p[BLOCK..];
    }
  }

  /** The last block of the chain. */
  function CbcMac(p: Bytes, e: OnBlocks, iv: Block): Block
    requires |p| % BLOCK == 0 && p != []
    decreases |p|
  {
    var c := e(Xor(p[..BLOCK], iv));
    if |p| == BLOCK then c else CbcMac(p[BLOCK..], e, c)
  }

  /** The MAC is the last block that CBC encryption gives. */
  lemma {:induction false} CbcMacIsLast(p: Bytes, e: OnBlocks, iv: Block)
    requires |p| % BLOCK == 0 && p != []
    ensures CbcMac(p, e, iv) == CbcEncrypt(p, e, iv)[|p| - BLOCK..]
    decreases |p|
  {
    var c := e(Xor(p[..BLOCK], iv));
    if |p| > BLOCK { CbcMacIsLast(p[BLOCK..], e, c); }
  }

  // ----- the counter

  /** The big-endian value of a string of bytes. */
  function Num(s: Bytes): nat {
    if s == [] then 0 else 256 * Num(s[..|s| - 1]) + s[|s| - 1] as int
  }

  function Pow256(n: nat): (r: nat)
    ensures r > 0
  {
    if n == 0 then 1 else 256 * Pow256(n - 1)
  }

  /** increment_iv at byte idx, where byte `low` is the first of the counter. */
  function Carry(iv: Block, idx: int, low: int): (r: Block)
    requires idx < BLOCK && 0 <= low
    decreases idx + 1
  {
    if idx < low then iv
    else
      var next := iv[idx := iv[idx] + 1];
      if next[idx] != 0 || idx == low then next else Carry(next, idx - 1, low)
  }

  /** A counter size below one, which CCM asks for with its longest MACs, changes nothing. */
  function Increment(iv: Block, counterSize: int): Block
    requires counterSize <= BLOCK
  {
    Carry(iv, BLOCK - 1, BLOCK - counterSize)
  }

  lemma ByteIncrement(b: bv8)
    ensures if b + 1 == 0 then b as int == 255 else (b + 1) as int == b as int + 1
  {}

  lemma NumAppend(s: Bytes, b: bv8)
    ensures Num(s + [b]) == 256 * Num(s) + b as int
  {
    assert (s + [b])[..|s|] == s;
  }

  lemma {:induction false} NumBound(s: Bytes)
    ensures Num(s) < Pow256(|s|)
  {
    if s != [] { NumBound(s[..|s| - 1]); }
  }

  lemma {:induction false} CarryFrame(iv: Block, idx: int, low: int)
    requires idx < BLOCK && 0 <= low
    ensures forall i :: 0 <= i < BLOCK && (i < low || idx < i) ==> Carry(iv, idx, low)[i] == iv[i]
    decreases idx + 1
  {
    if idx >= low {
      var next := iv[idx := iv[idx] + 1];
      if next[idx] == 0 && idx != low { CarryFrame(next, idx - 1, low); }
    }
  }

  /** n + 1 modulo m, for n below m. */
  function Next(n: nat, m: nat): nat { if n + 1 == m then 0 else n + 1 }

  lemma NextIsModulo(n: nat, m: nat)
    requires n < m
    ensures Next(n, m) == (n + 1) % m
  {
    if n + 1 == m { Arith.SelfMod(m); }
  }

  /** How the successor of a number follows from its last byte. */
  lemma NextByBytes(n: nat, b: nat, m: nat)
    requires n < m && b < 256
    ensures Next(256 * n + b, 256 * m) == if b < 255 then 256 * n + b + 1 else 256 * Next(n, m)
  {}

  /** The carry adds one to the bytes from `low` to idx, modulo their size. */
  lemma {:induction false} CarryAdds(iv: Block, idx: int, low: int)
    requires 0 <= low <= idx < BLOCK
    ensures Num(Carry(iv, idx, low)[low..idx + 1]) == Next(Num(iv[low..idx + 1]), Pow256(idx + 1 - low))
    decreases idx + 1
  {
    hide Num, Next;
    var r := Carry(iv, idx, low);
    NumBound(iv[low..idx]);
    NextByBytes(Num(iv[low..idx]), iv[idx] as int, Pow256(idx - low));
    var next: Block := iv[idx := iv[idx] + 1];
    ByteIncrement(iv[idx]);
    SplitLast(iv, low, idx);
    SplitLast(next, low, idx);
    SplitLast(r, low, idx);
    assert next[low..idx] == iv[low..idx];
    if next[idx] == 0 {
      NumEmpty();
      if idx == low {
        assert iv[low..idx] == [];
        NextOfZero();
      } else {
        CarryAdds(next, idx - 1, low);
        CarryFrame(next, idx - 1, low);
      }
    }
  }

  lemma NextOfZero()
    ensures Next(0, 1) == 0
  {}

  lemma NumEmpty()
    ensures Num([]) == 0
  {}

  lemma SplitLast(b: Block, low: int, idx: int)
    requires 0 <= low <= idx < BLOCK
    ensures Num(b[low..idx + 1]) == 256 * Num(b[low..idx]) + b[idx] as int
  {
    assert b[low..idx + 1] == b[low..idx] + [b[idx]];
    NumAppend(b[low..idx], b[idx]);
  }

  /** increment_iv adds one to the last counterSize bytes, modulo 256^counterSize, and keeps
      the others. */
  lemma IncrementAdds(iv: Block, counterSize: int)
    requires 0 <= counterSize <= BLOCK
    ensures var low := BLOCK - counterSize; Increment(iv, counterSize)[..low] == iv[..low]
    ensures
      var low := BLOCK - counterSize;
      Num(Increment(iv, counterSize)[low..])
      == Next(Num(iv[low..]), Pow256(counterSize))
      == (Num(iv[low..]) + 1) % Pow256(counterSize)
  {
    hide Pow256, Num, Carry, Next;
    var low := BLOCK - counterSize;
    CarryFrame(iv, BLOCK - 1, low);
    NumBound(iv[low..]);
    NextIsModulo(Num(iv[low..]), Pow256(counterSize));
    if counterSize == 0 {
      EmptyCounter(iv);
    } else {
      CarryAdds(iv, BLOCK - 1, low);
      assert Increment(iv, counterSize)[low..] == Increment(iv, counterSize)[low..BLOCK] && iv[low..] == iv[low..BLOCK];
    }
  }

  lemma EmptyCounter(iv: Block)
    ensures Num(Increment(iv, 0)[BLOCK..]) == Next(Num(iv[BLOCK..]), Pow256(0))
  {
    assert iv[BLOCK..] == [];
  }

  // ----- counter mode

  function Ctr(p: Bytes, e: OnBlocks, iv: Block): (c: Bytes)
    ensures |c| == |p|
    decreases |p|
  {
    if |p| <= BLOCK then Xor(p, e(iv))
    else Xor(p[..BLOCK], e(iv)) + Ctr(p[BLOCK..], e, Increment(iv, BLOCK))
  }

  /** The counter block of the n-th block. */
  function CounterAt(iv: Block, n: nat): Block
    decreases n
  {
    if n == 0 then iv else CounterAt(Increment(iv, BLOCK), n - 1)
  }

  const TWO128 := 0x1_0000_0000_0000_0000_0000_0000_0000_0000

  lemma Pow256Of16()
    ensures Pow256(BLOCK) == TWO128
  {
    assert Pow256(4) == 0x1_0000_0000;
    assert Pow256(8) == 0x1_0000_0000_0000_0000;
    assert Pow256(12) == 0x1_0000_0000_0000_0000_0000_0000;
  }

  /** It is the initial counter plus n modulo 2^128. */
  lemma {:induction false} CounterCounts(iv: Block, n: nat)
    ensures Num(CounterAt(iv, n)) == (Num(iv) + n) % TWO128
    decreases n
  {
    hide Increment, Pow256, Num;
    Pow256Of16();
    NumBound(iv);
    if n > 0 {
      var next := Increment(iv, BLOCK);
      IncrementAdds(iv, BLOCK);
      assert iv[0..] == iv && next[0..] == next;
      CounterCounts(next, n - 1);
    }
  }

  lemma BlockBefore(i: nat)
    requires i >= BLOCK
    ensures (i - BLOCK) / BLOCK == i / BLOCK - 1 && (i - BLOCK) % BLOCK == i % BLOCK
  {}

  /** Byte i of the output is byte i of the input combined with byte i % 16 of the encrypted
      counter of block i / 16 (section 6.5 of NIST SP 800-38A). */
  lemma {:induction false} CtrBytewise(p: Bytes, e: OnBlocks, iv: Block, i: nat)
    requires i < |p|
    ensures Ctr(p, e, iv)[i] == p[i] ^ e(CounterAt(iv, i / BLOCK))[i % BLOCK]
    decreases |p|
  {
    hide Ctr, Increment;
    if i >= BLOCK {
      CtrLater(p, e, iv, i);
      CtrBytewise(p[BLOCK..], e, Increment(iv, BLOCK), i - BLOCK);
      BlockBefore(i);
    } else {
      CtrFirst(p, e, iv, i);
      assert i / BLOCK == 0 && i % BLOCK == i;
    }
  }

  lemma CtrFirst(p: Bytes, e: OnBlocks, iv: Block, i: nat)
    requires i < |p| && i < BLOCK
    ensures Ctr(p, e, iv)[i] == p[i] ^ e(iv)[i]
  {}

  lemma CtrLater(p: Bytes, e: OnBlocks, iv: Block, i: nat)
    requires BLOCK <= i < |p|
    ensures Ctr(p, e, iv)[i] == Ctr(p[BLOCK..], e, Increment(iv, BLOCK))[i - BLOCK]
  {
    hide Increment;
  }

  /** Counter mode undoes itself. */
  lemma CtrTwice(p: Bytes, e: OnBlocks, iv: Block)
    ensures Ctr(Ctr(p, e, iv), e, iv) == p
  {
    var c := Ctr(p, e, iv);
    forall i | 0 <= i < |p| ensures Ctr(c, e, iv)[i] == p[i] {
      CtrBytewise(p, e, iv, i);
      CtrBytewise(c, e, iv, i);
      XorByteTwice(p[i], e(CounterAt(iv, i / BLOCK))[i % BLOCK]);
    }
  }

  // ----- CCM

  function Zeros(n: nat): (r: Bytes)
    ensures |r| == n
  {
    seq(n, _ => 0)
  }

  /** The byte with a given value. */
  function ByteFor(m: nat): (b: bv8)
    requires m < 256
    ensures b as int == m
  {
    if m == 0 then 0
    else
      ByteIncrement(ByteFor(m - 1));
      ByteFor(m - 1) + 1
  }

  function LowByte(n: nat): (b: bv8)
    ensures b as int == n % 256
  {
    ByteFor(n % 256)
  }

  predicate MacLength(n: nat) { n == 4 || n == 6 || n == 8 || n == 10 || n == 12 || n == 14 || n == 16 }

  /** ccm_prepare_first_ctr_blk: flags, nonce, and a counter of zero. */
  function FirstCounter(nonce: Bytes): Block
    requires |nonce| <= 15
  {
    [LowByte((14 - |nonce|) % 8)] + nonce + Zeros(15 - |nonce|)
  }

  /** The three bits that encode the length of the MAC. */
  function MacCode(macLen: nat): nat {
    if macLen == 0 then 7 else if macLen == 1 then 0 else (macLen - 2) / 2 % 8
  }

  /** ccm_prepare_first_format_blk: flags, nonce, and the low 16 bits of the payload length,
      which a nonce of 14 or 15 bytes loses its end to. */
  function FirstFormat(assocLen: nat, payloadLen: nat, macLen: nat, nonce: Bytes): Block
    requires |nonce| <= 15
  {
    var flags := MacCode(macLen) * 8 + (14 - |nonce|) % 8 + (if assocLen > 0 then 0x40 else 0);
    var b := [LowByte(flags)] + nonce + Zeros(15 - |nonce|);
    b[15 := LowByte(payloadLen)][14 := LowByte(payloadLen / 256)]
  }

  /** Bytes that fill up the last block; a full block if it is full already. */
  function PadAlways(n: nat): (r: nat)
    ensures (n + r) % BLOCK == 0
  {
    BLOCK - n % BLOCK
  }

  function Pad(n: nat): (r: nat)
    ensures (n + r) % BLOCK == 0
  {
    if n % BLOCK == 0 then 0 else BLOCK - n % BLOCK
  }

  /** ccm_format_assoc_data; it always pads, by a whole block if need be. */
  function FormatAssoc(assoc: Bytes): (r: Bytes)
    ensures |r| % BLOCK == 0
  {
    var data := [LowByte(|assoc| / 256), LowByte(|assoc|)] + assoc;
    data + Zeros(PadAlways(|data|))
  }

  /** ccm_format_payload_data. */
  function FormatPayload(payload: Bytes): (r: Bytes)
    ensures |r| % BLOCK == 0
  {
    payload + Zeros(Pad(|payload|))
  }

  function Joined(a: Block, b: Bytes, c: Bytes): (r: Bytes)
    requires |b| % BLOCK == 0 && |c| % BLOCK == 0
    ensures |r| % BLOCK == 0 && r != []
  {
    a + b + c
  }

  function Formatted(payload: Bytes, assoc: Bytes, nonce: Bytes, macLen: nat): (r: Bytes)
    requires |nonce| <= 15
    ensures |r| % BLOCK == 0 && r != []
  {
    Joined(FirstFormat(|assoc|, |payload|, macLen, nonce), FormatAssoc(assoc), FormatPayload(payload))
  }

  /** Bytes allocated for the formatted data beyond the associated data and the input. */
  const SLACK := 48

  /** The formatted data fit the buffer of aes_encrypt_ccm, and are written within it, except
      when both paddings are longest: the associated data fill their last block, which adds
      one, and the payload ends one byte into a block. The buffer of aes_decrypt_ccm, which
      counts the MAC in, is always large enough. */
  lemma FormattedFitsIff(payload: Bytes, assoc: Bytes, nonce: Bytes, macLen: nat)
    requires |nonce| <= 15 && MacLength(macLen)
    ensures
      |Formatted(payload, assoc, nonce, macLen)| <= |payload| + |assoc| + SLACK
      <==> !((|assoc| + 2) % BLOCK == 0 && |payload| % BLOCK == 1)
    ensures |Formatted(payload, assoc, nonce, macLen)| <= |payload| + macLen + |assoc| + SLACK
  {
    var a, p := PadAlways(|assoc| + 2), Pad(|payload|);
    assert |Formatted(payload, assoc, nonce, macLen)| == BLOCK + 2 + |assoc| + a + |payload| + p;
    assert a == BLOCK <==> (|assoc| + 2) % BLOCK == 0;
    assert p == BLOCK - 1 <==> |payload| % BLOCK == 1;
  }

  /** Fourteen bytes of associated data and one of payload make 64 bytes, one too many. */
  lemma FormattedOverruns(nonce: Bytes)
    requires |nonce| <= 15
    ensures |Formatted([0], Zeros(14), nonce, 16)| == 64 == 1 + 14 + SLACK + 1
  {
    FormattedFitsIff([0], Zeros(14), nonce, 16);
  }

  function Mac(payload: Bytes, assoc: Bytes, nonce: Bytes, macLen: nat, e: OnBlocks): Block
    requires |nonce| <= 15
  {
    CbcMac(Formatted(payload, assoc, nonce, macLen), e, Zeros(BLOCK))
  }

  /** The counter the payload starts from; the code takes its size from the MAC's length. */
  function PayloadCounter(nonce: Bytes, macLen: nat): Block
    requires |nonce| <= 15
  {
    Increment(FirstCounter(nonce), BLOCK - 1 - macLen)
  }

  /** aes_encrypt_ccm; None is its FALSE. */
  function CcmEncrypt(payload: Bytes, assoc: Bytes, nonce: Bytes, macLen: nat, e: OnBlocks): Option<Bytes> {
    if !MacLength(macLen) || |nonce| < 7 || |nonce| > 13 || |assoc| > 32768 then None
    else Some(Ctr(payload, e, PayloadCounter(nonce, macLen))
              + Ctr(Mac(payload, assoc, nonce, macLen, e)[..macLen], e, FirstCounter(nonce)))
  }

  datatype Opened = Opened(plaintext: Bytes, authentic: bool)

  /** aes_decrypt_ccm with its authentication check; the payload is blanked when that fails. */
  function CcmDecrypt(c: Bytes, assoc: Bytes, nonce: Bytes, macLen: nat, e: OnBlocks): Option<Opened>
    requires |nonce| <= 15 && macLen <= BLOCK
  {
    if |c| <= macLen then None
    else
      var n := |c| - macLen;
      var p := Ctr(c[..n], e, PayloadCounter(nonce, macLen));
      var mac := Ctr(c[n..], e, FirstCounter(nonce));
      if mac == Mac(p, assoc, nonce, macLen, e)[..macLen] then Some(Opened(p, true))
      else Some(Opened(Zeros(n), false))
  }

  /** Decrypting an encrypted payload gives it back, authenticated, exactly when it is not
      empty; an empty one is refused. */
  lemma CcmUndone(payload: Bytes, assoc: Bytes, nonce: Bytes, macLen: nat, e: OnBlocks)
    requires MacLength(macLen) && 7 <= |nonce| <= 13 && |assoc| <= 32768
    ensures CcmEncrypt(payload, assoc, nonce, macLen, e).Some?
    ensures
      var c := CcmEncrypt(payload, assoc, nonce, macLen, e).value;
      && |c| == |payload| + macLen
      && CcmDecrypt(c, assoc, nonce, macLen, e) == if payload != [] then Some(Opened(payload, true)) else None
  {
    hide Ctr, Mac, FirstCounter, PayloadCounter;
    var c := CcmEncrypt(payload, assoc, nonce, macLen, e).value;
    var n := |payload|;
    var mac := Mac(payload, assoc, nonce, macLen, e)[..macLen];
    assert c[..n] == Ctr(payload, e, PayloadCounter(nonce, macLen)) && c[n..] == Ctr(mac, e, FirstCounter(nonce));
    CtrTwice(payload, e, PayloadCounter(nonce, macLen));
    CtrTwice(mac, e, FirstCounter(nonce));
  }

  /** Decryption accepts a text exactly when it is the encryption of some payload under the
      same associated data and nonce, and then returns that payload. */
  lemma CcmAcceptsIff(c: Bytes, assoc: Bytes, nonce: Bytes, macLen: nat, e: OnBlocks, p: Bytes)
    requires MacLength(macLen) && 7 <= |nonce| <= 13 && |assoc| <= 32768
    ensures
      CcmDecrypt(c, assoc, nonce, macLen, e) == Some(Opened(p, true))
      <==> p != [] && CcmEncrypt(p, assoc, nonce, macLen, e) == Some(c)
  {
    hide Ctr, Mac, FirstCounter, PayloadCounter;
    CcmUndone(p, assoc, nonce, macLen, e);
    if CcmDecrypt(c, assoc, nonce, macLen, e) == Some(Opened(p, true)) {
      var n := |c| - macLen;
      CtrTwice(c[..n], e, PayloadCounter(nonce, macLen));
      CtrTwice(c[n..], e, FirstCounter(nonce));
      assert c == c[..n] + c[n..];
    }
  }

  /** Decryption refuses texts without room for a payload. Of the others, one that is no
      encryption under the same nonce and associated data yields zeros and no authentication. */
  lemma CcmRejectsIff(c: Bytes, assoc: Bytes, nonce: Bytes, macLen: nat, e: OnBlocks)
    requires MacLength(macLen) && 7 <= |nonce| <= 13 && |assoc| <= 32768
    ensures CcmDecrypt(c, assoc, nonce, macLen, e) == None <==> |c| <= macLen
    ensures
      |c| > macLen ==>
        (CcmDecrypt(c, assoc, nonce, macLen, e) == Some(Opened(Zeros(|c| - macLen), false))
         <==> forall p: Bytes :: p != [] ==> CcmEncrypt(p, assoc, nonce, macLen, e) != Some(c))
  {
    hide Ctr, Mac, FirstCounter, PayloadCounter, CcmEncrypt;
    if |c| > macLen {
      var o := CcmDecrypt(c, assoc, nonce, macLen, e).value;
      CcmAcceptsIff(c, assoc, nonce, macLen, e, o.plaintext);
      forall p: Bytes | p != [] && CcmEncrypt(p, assoc, nonce, macLen, e) == Some(c) ensures o == Opened(p, true) {
        CcmAcceptsIff(c, assoc, nonce, macLen, e, p);
      }
      if o.authentic { assert o.plaintext != []; }
    }
  }
}
