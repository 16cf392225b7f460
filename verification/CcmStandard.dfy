/** CCM as section 6 and appendix A of NIST SP 800-38C define it, and where the code
    (examples/aes_encrypt/aes.c:373-555) agrees with it. */
module CcmStandard {
  import opened Common
  import opened Aes
  import opened AesModes

  /** [n] in `width` octets, most significant first. */
  function BigEndian(n: nat, width: nat): (r: Bytes)
    ensures |r| == width
    decreases width
  {
    if width == 0 then [] else BigEndian(n / 256, width - 1) + [LowByte(n)]
  }

  /** The number of octets that hold the length of the payload. */
  function LengthOctets(nonce: Bytes): nat
    requires |nonce| <= 13
  {
    15 - |nonce|
  }

  /** Appendix A.2.1: the first block. */
  function StdFirst(assocLen: nat, payloadLen: nat, macLen: nat, nonce: Bytes): Block
    requires |nonce| <= 13 && macLen >= 2
  {
    var q := LengthOctets(nonce);
    var flags := (if assocLen > 0 then 64 else 0) + 8 * ((macLen - 2) / 2) + (q - 1);
    [LowByte(flags)] + nonce + BigEndian(payloadLen, q)
  }

  /** As few zeros as fill up the last block. */
  function Padded(s: Bytes): (r: Bytes)
    ensures |r| % BLOCK == 0
  {
    s + Zeros(Pad(|s|))
  }

  /** Appendix A.2.2, for lengths below 2^16 - 2^8: nothing at all for no associated data. */
  function StdAssoc(assoc: Bytes): (r: Bytes)
    ensures |r| % BLOCK == 0
  {
    if assoc == [] then [] else Padded(BigEndian(|assoc|, 2) + assoc)
  }

  function StdFormatted(payload: Bytes, assoc: Bytes, nonce: Bytes, macLen: nat): (r: Bytes)
    requires |nonce| <= 13 && macLen >= 2
    ensures |r| % BLOCK == 0 && r != []
  {
    Joined(StdFirst(|assoc|, |payload|, macLen, nonce), StdAssoc(assoc), Padded(payload))
  }

  /** Appendix A.3: the i-th counter block. */
  function StdCounter(nonce: Bytes, i: nat): Block
    requires |nonce| <= 13
  {
    var q := LengthOctets(nonce);
    [LowByte(q - 1)] + nonce + BigEndian(i, q)
  }

  /** Section 6.1: octet i of the payload meets octet i % 16 of the encrypted counter block
      i / 16 + 1, the MAC the one of counter block zero. */
  ghost predicate StdEncryption(c: Bytes, payload: Bytes, assoc: Bytes, nonce: Bytes, macLen: nat, e: OnBlocks)
    requires |nonce| <= 13 && 2 <= macLen <= BLOCK
  {
    var mac := CbcMac(StdFormatted(payload, assoc, nonce, macLen), e, Zeros(BLOCK));
    && |c| == |payload| + macLen
    && (forall i :: 0 <= i < |payload| ==> c[i] == payload[i] ^ e(StdCounter(nonce, i / BLOCK + 1))[i % BLOCK])
    && (forall i :: 0 <= i < macLen ==> c[|payload| + i] == mac[i] ^ e(StdCounter(nonce, 0))[i])
  }

  // ----- numbers and octets

  lemma {:induction false} BigEndianValue(n: nat, width: nat)
    requires n < Pow256(width)
    ensures Num(BigEndian(n, width)) == n
    decreases width
  {
    if width > 0 {
      BigEndianValue(n / 256, width - 1);
      NumAppend(BigEndian(n / 256, width - 1), LowByte(n));
    }
  }

  /** Strings of the same length with the same value are the same. */
  lemma {:induction false} NumInjective(a: Bytes, b: Bytes)
    requires |a| == |b| && Num(a) == Num(b)
    ensures a == b
    decreases |a|
  {
    if a != [] {
      var n := |a| - 1;
      ByteOf(a[n], b[n], Num(a[..n]), Num(b[..n]));
      NumInjective(a[..n], b[..n]);
      assert a == a[..n] + [a[n]] && b == b[..n] + [b[n]];
    }
  }

  lemma ByteOf(x: bv8, y: bv8, m: nat, n: nat)
    requires 256 * m + x as int == 256 * n + y as int
    ensures x == y && m == n
  {
    ByteRange(x);
    ByteRange(y);
    assert x as int == y as int;
    SameByte(x, y);
  }

  lemma ByteRange(x: bv8)
    ensures 0 <= x as int < 256
  {}

  lemma SameByte(x: bv8, y: bv8)
    requires x as int == y as int
    ensures x == y
  {}

  lemma {:induction false} ZeroOctets(width: nat)
    ensures BigEndian(0, width) == Zeros(width)
  {
    if width > 0 { ZeroOctets(width - 1); }
  }

  /** Two octets hold what a longer field holds of a small number. */
  lemma {:induction false} SmallOctets(n: nat, width: nat)
    requires width >= 2 && n < 65536
    ensures BigEndian(n, width) == Zeros(width - 2) + [LowByte(n / 256), LowByte(n)]
    decreases width
  {
    assert BigEndian(n, 2) == BigEndian(n / 256, 1) + [LowByte(n)];
    assert BigEndian(n / 256, 1) == BigEndian(n / 256 / 256, 0) + [LowByte(n / 256)];
    ZeroOctets(width - 2);
    assert n / 256 / 256 == 0;
    assert BigEndian(n, width) == BigEndian(n / 256, width - 1) + [LowByte(n)];
    assert BigEndian(n / 256, width - 1) == BigEndian(n / 256 / 256, width - 2) + [LowByte(n / 256)];
  }

  lemma LowBytesOf(n: nat)
    ensures LowByte(n) == LowByte(n % 65536) && LowByte(n / 256) == LowByte(n % 65536 / 256)
  {
    hide LowByte;
    LowSixteen(n);
    SameLowByte(n, n % 65536);
    SameLowByte(n / 256, n % 65536 / 256);
  }

  lemma LowSixteen(n: nat)
    ensures n % 256 == n % 65536 % 256 && n / 256 % 256 == n % 65536 / 256 % 256
  {}

  lemma SameLowByte(m: nat, n: nat)
    requires m % 256 == n % 256
    ensures LowByte(m) == LowByte(n)
  {}

  // ----- formatting

  /** The first block of the code is the standard's for the payload length modulo 2^16. */
  lemma FirstIs(assocLen: nat, payloadLen: nat, macLen: nat, nonce: Bytes)
    requires 7 <= |nonce| <= 13 && MacLength(macLen)
    ensures FirstFormat(assocLen, payloadLen, macLen, nonce) == StdFirst(assocLen, payloadLen % 65536, macLen, nonce)
  {
    hide LowByte, BigEndian;
    var q := LengthOctets(nonce);
    SmallOctets(payloadLen % 65536, q);
    LowBytesOf(payloadLen);
    var b := FirstFormat(assocLen, payloadLen, macLen, nonce);
    var s := StdFirst(assocLen, payloadLen % 65536, macLen, nonce);
    forall i | 0 <= i < BLOCK ensures b[i] == s[i] {}
  }

  lemma FirstAgreesIff(assocLen: nat, payloadLen: nat, macLen: nat, nonce: Bytes)
    requires 7 <= |nonce| <= 13 && MacLength(macLen) && payloadLen < Pow256(LengthOctets(nonce))
    ensures
      FirstFormat(assocLen, payloadLen, macLen, nonce) == StdFirst(assocLen, payloadLen, macLen, nonce)
      <==> payloadLen < 65536
  {
    hide LowByte, Pow256, FirstFormat, BigEndian, Num;
    var q := LengthOctets(nonce);
    FirstIs(assocLen, payloadLen, macLen, nonce);
    var b := FirstFormat(assocLen, payloadLen, macLen, nonce);
    var s := StdFirst(assocLen, payloadLen, macLen, nonce);
    if payloadLen >= 65536 {
      BigEndianValue(payloadLen, q);
      BigEndianValue(payloadLen % 65536, q);
      assert b[1 + |nonce|..] == BigEndian(payloadLen % 65536, q) && s[1 + |nonce|..] == BigEndian(payloadLen, q);
    }
  }

  /** The associated data are formatted alike iff there are some and they do not end with a
      block; otherwise the code adds a block of zeros. */
  lemma AssocAgreesIff(assoc: Bytes)
    requires |assoc| <= 32768
    ensures FormatAssoc(assoc) == StdAssoc(assoc) <==> assoc != [] && (|assoc| + 2) % BLOCK != 0
    ensures FormatAssoc(assoc) != StdAssoc(assoc) ==> |FormatAssoc(assoc)| != |StdAssoc(assoc)|
  {
    hide LowByte;
    SmallOctets(|assoc|, 2);
    assert Zeros(0) + [LowByte(|assoc| / 256), LowByte(|assoc|)] == [LowByte(|assoc| / 256), LowByte(|assoc|)];
  }

  /** The formatted data agree with the standard exactly when there are associated data that
      do not fill their last block, and the payload is shorter than 2^16. */
  lemma FormatAgreesIff(payload: Bytes, assoc: Bytes, nonce: Bytes, macLen: nat)
    requires 7 <= |nonce| <= 13 && MacLength(macLen) && |assoc| <= 32768
    requires |payload| < Pow256(LengthOctets(nonce))
    ensures
      Formatted(payload, assoc, nonce, macLen) == StdFormatted(payload, assoc, nonce, macLen)
      <==> assoc != [] && (|assoc| + 2) % BLOCK != 0 && |payload| < 65536
  {
    hide FirstFormat, StdFirst, FormatAssoc, StdAssoc, Pow256;
    FirstAgreesIff(|assoc|, |payload|, macLen, nonce);
    AssocAgreesIff(assoc);
    assert FormatPayload(payload) == Padded(payload);
    var a, b := Formatted(payload, assoc, nonce, macLen), StdFormatted(payload, assoc, nonce, macLen);
    assert a[..BLOCK] == FirstFormat(|assoc|, |payload|, macLen, nonce);
    assert b[..BLOCK] == StdFirst(|assoc|, |payload|, macLen, nonce);
  }

  // ----- counters

  lemma FirstCounterIsZero(nonce: Bytes)
    requires 7 <= |nonce| <= 13
    ensures FirstCounter(nonce) == StdCounter(nonce, 0)
  {
    ZeroOctets(LengthOctets(nonce));
    assert (14 - |nonce|) % 8 == LengthOctets(nonce) - 1;
  }

  lemma {:induction false} NumConcat(a: Bytes, b: Bytes)
    ensures Num(a + b) == Num(a) * Pow256(|b|) + Num(b)
    decreases |b|
  {
    if b == [] {
      assert a + b == a;
    } else {
      var n := |b| - 1;
      NumConcat(a, b[..n]);
      assert a + b == (a + b[..n]) + [b[n]];
      NumAppend(a + b[..n], b[n]);
      Scale(Num(a), Pow256(n));
    }
  }

  lemma Scale(x: nat, p: nat)
    ensures 256 * (x * p) == x * (256 * p)
  {}

  /** Counter block i is counter block zero plus i. */
  lemma CounterValue(nonce: Bytes, i: nat)
    requires |nonce| <= 13 && i < Pow256(LengthOctets(nonce))
    ensures Num(StdCounter(nonce, i)) == Num(StdCounter(nonce, 0)) + i
  {
    hide Pow256, Num, LowByte;
    var q := LengthOctets(nonce);
    var head := [LowByte(q - 1)] + nonce;
    NumConcat(head, BigEndian(i, q));
    NumConcat(head, BigEndian(0, q));
    BigEndianValue(i, q);
    BigEndianValue(0, q);
  }

  /** Counting over all sixteen octets, as the code does, stays within the counter's field. */
  lemma CountsAlike(nonce: Bytes, j: nat)
    requires |nonce| <= 13 && j + 1 < Pow256(LengthOctets(nonce))
    ensures CounterAt(StdCounter(nonce, 1), j) == StdCounter(nonce, j + 1)
  {
    hide Pow256, Num, StdCounter, CounterAt;
    CounterValue(nonce, 1);
    CounterValue(nonce, j + 1);
    CounterCounts(StdCounter(nonce, 1), j);
    NumBound(StdCounter(nonce, j + 1));
    Pow256Of16();
    NumInjective(CounterAt(StdCounter(nonce, 1), j), StdCounter(nonce, j + 1));
  }

  /** With a counter of at least one octet, incrementing counter block zero gives block one. */
  lemma FirstIncrement(nonce: Bytes, size: int)
    requires 7 <= |nonce| <= 13 && 1 <= size <= BLOCK
    ensures Increment(StdCounter(nonce, 0), size) == StdCounter(nonce, 1)
  {
    hide BigEndian;
    var q := LengthOctets(nonce);
    ZeroOctets(q);
    SmallOctets(1, q);
    SmallOctets(0, q);
    OneAndZero();
    var z, o := StdCounter(nonce, 0), StdCounter(nonce, 1);
    assert z[15] == 0 && o == z[15 := 1];
    assert Increment(z, size) == z[15 := z[15] + 1];
  }

  lemma OneAndZero()
    ensures LowByte(0) == 0 && LowByte(1) == 1 && LowByte(1 / 256) == 0 && LowByte(0 / 256) == 0
  {
    assert ByteFor(0) == 0;
    assert ByteFor(1) == 1;
  }

  /** The payload starts from counter block one, as the standard says, exactly for MACs of at
      most 14 octets; with 16 octets it starts from the block that encrypts the MAC. */
  lemma PayloadCounterIff(nonce: Bytes, macLen: nat)
    requires 7 <= |nonce| <= 13 && MacLength(macLen)
    ensures PayloadCounter(nonce, macLen) == StdCounter(nonce, 1) <==> macLen <= 14
    ensures PayloadCounter(nonce, macLen) == FirstCounter(nonce) <==> macLen == 16
  {
    hide StdCounter, FirstCounter;
    FirstCounterIsZero(nonce);
    BlocksDiffer(nonce);
    if macLen <= 14 { FirstIncrement(nonce, BLOCK - 1 - macLen); }
  }

  lemma BlocksDiffer(nonce: Bytes)
    requires 7 <= |nonce| <= 13
    ensures StdCounter(nonce, 0) != StdCounter(nonce, 1)
  {
    PowAtLeast(LengthOctets(nonce));
    CounterValue(nonce, 1);
  }

  lemma {:induction false} PowAtLeast(q: nat)
    requires q >= 1
    ensures Pow256(q) >= 256
  {
    if q > 1 { PowAtLeast(q - 1); }
  }

  // ----- conformance

  /** Where formatting and counters agree, so do the ciphertexts, for every cipher. */
  lemma CcmConforms(payload: Bytes, assoc: Bytes, nonce: Bytes, macLen: nat, e: OnBlocks)
    requires 7 <= |nonce| <= 13 && MacLength(macLen) && macLen <= 14
    requires 0 < |assoc| <= 32768 && (|assoc| + 2) % BLOCK != 0
    requires |payload| < 65536 && |payload| < Pow256(LengthOctets(nonce))
    ensures CcmEncrypt(payload, assoc, nonce, macLen, e).Some?
    ensures StdEncryption(CcmEncrypt(payload, assoc, nonce, macLen, e).value, payload, assoc, nonce, macLen, e)
  {
    hide Ctr, Formatted, StdFormatted, FirstCounter, StdCounter, PayloadCounter, Pow256, CounterAt, CbcMac;
    FormatAgreesIff(payload, assoc, nonce, macLen);
    PayloadCounterIff(nonce, macLen);
    FirstCounterIsZero(nonce);
    var c, n := CcmEncrypt(payload, assoc, nonce, macLen, e).value, |payload|;
    var mac := Mac(payload, assoc, nonce, macLen, e);
    forall i | 0 <= i < n ensures c[i] == payload[i] ^ e(StdCounter(nonce, i / BLOCK + 1))[i % BLOCK] {
      CtrBytewise(payload, e, StdCounter(nonce, 1), i);
      CountsAlike(nonce, i / BLOCK);
    }
    forall i | 0 <= i < macLen ensures c[n + i] == mac[i] ^ e(StdCounter(nonce, 0))[i] {
      CtrFirst(mac[..macLen], e, FirstCounter(nonce), i);
    }
  }

  /** With a MAC of 16 octets the first block of the payload and the MAC meet the same key
      stream: their ciphertexts differ exactly as they do themselves. */
  lemma KeyStreamReused(payload: Bytes, assoc: Bytes, nonce: Bytes, e: OnBlocks, i: nat)
    requires 7 <= |nonce| <= 13 && |assoc| <= 32768 && i < |payload| && i < BLOCK
    ensures CcmEncrypt(payload, assoc, nonce, 16, e).Some?
    ensures
      var c := CcmEncrypt(payload, assoc, nonce, 16, e).value;
      && |c| == |payload| + BLOCK
      && c[i] ^ c[|payload| + i] == payload[i] ^ Mac(payload, assoc, nonce, 16, e)[i]
  {
    hide Ctr, Mac, FirstCounter, PayloadCounter;
    PayloadCounterIff(nonce, 16);
    var mac := Mac(payload, assoc, nonce, 16, e);
    CtrFirst(payload, e, FirstCounter(nonce), i);
    CtrFirst(mac[..16], e, FirstCounter(nonce), i);
    SameMask(payload[i], mac[i], e(FirstCounter(nonce))[i]);
  }

  lemma SameMask(x: bv8, y: bv8, k: bv8)
    ensures (x ^ k) ^ (y ^ k) == x ^ y
  {}
}
