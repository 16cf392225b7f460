/** The block modes on buffers, in place (examples/aes_encrypt/aes.c:240-367). Input and
    output may be the same buffer. */
module AesBuffers {
  import opened Aes
  import opened AesInPlace
  import opened AesModes

  /** The ciphers of a key schedule. */
  function Encrypting(k: Schedule, keysize: int): OnBlocks { (b: Block) => Encrypt(b, k, keysize) }

  function Decrypting(k: Schedule, keysize: int): OnBlocks { (b: Block) => Decrypt(b, k, keysize) }

  /** CBC over AES: what aes_decrypt_cbc recovers. */
  lemma AesCbcUndone(p: Bytes, k: Schedule, keysize: int, iv: Block)
    requires |p| % BLOCK == 0 && KeySize(keysize)
    ensures CbcDecrypt(CbcEncrypt(p, Encrypting(k, keysize), iv), Decrypting(k, keysize), iv) == p
  {
    hide Encrypt, Decrypt;
    forall b: Block ensures Decrypting(k, keysize)(Encrypting(k, keysize)(b)) == b { DecryptInverts(b, k, keysize); }
    CbcUndone(p, Encrypting(k, keysize), Decrypting(k, keysize), iv);
  }

  method Apply(b: Block, k: Schedule, keysize: int) returns (c: Block)
    ensures c == Encrypting(k, keysize)(b)
  {
    hide Encrypt;
    c := EncryptBlock(b, k, keysize);
  }

  method ApplyInverse(b: Block, k: Schedule, keysize: int) returns (c: Block)
    ensures c == Decrypting(k, keysize)(b)
  {
    hide Decrypt;
    c := DecryptBlock(b, k, keysize);
  }

  /** xor_buf into out[at..at + n]. */
  method XorInto(mask: Block, out: array<bv8>, at: nat, n: nat)
    requires n <= BLOCK && at + n <= out.Length
    modifies out
    ensures out[at..at + n] == Xor(old(out[at..at + n]), mask)
    ensures out[..at] == old(out[..at]) && out[at + n..] == old(out[at + n..])
  {
    for i := 0 to n
      invariant forall j :: 0 <= j < out.Length ==>
        out[j] == if at <= j < at + i then old(out[j]) ^ mask[j - at] else old(out[j])
    {
      out[at + i] := out[at + i] ^ mask[i];
    }
  }

  method CopyInto(src: Block, out: array<bv8>, at: nat)
    requires at + BLOCK <= out.Length
    modifies out
    ensures out[at..at + BLOCK] == src && out[..at] == old(out[..at]) && out[at + BLOCK..] == old(out[at + BLOCK..])
  {
    for i := 0 to BLOCK
      invariant forall j :: 0 <= j < out.Length ==> out[j] == if at <= j < at + i then src[j - at] else old(out[j])
    {
      out[at + i] := src[i];
    }
  }

  /** increment_iv. */
  method IncrementIv(iv: array<bv8>, counterSize: int)
    requires iv.Length == BLOCK && counterSize <= BLOCK
    modifies iv
    ensures iv[..] == Increment(old(iv[..]), counterSize)
  {
    var idx := BLOCK - 1;
    var low := BLOCK - counterSize;
    while idx >= low
      invariant -1 <= idx < BLOCK && Carry(old(iv[..]), BLOCK - 1, low) == Carry(iv[..], idx, low)
      decreases idx
    {
      ghost var was: Block := iv[..];
      iv[idx] := iv[idx] + 1;
      assert iv[..] == was[idx := was[idx] + 1];
      if iv[idx] != 0 || idx == low { return; }
      idx := idx - 1;
    }
  }

  // ----- CBC

  lemma CbcEncryptStep(p: Bytes, e: OnBlocks, chain: Block, at: nat)
    requires |p| % BLOCK == 0 && at % BLOCK == 0 && at < |p|
    ensures at + BLOCK <= |p|
    ensures
      var c := e(Xor(p[at..at + BLOCK], chain));
      CbcEncrypt(p[at..], e, chain) == c + CbcEncrypt(p[at + BLOCK..], e, c)
  {
    var rest := p[at..];
    assert rest[..BLOCK] == p[at..at + BLOCK] && rest[BLOCK..] == p[at + BLOCK..];
  }

  lemma CbcDecryptStep(c: Bytes, d: OnBlocks, chain: Block, at: nat)
    requires |c| % BLOCK == 0 && at % BLOCK == 0 && at < |c|
    ensures at + BLOCK <= |c|
    ensures
      var b := c[at..at + BLOCK];
      CbcDecrypt(c[at..], d, chain) == Xor(d(b), chain) + CbcDecrypt(c[at + BLOCK..], d, b)
  {
    var rest := c[at..];
    assert rest[..BLOCK] == c[at..at + BLOCK] && rest[BLOCK..] == c[at + BLOCK..];
  }

  /** aes_encrypt_cbc; a length that is not a multiple of the block size is refused. */
  method EncryptCbc(inp: array<bv8>, n: nat, out: array<bv8>, k: Schedule, keysize: int, iv: Block) returns (ok: bool)
    requires n <= inp.Length && n <= out.Length
    modifies out
    ensures ok <==> n % BLOCK == 0
    ensures ok ==> out[..n] == CbcEncrypt(old(inp[..n]), Encrypting(k, keysize), iv) && out[n..] == old(out[n..])
    ensures !ok ==> out[..] == old(out[..])
  {
    hide Encrypting, Xor, CbcEncrypt;
    if n % BLOCK != 0 { return false; }
    ghost var e, p := Encrypting(k, keysize), inp[..n];
    var at, chain := 0, iv;
    assert p[0..] == p;
    while at < n
      invariant at <= n && at % BLOCK == 0 && out[n..] == old(out[n..])
      invariant inp[at..n] == p[at..]
      invariant CbcEncrypt(p, e, iv) == out[..at] + CbcEncrypt(p[at..], e, chain)
    {
      CbcEncryptStep(p, e, chain, at);
      assert inp[at..at + BLOCK] == inp[at..n][..BLOCK] == p[at..at + BLOCK];
      chain := Apply(Xor(inp[at..at + BLOCK], chain), k, keysize);
      WriteBlock(chain, inp, out, at, n, p);
      at := at + BLOCK;
    }
    EndOfCbc(p, e, chain);
    ok := true;
  }

  lemma EndOfCbc(p: Bytes, e: OnBlocks, chain: Block)
    ensures CbcEncrypt(p[|p|..], e, chain) == [] == CbcDecrypt(p[|p|..], e, chain)
  {}

  /** Writes a block where the input has been read, so later input is still there. */
  method WriteBlock(b: Block, inp: array<bv8>, out: array<bv8>, at: nat, n: nat, ghost p: Bytes)
    requires at + BLOCK <= n <= inp.Length && n <= out.Length && |p| == n && inp[at..n] == p[at..]
    modifies out
    ensures out[..at + BLOCK] == old(out[..at]) + b && out[n..] == old(out[n..])
    ensures inp[at + BLOCK..n] == p[at + BLOCK..]
  {
    assert p[at + BLOCK..] == inp[at..n][BLOCK..];
    ghost var tail := out[at + BLOCK..];
    CopyInto(b, out, at);
    assert out[n..] == tail[n - at - BLOCK..];
    assert inp == out ==> out[at + BLOCK..n] == tail[..n - at - BLOCK];
  }

  /** aes_decrypt_cbc. */
  method DecryptCbc(inp: array<bv8>, n: nat, out: array<bv8>, k: Schedule, keysize: int, iv: Block) returns (ok: bool)
    requires n <= inp.Length && n <= out.Length
    modifies out
    ensures ok <==> n % BLOCK == 0
    ensures ok ==> out[..n] == CbcDecrypt(old(inp[..n]), Decrypting(k, keysize), iv) && out[n..] == old(out[n..])
    ensures !ok ==> out[..] == old(out[..])
  {
    hide Decrypting, Xor, CbcDecrypt;
    if n % BLOCK != 0 { return false; }
    ghost var d, c := Decrypting(k, keysize), inp[..n];
    var at, chain := 0, iv;
    assert c[0..] == c;
    while at < n
      invariant at <= n && at % BLOCK == 0 && out[n..] == old(out[n..])
      invariant inp[at..n] == c[at..]
      invariant CbcDecrypt(c, d, iv) == out[..at] + CbcDecrypt(c[at..], d, chain)
    {
      CbcDecryptStep(c, d, chain, at);
      assert inp[at..at + BLOCK] == inp[at..n][..BLOCK] == c[at..at + BLOCK];
      var b: Block := inp[at..at + BLOCK];
      var x := ApplyInverse(b, k, keysize);
      WriteBlock(Xor(x, chain), inp, out, at, n, c);
      chain := b;
      at := at + BLOCK;
    }
    EndOfCbc(c, d, chain);
    ok := true;
  }

  // ----- counter mode

  lemma CtrStep(p: Bytes, e: OnBlocks, iv: Block, at: nat)
    requires at <= |p|
    ensures |p| - at > BLOCK ==>
      Ctr(p[at..], e, iv) == Xor(p[at..at + BLOCK], e(iv)) + Ctr(p[at + BLOCK..], e, Increment(iv, BLOCK))
    ensures |p| - at <= BLOCK ==> Ctr(p[at..], e, iv) == Xor(p[at..], e(iv))
  {
    if |p| - at > BLOCK {
      var rest := p[at..];
      assert rest[..BLOCK] == p[at..at + BLOCK] && rest[BLOCK..] == p[at + BLOCK..];
    }
  }

  /** aes_encrypt_ctr on a buffer that already holds the input. */
  method EncryptCtr(out: array<bv8>, k: Schedule, keysize: int, iv: Block)
    modifies out
    ensures out[..] == Ctr(old(out[..]), Encrypting(k, keysize), iv)
  {
    hide Encrypting, Xor, Ctr, Increment;
    var n := out.Length;
    ghost var e, p := Encrypting(k, keysize), out[..];
    var counter := new bv8[BLOCK](i requires 0 <= i < BLOCK => iv[i]);
    assert counter[..] == iv && p[0..] == p;
    var at := 0;
    if n > BLOCK {
      while at < n - BLOCK
        invariant 0 <= at <= n && at < n && fresh(counter) && counter.Length == BLOCK
        invariant out[at..] == p[at..]
        invariant Ctr(p, e, iv) == out[..at] + Ctr(p[at..], e, counter[..])
      {
        CtrStep(p, e, counter[..], at);
        XorBlock(out, counter, at, k, keysize, p);
        at := at + BLOCK;
      }
    }
    CtrStep(p, e, counter[..], at);
    var mask := Apply(counter[..], k, keysize);
    XorRest(mask, out, at);
  }

  /** The last block, which may be short, takes the first bytes of its mask. */
  method XorRest(mask: Block, out: array<bv8>, at: nat)
    requires at <= out.Length <= at + BLOCK
    modifies out
    ensures out[..] == old(out[..at]) + Xor(old(out[at..]), mask)
  {
    hide Xor;
    var n := out.Length;
    assert out[at..at + (n - at)] == out[at..];
    XorInto(mask, out, at, n - at);
    assert out[..] == out[..at] + out[at..at + (n - at)];
  }

  /** One whole block: xor it with the encrypted counter, then count. */
  method XorBlock(out: array<bv8>, counter: array<bv8>, at: nat, k: Schedule, keysize: int, ghost p: Bytes)
    requires out != counter && counter.Length == BLOCK && at + BLOCK <= out.Length == |p| && out[at..] == p[at..]
    modifies out, counter
    ensures out[..at + BLOCK] == old(out[..at]) + Xor(p[at..at + BLOCK], Encrypting(k, keysize)(old(counter[..])))
    ensures counter[..] == Increment(old(counter[..]), BLOCK) && out[at + BLOCK..] == p[at + BLOCK..]
  {
    hide Encrypting, Increment;
    assert p[at..at + BLOCK] == out[at..][..BLOCK] == out[at..at + BLOCK];
    assert p[at + BLOCK..] == out[at..][BLOCK..] == out[at + BLOCK..];
    var mask := Apply(counter[..], k, keysize);
    XorInto(mask, out, at, BLOCK);
    IncrementIv(counter, BLOCK);
  }
}
