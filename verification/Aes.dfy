/**
 The token envelope: a random initialisation vector followed by the text in cipher feedback mode
 with whole-block feedback (section 6.3 of NIST SP 800-38A). The block cipher under a key is an
 arbitrary function from blocks to blocks; a last, partial block uses the head of its keystream.
 */
module Aes {
  import opened Wrappers

  type Bytes = seq<bv8>

  const BLOCK_SIZE: nat := 16

  type Block = b: Bytes | |b| == BLOCK_SIZE witness seq(BLOCK_SIZE, _ => 0)

  type Cipher = Block -> Block

  datatype Error = BadKey | CiphertextTooShort

  function Xor(text: Bytes, key: Bytes): (r: Bytes)
    requires |text| <= |key|
    ensures |r| == |text|
  {
    seq(|text|, i requires 0 <= i < |text| => text[i] ^ key[i])
  }

  lemma XorTwice(text: Bytes, key: Bytes)
    requires |text| <= |key|
    ensures Xor(Xor(text, key), key) == text
  {
  }

  // ---------------------------------------------------------------- the mode, block by block

  function CfbEncrypt(e: Cipher, iv: Block, text: Bytes): (r: Bytes)
    ensures |r| == |text|
    decreases |text|
  {
    if |text| <= BLOCK_SIZE then Xor(text, e(iv))
    else
      var c := Xor(text[..BLOCK_SIZE], e(iv));
      c + CfbEncrypt(e, c, text[BLOCK_SIZE..])
  }

  function CfbDecrypt(e: Cipher, iv: Block, text: Bytes): (r: Bytes)
    ensures |r| == |text|
    decreases |text|
  {
    if |text| <= BLOCK_SIZE then Xor(text, e(iv))
    else Xor(text[..BLOCK_SIZE], e(iv)) + CfbDecrypt(e, text[..BLOCK_SIZE], text[BLOCK_SIZE..])
  }

  /** Decryption undoes encryption and encryption undoes decryption, for every length, IV and cipher. */
  lemma {:induction false} CfbInverse(e: Cipher, iv: Block, text: Bytes)
    ensures CfbDecrypt(e, iv, CfbEncrypt(e, iv, text)) == text
    ensures CfbEncrypt(e, iv, CfbDecrypt(e, iv, text)) == text
    decreases |text|
  {
    if |text| <= BLOCK_SIZE {
      XorTwice(text, e(iv));
    } else {
      var head, rest := text[..BLOCK_SIZE], text[BLOCK_SIZE..];
      XorTwice(head, e(iv));
      var c := Xor(head, e(iv));
      CfbInverse(e, c, rest);
      CfbInverse(e, head, rest);
      assert CfbEncrypt(e, iv, text)[..BLOCK_SIZE] == c;
      assert CfbEncrypt(e, iv, text)[BLOCK_SIZE..] == CfbEncrypt(e, c, rest);
      assert CfbDecrypt(e, iv, text)[..BLOCK_SIZE] == c;
      assert CfbDecrypt(e, iv, text)[BLOCK_SIZE..] == CfbDecrypt(e, head, rest);
      assert text == head + rest;
    }
  }

  // ---------------------------------------------------------------- the mode, byte by byte

  /** The block that keys byte `i`: the block of ciphertext before its own, and the IV for the first. */
  function Register(iv: Block, ciphertext: Bytes, i: nat): Block
    requires i < |ciphertext|
  {
    (iv + ciphertext)[i - i % BLOCK_SIZE..i - i % BLOCK_SIZE + BLOCK_SIZE]
  }

  /** Each byte of ciphertext is its byte of text combined with the encrypted block before. */
  ghost predicate IsCfb(e: Cipher, iv: Block, text: Bytes, ciphertext: Bytes) {
    && |ciphertext| == |text|
    && forall i | 0 <= i < |text| :: ciphertext[i] == text[i] ^ e(Register(iv, ciphertext, i))[i % BLOCK_SIZE]
  }

  /** Behind a block the registers are those of the rest, with that block as the IV. */
  lemma RegisterOfRest(iv: Block, ciphertext: Bytes, i: nat)
    requires BLOCK_SIZE <= i < |ciphertext|
    ensures Register(iv, ciphertext, i) == Register(ciphertext[..BLOCK_SIZE], ciphertext[BLOCK_SIZE..], i - BLOCK_SIZE)
    ensures i % BLOCK_SIZE == (i - BLOCK_SIZE) % BLOCK_SIZE
  {
    assert ciphertext[..BLOCK_SIZE] + ciphertext[BLOCK_SIZE..] == ciphertext;
  }

  lemma CfbInTwo(e: Cipher, iv: Block, text: Bytes, ciphertext: Bytes)
    requires |text| == |ciphertext| > BLOCK_SIZE
    requires forall i | 0 <= i < BLOCK_SIZE :: ciphertext[i] == text[i] ^ e(iv)[i]
    requires IsCfb(e, ciphertext[..BLOCK_SIZE], text[BLOCK_SIZE..], ciphertext[BLOCK_SIZE..])
    ensures IsCfb(e, iv, text, ciphertext)
  {
    forall i | 0 <= i < |text|
      ensures ciphertext[i] == text[i] ^ e(Register(iv, ciphertext, i))[i % BLOCK_SIZE]
    {
      if i < BLOCK_SIZE {
        assert Register(iv, ciphertext, i) == iv;
      } else {
        RegisterOfRest(iv, ciphertext, i);
        assert ciphertext[BLOCK_SIZE..][i - BLOCK_SIZE] == ciphertext[i]
            && text[BLOCK_SIZE..][i - BLOCK_SIZE] == text[i];
      }
    }
  }

  lemma CfbInOne(e: Cipher, iv: Block, text: Bytes, ciphertext: Bytes)
    requires |text| == |ciphertext| <= BLOCK_SIZE
    requires forall i | 0 <= i < |text| :: ciphertext[i] == text[i] ^ e(iv)[i]
    ensures IsCfb(e, iv, text, ciphertext)
  {
    assert forall i | 0 <= i < |text| :: Register(iv, ciphertext, i) == iv;
  }

  lemma {:induction false} EncryptedByteByByte(e: Cipher, iv: Block, text: Bytes)
    ensures IsCfb(e, iv, text, CfbEncrypt(e, iv, text))
    decreases |text|
  {
    var c := CfbEncrypt(e, iv, text);
    if |text| <= BLOCK_SIZE {
      CfbInOne(e, iv, text, c);
    } else {
      var block := Xor(text[..BLOCK_SIZE], e(iv));
      EncryptedByteByByte(e, block, text[BLOCK_SIZE..]);
      assert c[..BLOCK_SIZE] == block && c[BLOCK_SIZE..] == CfbEncrypt(e, block, text[BLOCK_SIZE..]);
      forall i | 0 <= i < BLOCK_SIZE
        ensures c[i] == text[i] ^ e(iv)[i]
      {
        assert c[i] == block[i];
      }
      CfbInTwo(e, iv, text, c);
    }
  }

  lemma {:induction false} DecryptedByteByByte(e: Cipher, iv: Block, ciphertext: Bytes)
    ensures IsCfb(e, iv, CfbDecrypt(e, iv, ciphertext), ciphertext)
    decreases |ciphertext|
  {
    CfbInverse(e, iv, ciphertext);
    EncryptedByteByByte(e, iv, CfbDecrypt(e, iv, ciphertext));
  }

  // ---------------------------------------------------------------- the streams

  /** Appends one block to the part of `data` between `from` and `at` that is done. */
  method XorBlock(data: array<bv8>, ghost from: nat, at: nat, text: Bytes, key: Bytes)
    requires from <= at && |text| <= |key| && at + |text| <= data.Length
    modifies data
    ensures data[..from] == old(data[..from]) && data[at + |text|..] == old(data[at + |text|..])
    ensures data[from..at + |text|] == old(data[from..at]) + Xor(text, key)
  {
    for k := 0 to |text|
      invariant data[..from] == old(data[..from]) && data[at + k..] == old(data[at + k..])
      invariant data[from..at + k] == old(data[from..at]) + Xor(text, key)[..k]
    {
      ghost var before := data[from..at + k];
      data[at + k] := text[k] ^ key[k];
      assert data[from..at + k + 1] == before + [text[k] ^ key[k]];
      assert forall q | at + k + 1 <= q < data.Length :: data[q] == old(data[at + k..])[q - at - k];
    }
  }

  function Min(a: nat, b: nat): nat {
    if a < b then a else b
  }

  /** One block of the encrypting stream: the rest is keyed by the ciphertext just made. */
  lemma EncryptStep(e: Cipher, iv: Block, next: Block, text: Bytes)
    requires text != []
    requires |text| >= BLOCK_SIZE ==> next == Xor(text[..BLOCK_SIZE], e(iv))
    ensures var n := Min(|text|, BLOCK_SIZE);
      CfbEncrypt(e, iv, text) == Xor(text[..n], e(iv)) + CfbEncrypt(e, next, text[n..])
  {
    if |text| <= BLOCK_SIZE {
      assert text[..|text|] == text && text[|text|..] == [];
    }
  }

  /** One block of the decrypting stream: the rest is keyed by the ciphertext just read. */
  lemma DecryptStep(e: Cipher, iv: Block, next: Block, text: Bytes)
    requires text != []
    requires |text| >= BLOCK_SIZE ==> next == text[..BLOCK_SIZE]
    ensures var n := Min(|text|, BLOCK_SIZE);
      CfbDecrypt(e, iv, text) == Xor(text[..n], e(iv)) + CfbDecrypt(e, next, text[n..])
  {
    if |text| <= BLOCK_SIZE {
      assert text[..|text|] == text && text[|text|..] == [];
    }
  }

  lemma Append(done: Bytes, block: Bytes, rest: Bytes, all: Bytes, whole: Bytes)
    requires done + all == whole && all == block + rest
    ensures (done + block) + rest == whole
  {
  }

  /** The encrypting stream, from `text` into the tail of `data`. */
  method EncryptStream(e: Cipher, iv: Block, text: Bytes, data: array<bv8>, from: nat)
    requires from + |text| == data.Length
    modifies data
    ensures data[..from] == old(data[..from])
    ensures data[from..] == CfbEncrypt(e, iv, text) && IsCfb(e, iv, text, data[from..])
  {
    var next: Block, rest := iv, text;
    ghost var done: Bytes, whole := [], CfbEncrypt(e, iv, text);
    while rest != []
      invariant |done| + |rest| == |text|
      invariant data[..from] == old(data[..from]) && data[from..from + |done|] == done
      invariant done + CfbEncrypt(e, next, rest) == whole
      decreases |rest|
    {
      var n := Min(|rest|, BLOCK_SIZE);
      var at := data.Length - |rest|;
      XorBlock(data, from, at, rest[..n], e(next));
      var block := data[at..at + n];
      assert block == Xor(rest[..n], e(next));
      ghost var iv' := next;
      if n == BLOCK_SIZE {
        next := block;
      }
      EncryptStep(e, iv', next, rest);
      Append(done, block, CfbEncrypt(e, next, rest[n..]), CfbEncrypt(e, iv', rest), whole);
      done, rest := done + block, rest[n..];
    }
    assert data[from..] == data[from..from + |done|] == done;
    assert done + CfbEncrypt(e, next, rest) == done;
    EncryptedByteByByte(e, iv, text);
  }

  /**
   The decrypting stream run in place: source and destination are the same bytes, so each block of
   ciphertext is copied away before it is overwritten.
   */
  method DecryptStreamInPlace(e: Cipher, iv: Block, data: array<bv8>, from: nat)
    requires from <= data.Length
    modifies data
    ensures data[..from] == old(data[..from])
    ensures data[from..] == CfbDecrypt(e, iv, old(data[from..])) && IsCfb(e, iv, data[from..], old(data[from..]))
  {
    var next: Block, at: nat := iv, from;
    ghost var done: Bytes, rest, whole := [], data[from..], CfbDecrypt(e, iv, data[from..]);
    while at < data.Length
      invariant from <= at == from + |done| <= data.Length
      invariant data[..from] == old(data[..from]) && data[from..at] == done && data[at..] == rest
      invariant done + CfbDecrypt(e, next, rest) == whole
    {
      var n := Min(data.Length - at, BLOCK_SIZE);
      var saved := data[at..at + n];
      assert saved == rest[..n];
      XorBlock(data, from, at, saved, e(next));
      ghost var block := Xor(saved, e(next));
      assert data[at + n..] == rest[n..];
      ghost var iv' := next;
      if n == BLOCK_SIZE {
        next := saved;
      }
      DecryptStep(e, iv', next, rest);
      Append(done, block, CfbDecrypt(e, next, rest[n..]), CfbDecrypt(e, iv', rest), whole);
      done, rest := done + block, rest[n..];
      at := at + n;
    }
    assert data[from..] == data[from..at] == done;
    assert done + CfbDecrypt(e, next, rest) == done;
    DecryptedByteByByte(e, iv, old(data[from..]));
  }

  // ---------------------------------------------------------------- the envelope

  function EncryptWith(e: Cipher, iv: Block, text: Bytes): (r: Bytes)
    ensures |r| == BLOCK_SIZE + |text|
  {
    iv + CfbEncrypt(e, iv, text)
  }

  function DecryptWith(e: Cipher, ciphertext: Bytes): (r: Result<Bytes, Error>)
    ensures r.Err? <==> |ciphertext| < BLOCK_SIZE
    ensures r.Ok? ==> |r.value| == |ciphertext| - BLOCK_SIZE
  {
    if |ciphertext| < BLOCK_SIZE then Err(CiphertextTooShort)
    else Ok(CfbDecrypt(e, ciphertext[..BLOCK_SIZE], ciphertext[BLOCK_SIZE..]))
  }

  /** `aes.NewCipher` takes keys of three lengths; what block function a key gives is not modelled. */
  predicate ValidKey(key: Bytes) {
    |key| in {16, 24, 32}
  }

  method Encrypt(cipherOf: Bytes -> Cipher, key: Bytes, text: Bytes, random: Block)
    returns (r: Result<array<bv8>, Error>)
    ensures r.Err? <==> !ValidKey(key)
    ensures r.Ok? ==> fresh(r.value) && r.value[..] == EncryptWith(cipherOf(key), random, text)
    ensures r.Ok? ==> r.value.Length == 16 + |text|
    ensures r.Ok? ==> r.value[..BLOCK_SIZE] == random && IsCfb(cipherOf(key), random, text, r.value[BLOCK_SIZE..])
  {
    if !ValidKey(key) {
      return Err(BadKey);
    }
    var ciphertext := new bv8[BLOCK_SIZE + |text|];
    for k := 0 to BLOCK_SIZE
      invariant ciphertext[..k] == random[..k]
    {
      ciphertext[k] := random[k];
    }
    EncryptStream(cipherOf(key), random, text, ciphertext, BLOCK_SIZE);
    assert ciphertext[..] == ciphertext[..BLOCK_SIZE] + ciphertext[BLOCK_SIZE..];
    return Ok(ciphertext);
  }

  /** Decrypts `ciphertext` in place after its first block; its tail then is the text. */
  method Decrypt(cipherOf: Bytes -> Cipher, key: Bytes, ciphertext: array<bv8>) returns (r: Result<Bytes, Error>)
    modifies ciphertext
    ensures !ValidKey(key) ==> r == Err(BadKey)
    ensures ValidKey(key) ==> r == DecryptWith(cipherOf(key), old(ciphertext[..]))
    ensures r.Ok? ==> ciphertext[..] == old(ciphertext[..])[..BLOCK_SIZE] + r.value
    ensures r.Ok? ==> IsCfb(cipherOf(key), old(ciphertext[..BLOCK_SIZE]), r.value, old(ciphertext[BLOCK_SIZE..]))
    ensures r.Err? ==> ciphertext[..] == old(ciphertext[..])
  {
    if !ValidKey(key) {
      return Err(BadKey);
    }
    if ciphertext.Length < BLOCK_SIZE {
      return Err(CiphertextTooShort);
    }
    var iv: Block := ciphertext[..BLOCK_SIZE];
    DecryptStreamInPlace(cipherOf(key), iv, ciphertext, BLOCK_SIZE);
    assert old(ciphertext[..])[..BLOCK_SIZE] == iv
        && old(ciphertext[..])[BLOCK_SIZE..] == old(ciphertext[BLOCK_SIZE..]);
    assert ciphertext[..] == ciphertext[..BLOCK_SIZE] + ciphertext[BLOCK_SIZE..];
    return Ok(ciphertext[BLOCK_SIZE..]);
  }

  /**
   What was encrypted decrypts to itself under the same key, whatever the random IV; and decrypting
   followed by encrypting with the IV that was read gives the ciphertext back.
   */
  lemma EnvelopeRoundTrip(e: Cipher, iv: Block, text: Bytes, ciphertext: Bytes)
    ensures DecryptWith(e, EncryptWith(e, iv, text)) == Ok(text)
    ensures DecryptWith(e, ciphertext).Ok? ==>
              EncryptWith(e, ciphertext[..BLOCK_SIZE], DecryptWith(e, ciphertext).value) == ciphertext
  {
    CfbInverse(e, iv, text);
    var whole := EncryptWith(e, iv, text);
    assert whole[..BLOCK_SIZE] == iv && whole[BLOCK_SIZE..] == CfbEncrypt(e, iv, text);
    if |ciphertext| >= BLOCK_SIZE {
      CfbInverse(e, ciphertext[..BLOCK_SIZE], ciphertext[BLOCK_SIZE..]);
    }
  }
}
