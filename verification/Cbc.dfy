/**
 Cipher block chaining over any block cipher: the recurrences, and what they
 promise.
 */
module Cbc {
  import opened MemXor

  /** A keyed block cipher. */
  datatype Cipher = Cipher(size: nat, enc: Bytes -> Bytes, dec: Bytes -> Bytes)

  /** It maps blocks to blocks. */
  ghost predicate Works(c: Cipher) {
    c.size >= 1 && forall b: Bytes :: |b| == c.size ==> |c.enc(b)| == c.size && |c.dec(b)| == c.size
  }

  /** Decrypting undoes encrypting. */
  ghost predicate Undoes(c: Cipher) {
    forall b: Bytes :: |b| == c.size ==> c.dec(c.enc(b)) == b
  }

  ghost predicate Redoes(c: Cipher) {
    forall b: Bytes :: |b| == c.size ==> c.enc(c.dec(b)) == b
  }

  // ---- Chaining ----------------------------------------------------------------

  /** Section 6.2 of NIST SP 800-38A, encryption: each block of plaintext is mixed
      with the previous block of ciphertext, the first with the initialization
      vector.  A last partial block is not processed. */
  function Encrypted(c: Cipher, iv: Bytes, data: Bytes): (text: Bytes)
    requires |iv| == c.size
    ensures |text| <= |data|
    decreases |data|
  {
    if c.size == 0 || |data| < c.size then []
    else
      var y := c.enc(Xor(iv, data[..c.size]));
      if |y| != c.size then [] else y + Encrypted(c, y, data[c.size..])
  }

  /** The same section, decryption. */
  function Decrypted(c: Cipher, iv: Bytes, data: Bytes): (plain: Bytes)
    requires |iv| == c.size
    ensures |plain| <= |data|
    decreases |data|
  {
    if c.size == 0 || |data| < c.size then []
    else
      var x := c.dec(data[..c.size]);
      if |x| != c.size then [] else Xor(x, iv) + Decrypted(c, data[..c.size], data[c.size..])
  }

  /** The vector for what follows: the last whole block of ciphertext. */
  function Carried(size: nat, iv: Bytes, text: Bytes): (v: Bytes)
    requires |iv| == size
    ensures |v| == size
    decreases |text|
  {
    if size == 0 || |text| < size then iv else Carried(size, text[..size], text[size..])
  }

  predicate Whole(size: nat, data: Bytes)
    decreases |data|
  {
    data == [] || (0 < size <= |data| && Whole(size, data[size..]))
  }

  lemma {:induction false} EncryptedWhole(c: Cipher, iv: Bytes, data: Bytes)
    requires Works(c) && |iv| == c.size
    ensures Whole(c.size, Encrypted(c, iv, data))
    ensures Whole(c.size, data) ==> |Encrypted(c, iv, data)| == |data|
    decreases |data|
  {
    if |data| >= c.size {
      var y := c.enc(Xor(iv, data[..c.size]));
      EncryptedWhole(c, y, data[c.size..]);
      assert Encrypted(c, iv, data)[c.size..] == Encrypted(c, y, data[c.size..]);
    }
  }

  lemma BlockBack(c: Cipher, iv: Bytes, x: Bytes)
    requires Works(c) && Undoes(c) && |iv| == c.size == |x|
    ensures |c.enc(Xor(iv, x))| == c.size
    ensures |c.dec(c.enc(Xor(iv, x)))| == c.size && Xor(c.dec(c.enc(Xor(iv, x))), iv) == x
  {
    XorTwice(x, iv);
    var m := Xor(iv, x);
    assert c.dec(c.enc(m)) == m;
  }

  lemma Blocks(y: Bytes, rest: Bytes, size: nat)
    requires |y| == size
    ensures (y + rest)[..size] == y && (y + rest)[size..] == rest
  {
  }

  lemma {:induction false} FirstBlockBack(c: Cipher, iv: Bytes, x: Bytes, text: Bytes)
    requires Works(c) && Undoes(c) && |iv| == c.size == |x|
    ensures var y := c.enc(Xor(iv, x)); |y| == c.size && Decrypted(c, iv, y + text) == x + Decrypted(c, y, text)
  {
    BlockBack(c, iv, x);
    Blocks(c.enc(Xor(iv, x)), text, c.size);
  }

  lemma {:induction false} BackStep(c: Cipher, iv: Bytes, x: Bytes, rest: Bytes)
    requires Works(c) && Undoes(c) && |iv| == c.size == |x|
    requires |c.enc(Xor(iv, x))| == c.size
    requires var y := c.enc(Xor(iv, x)); Decrypted(c, y, Encrypted(c, y, rest)) == rest
    ensures Decrypted(c, iv, Encrypted(c, iv, x + rest)) == x + rest
  {
    var y := c.enc(Xor(iv, x));
    Blocks(x, rest, c.size);
    FirstBlockBack(c, iv, x, Encrypted(c, y, rest));
  }

  /** Decryption undoes encryption under the same vector. */
  lemma {:induction false} RoundTrip(c: Cipher, iv: Bytes, data: Bytes)
    requires Works(c) && Undoes(c) && |iv| == c.size && Whole(c.size, data)
    ensures Decrypted(c, iv, Encrypted(c, iv, data)) == data
    decreases |data|
  {
    if data != [] {
      var x, rest := data[..c.size], data[c.size..];
      RoundTrip(c, c.enc(Xor(iv, x)), rest);
      BackStep(c, iv, x, rest);
      assert data == x + rest;
    }
  }

  lemma BlockForth(c: Cipher, iv: Bytes, y: Bytes)
    requires Works(c) && Redoes(c) && |iv| == c.size == |y|
    ensures |c.dec(y)| == c.size && c.enc(Xor(iv, Xor(c.dec(y), iv))) == y
  {
    var x := c.dec(y);
    XorTwice(x, iv);
    XorTwice(Xor(x, iv), iv);
    assert Xor(iv, Xor(x, iv)) == x;
  }

  lemma {:induction false} FirstBlockForth(c: Cipher, iv: Bytes, y: Bytes, plain: Bytes)
    requires Works(c) && Redoes(c) && |iv| == c.size == |y|
    ensures |c.dec(y)| == c.size
    ensures Encrypted(c, iv, Xor(c.dec(y), iv) + plain) == y + Encrypted(c, y, plain)
  {
    BlockForth(c, iv, y);
    Blocks(Xor(c.dec(y), iv), plain, c.size);
  }

  lemma {:induction false} ForthStep(c: Cipher, iv: Bytes, y: Bytes, rest: Bytes)
    requires Works(c) && Redoes(c) && |iv| == c.size == |y| && Encrypted(c, y, Decrypted(c, y, rest)) == rest
    ensures Encrypted(c, iv, Decrypted(c, iv, y + rest)) == y + rest
  {
    Blocks(y, rest, c.size);
    FirstBlockForth(c, iv, y, Decrypted(c, y, rest));
  }

  /** Encryption undoes decryption, given the vector of the ciphertext. */
  lemma {:induction false} TripRound(c: Cipher, iv: Bytes, text: Bytes)
    requires Works(c) && Redoes(c) && |iv| == c.size && Whole(c.size, text)
    ensures Encrypted(c, iv, Decrypted(c, iv, text)) == text
    decreases |text|
  {
    if text != [] {
      var y, rest := text[..c.size], text[c.size..];
      TripRound(c, y, rest);
      ForthStep(c, iv, y, rest);
      assert text == y + rest;
    }
  }

  /** Pieces of whole blocks, each taking the vector the last one left, give what
      the joined data gives. */
  lemma {:induction false} EncryptedJoins(c: Cipher, iv: Bytes, a: Bytes, b: Bytes)
    requires Works(c) && |iv| == c.size && Whole(c.size, a)
    ensures var x := Encrypted(c, iv, a);
      Encrypted(c, iv, a + b) == x + Encrypted(c, Carried(c.size, iv, x), b)
    decreases |a|
  {
    if a == [] {
      assert a + b == b;
    } else {
      var y := c.enc(Xor(iv, a[..c.size]));
      var rest := Encrypted(c, y, a[c.size..]);
      assert (a + b)[..c.size] == a[..c.size] && (a + b)[c.size..] == a[c.size..] + b;
      EncryptedJoins(c, y, a[c.size..], b);
      assert (y + rest)[..c.size] == y && (y + rest)[c.size..] == rest;
    }
  }

  lemma {:induction false} DecryptedJoins(c: Cipher, iv: Bytes, a: Bytes, b: Bytes)
    requires Works(c) && |iv| == c.size && Whole(c.size, a)
    ensures Decrypted(c, iv, a + b) == Decrypted(c, iv, a) + Decrypted(c, Carried(c.size, iv, a), b)
    decreases |a|
  {
    if a == [] {
      assert a + b == b;
    } else {
      assert (a + b)[..c.size] == a[..c.size] && (a + b)[c.size..] == a[c.size..] + b;
      DecryptedJoins(c, a[..c.size], a[c.size..], b);
    }
  }

  // ---- Block by block -------------------------------------------------------------

  /** The last block of what is there so far, or the vector. */
  function LastBlock(size: nat, iv: Bytes, text: Bytes): Bytes {
    if |text| < size then iv else text[|text| - size..]
  }

  lemma {:induction false} CarriedIsLast(size: nat, iv: Bytes, text: Bytes)
    requires |iv| == size > 0 && Whole(size, text)
    ensures Carried(size, iv, text) == LastBlock(size, iv, text)
    decreases |text|
  {
    if text != [] {
      var y, rest := text[..size], text[size..];
      CarriedIsLast(size, y, rest);
      if rest == [] {
        assert text == y;
      }
    }
  }

  /** A further block of plaintext is mixed with the last block of ciphertext and then
      encrypted; less than a block is left alone. */
  lemma {:induction false} EncryptedBlock(c: Cipher, iv: Bytes, a: Bytes, x: Bytes)
    requires Works(c) && |iv| == c.size && Whole(c.size, a) && |x| <= c.size
    ensures var text := Encrypted(c, iv, a);
      && |LastBlock(c.size, iv, text)| == c.size
      && Encrypted(c, iv, a + x) == text + if |x| < c.size then [] else c.enc(Xor(LastBlock(c.size, iv, text), x))
  {
    var text := Encrypted(c, iv, a);
    EncryptedJoins(c, iv, a, x);
    EncryptedWhole(c, iv, a);
    CarriedIsLast(c.size, iv, text);
    if |x| == c.size {
      var y := c.enc(Xor(LastBlock(c.size, iv, text), x));
      assert x[..c.size] == x && Encrypted(c, y, x[c.size..]) == [];
    }
  }

  /** A further block of ciphertext is decrypted and then mixed with the block of
      ciphertext before it. */
  lemma {:induction false} DecryptedBlock(c: Cipher, iv: Bytes, a: Bytes, y: Bytes)
    requires Works(c) && |iv| == c.size && Whole(c.size, a) && |y| <= c.size
    ensures |LastBlock(c.size, iv, a)| == c.size && (|y| == c.size ==> |c.dec(y)| == c.size)
    ensures Decrypted(c, iv, a + y) == Decrypted(c, iv, a) + if |y| < c.size then [] else Xor(c.dec(y), LastBlock(c.size, iv, a))
  {
    DecryptedJoins(c, iv, a, y);
    CarriedIsLast(c.size, iv, a);
    if |y| == c.size {
      assert y[..c.size] == y && Decrypted(c, y, y[c.size..]) == [];
    }
  }

  /** Either direction, and the vector it hands on. */
  function Text(c: Cipher, enc: bool, iv: Bytes, data: Bytes): (r: Bytes)
    requires |iv| == c.size
    ensures |r| <= |data|
  {
    if enc then Encrypted(c, iv, data) else Decrypted(c, iv, data)
  }

  function Vector(c: Cipher, enc: bool, iv: Bytes, data: Bytes): (v: Bytes)
    requires |iv| == c.size
    ensures |v| == c.size
  {
    Carried(c.size, iv, if enc then Encrypted(c, iv, data) else data)
  }

  lemma TextJoins(c: Cipher, enc: bool, iv: Bytes, a: Bytes, b: Bytes)
    requires Works(c) && |iv| == c.size && Whole(c.size, a)
    ensures Text(c, enc, iv, a + b) == Text(c, enc, iv, a) + Text(c, enc, Vector(c, enc, iv, a), b)
  {
    if enc {
      EncryptedJoins(c, iv, a, b);
    } else {
      DecryptedJoins(c, iv, a, b);
    }
  }

  lemma {:induction false} CarriedJoins(size: nat, iv: Bytes, a: Bytes, b: Bytes)
    requires |iv| == size > 0 && Whole(size, a)
    ensures Carried(size, iv, a + b) == Carried(size, Carried(size, iv, a), b)
    decreases |a|
  {
    if a == [] {
      assert a + b == b;
    } else {
      assert (a + b)[..size] == a[..size] && (a + b)[size..] == a[size..] + b;
      CarriedJoins(size, a[..size], a[size..], b);
    }
  }

  lemma VectorJoins(c: Cipher, enc: bool, iv: Bytes, a: Bytes, b: Bytes)
    requires Works(c) && |iv| == c.size && Whole(c.size, a)
    ensures Vector(c, enc, iv, a + b) == Vector(c, enc, Vector(c, enc, iv, a), b)
  {
    if enc {
      EncryptedJoins(c, iv, a, b);
      EncryptedWhole(c, iv, a);
      var v := Carried(c.size, iv, Encrypted(c, iv, a));
      CarriedJoins(c.size, iv, Encrypted(c, iv, a), Encrypted(c, v, b));
    } else {
      CarriedJoins(c.size, iv, a, b);
    }
  }
}
