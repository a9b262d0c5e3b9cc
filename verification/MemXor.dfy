/**
 `crypto_xor` on byte-addressed memory: word by word, then byte by byte.
 */
module MemXor {
  datatype Byte = Byte(bits: bv8)

  type Bytes = seq<Byte>

  function XorByte(x: Byte, y: Byte): Byte {
    Byte(x.bits ^ y.bits)
  }

  function Xor(a: Bytes, b: Bytes): (r: Bytes)
    requires |a| == |b|
    ensures |r| == |a| && forall i :: 0 <= i < |a| ==> r[i] == XorByte(a[i], b[i])
  {
    seq(|a|, i requires 0 <= i < |a| => XorByte(a[i], b[i]))
  }

  lemma XorTwice(a: Bytes, b: Bytes)
    requires |a| == |b|
    ensures Xor(Xor(a, b), b) == a && Xor(Xor(b, a), b) == a
    ensures Xor(a, b) == Xor(b, a)
  {
    forall i | 0 <= i < |a|
      ensures Xor(Xor(a, b), b)[i] == a[i] && Xor(Xor(b, a), b)[i] == a[i] && Xor(a, b)[i] == Xor(b, a)[i]
    {
      XorByteTwice(a[i], b[i]);
    }
  }

  lemma XorByteTwice(x: Byte, y: Byte)
    ensures XorByte(XorByte(x, y), y) == x && XorByte(XorByte(y, x), y) == x && XorByte(x, y) == XorByte(y, x)
  {
    XorBits(x.bits, y.bits);
  }

  lemma XorBits(x: bv8, y: bv8)
    ensures (x ^ y) ^ y == x && (y ^ x) ^ y == x && x ^ y == y ^ x
  {
  }

  /** A word in memory, least significant byte first. */
  function Word(b0: bv8, b1: bv8, b2: bv8, b3: bv8): bv32 {
    (b0 as bv32) | ((b1 as bv32) << 8) | ((b2 as bv32) << 16) | ((b3 as bv32) << 24)
  }

  function Byte0(w: bv32): bv8 {
    (w & 0xFF) as bv8
  }

  function Byte1(w: bv32): bv8 {
    ((w >> 8) & 0xFF) as bv8
  }

  function Byte2(w: bv32): bv8 {
    ((w >> 16) & 0xFF) as bv8
  }

  function Byte3(w: bv32): bv8 {
    ((w >> 24) & 0xFF) as bv8
  }

  lemma WordBytes(b0: bv8, b1: bv8, b2: bv8, b3: bv8)
    ensures var w := Word(b0, b1, b2, b3);
      Byte0(w) == b0 && Byte1(w) == b1 && Byte2(w) == b2 && Byte3(w) == b3
  {
  }

  lemma BytesXor(v: bv32, w: bv32)
    ensures Byte0(v ^ w) == Byte0(v) ^ Byte0(w) && Byte1(v ^ w) == Byte1(v) ^ Byte1(w)
    ensures Byte2(v ^ w) == Byte2(v) ^ Byte2(w) && Byte3(v ^ w) == Byte3(v) ^ Byte3(w)
  {
  }

  /** One step of the word loop. */
  method XorWord(a0: Byte, a1: Byte, a2: Byte, a3: Byte, b0: Byte, b1: Byte, b2: Byte, b3: Byte)
    returns (r0: Byte, r1: Byte, r2: Byte, r3: Byte)
    ensures r0 == XorByte(a0, b0) && r1 == XorByte(a1, b1) && r2 == XorByte(a2, b2) && r3 == XorByte(a3, b3)
  {
    var v := Word(a0.bits, a1.bits, a2.bits, a3.bits);
    var w := Word(b0.bits, b1.bits, b2.bits, b3.bits);
    WordBytes(a0.bits, a1.bits, a2.bits, a3.bits);
    WordBytes(b0.bits, b1.bits, b2.bits, b3.bits);
    BytesXor(v, w);
    var x := v ^ w;
    return Byte(Byte0(x)), Byte(Byte1(x)), Byte(Byte2(x)), Byte(Byte3(x));
  }

  /** Two regions of memory that do not overlap. */
  predicate Apart(d: nat, s: nat, size: nat) {
    d + size <= s || s + size <= d
  }

  /** Memory `a` with the first `k` bytes at `d` mixed with those at `s`. */
  predicate Mixed(r: Bytes, a: Bytes, d: nat, s: nat, k: nat) {
    && |r| == |a| && d + k <= |a| && s + k <= |a|
    && (forall j :: d <= j < d + k ==> r[j] == XorByte(a[j], a[j - d + s]))
    && (forall j :: 0 <= j < d ==> r[j] == a[j])
    && (forall j :: d + k <= j < |r| ==> r[j] == a[j])
  }

  function MixAt(r: Bytes, p: nat, q: nat): (t: Bytes)
    requires p < |r| && q < |r|
    ensures |t| == |r|
  {
    r[p := XorByte(r[p], r[q])]
  }

  /** `k` bytes mixed in turn. */
  function MixRun(a: Bytes, d: nat, s: nat, k: nat): (r: Bytes)
    requires d + k <= |a| && s + k <= |a|
    ensures |r| == |a|
  {
    if k == 0 then a else MixAt(MixRun(a, d, s, k - 1), d + k - 1, s + k - 1)
  }

  lemma MixOne(r: Bytes, a: Bytes, d: nat, s: nat, size: nat, k: nat)
    requires Mixed(r, a, d, s, k) && k < size && d + size <= |a| && s + size <= |a| && Apart(d, s, size)
    ensures Mixed(MixAt(r, d + k, s + k), a, d, s, k + 1)
  {
  }

  /** Memory with the bytes `b` stored at `at`. */
  function Put(m: Bytes, at: nat, b: Bytes): (r: Bytes)
    requires at + |b| <= |m|
    ensures |r| == |m|
    decreases |b|
  {
    if b == [] then m else Put(m[at := b[0]], at + 1, b[1..])
  }

  lemma {:induction false} PutAt(m: Bytes, at: nat, b: Bytes)
    requires at + |b| <= |m|
    ensures forall j :: 0 <= j < |m| ==> Put(m, at, b)[j] == if at <= j < at + |b| then b[j - at] else m[j]
    decreases |b|
  {
    if b != [] {
      PutAt(m[at := b[0]], at + 1, b[1..]);
    }
  }

  lemma {:induction false} MixRunMixed(a: Bytes, d: nat, s: nat, size: nat, k: nat)
    requires k <= size && d + size <= |a| && s + size <= |a| && Apart(d, s, size)
    ensures Mixed(MixRun(a, d, s, k), a, d, s, k)
  {
    if k > 0 {
      MixRunMixed(a, d, s, size, k - 1);
      MixOne(MixRun(a, d, s, k - 1), a, d, s, size, k - 1);
    }
  }

  lemma MixedAll(r: Bytes, a: Bytes, d: nat, s: nat, size: nat)
    requires Mixed(r, a, d, s, size)
    ensures r == Put(a, d, Xor(a[d..d + size], a[s..s + size]))
  {
    PutAt(a, d, Xor(a[d..d + size], a[s..s + size]));
  }

  /** Mixing a region byte by byte puts the exclusive or of the two regions
      there and changes nothing else. */
  lemma MixRunIsXor(a: Bytes, d: nat, s: nat, size: nat)
    requires d + size <= |a| && s + size <= |a| && Apart(d, s, size)
    ensures MixRun(a, d, s, size) == Put(a, d, Xor(a[d..d + size], a[s..s + size]))
  {
    MixRunMixed(a, d, s, size, size);
    MixedAll(MixRun(a, d, s, size), a, d, s, size);
  }

  /** `crypto_xor_byte`, after `from` bytes are done. */
  method XorBytes(mem: array<Byte>, d: nat, s: nat, size: nat, from: nat, ghost a: Bytes)
    requires from <= size && d + size <= mem.Length == |a| && s + size <= mem.Length
    requires mem[..] == MixRun(a, d, s, from)
    modifies mem
    ensures mem[..] == MixRun(a, d, s, size)
  {
    var k := from;
    while k < size
      invariant k <= size && mem[..] == MixRun(a, d, s, k)
    {
      ghost var was := mem[..];
      mem[d + k] := XorByte(mem[d + k], mem[s + k]);
      assert mem[..] == MixAt(was, d + k, s + k);
      k := k + 1;
    }
  }

  function MixFourAt(r: Bytes, p: nat, q: nat): (t: Bytes)
    requires p + 4 <= |r| && q + 4 <= |r|
    ensures |t| == |r|
  {
    MixAt(MixAt(MixAt(MixAt(r, p, q), p + 1, q + 1), p + 2, q + 2), p + 3, q + 3)
  }

  lemma MixFour(a: Bytes, d: nat, s: nat, k: nat)
    requires d + k + 4 <= |a| && s + k + 4 <= |a|
    ensures MixRun(a, d, s, k + 4) == MixFourAt(MixRun(a, d, s, k), d + k, s + k)
  {
    assert MixRun(a, d, s, k + 1) == MixAt(MixRun(a, d, s, k), d + k, s + k);
    assert MixRun(a, d, s, k + 2) == MixAt(MixRun(a, d, s, k + 1), d + k + 1, s + k + 1);
    assert MixRun(a, d, s, k + 3) == MixAt(MixRun(a, d, s, k + 2), d + k + 2, s + k + 2);
  }

  /** Four bytes mixed at once are four bytes mixed in turn. */
  lemma AtOnce(m: Bytes, p: nat, q: nat)
    requires p + 4 <= |m| && q + 4 <= |m| && Apart(p, q, 4)
    ensures m[p := XorByte(m[p], m[q])][p + 1 := XorByte(m[p + 1], m[q + 1])][p + 2 := XorByte(m[p + 2], m[q + 2])][p + 3 := XorByte(m[p + 3], m[q + 3])]
         == MixFourAt(m, p, q)
  {
    var m1 := MixAt(m, p, q);
    assert m1[p + 1] == m[p + 1] && m1[q + 1] == m[q + 1];
    var m2 := MixAt(m1, p + 1, q + 1);
    assert m2[p + 2] == m[p + 2] && m2[q + 2] == m[q + 2];
    var m3 := MixAt(m2, p + 2, q + 2);
    assert m3[p + 3] == m[p + 3] && m3[q + 3] == m[q + 3];
  }

  method XorFour(mem: array<Byte>, p: nat, q: nat)
    requires p + 4 <= mem.Length && q + 4 <= mem.Length && Apart(p, q, 4)
    modifies mem
    ensures mem[..] == MixFourAt(old(mem[..]), p, q)
  {
    var b0, b1, b2, b3 := XorWord(mem[p], mem[p + 1], mem[p + 2], mem[p + 3],
                                  mem[q], mem[q + 1], mem[q + 2], mem[q + 3]);
    AtOnce(mem[..], p, q);
    StoreFour(mem, p, b0, b1, b2, b3);
  }

  method StoreFour(mem: array<Byte>, p: nat, b0: Byte, b1: Byte, b2: Byte, b3: Byte)
    requires p + 4 <= mem.Length
    modifies mem
    ensures mem[..] == old(mem[..])[p := b0][p + 1 := b1][p + 2 := b2][p + 3 := b3]
  {
    mem[p] := b0;
    mem[p + 1] := b1;
    mem[p + 2] := b2;
    mem[p + 3] := b3;
  }

  /** `crypto_xor`: four bytes at a time, then the rest one by one. */
  method CryptoXor(mem: array<Byte>, d: nat, s: nat, size: nat)
    requires d + size <= mem.Length && s + size <= mem.Length && Apart(d, s, size)
    modifies mem
    ensures mem[..] == Put(old(mem[..]), d, Xor(old(mem[d..d + size]), old(mem[s..s + size])))
  {
    ghost var a := mem[..];
    var k := XorWords(mem, d, s, size, a);
    XorBytes(mem, d, s, size, k, a);
    MixRunIsXor(a, d, s, size);
    assert a[d..d + size] == old(mem[d..d + size]) && a[s..s + size] == old(mem[s..s + size]);
  }

  method XorWords(mem: array<Byte>, d: nat, s: nat, size: nat, ghost a: Bytes) returns (k: nat)
    requires mem[..] == a && d + size <= mem.Length && s + size <= mem.Length && Apart(d, s, size)
    modifies mem
    ensures k <= size && mem[..] == MixRun(a, d, s, k)
  {
    k := 0;
    while size - k >= 4
      invariant k <= size && mem[..] == MixRun(a, d, s, k)
    {
      MixFour(a, d, s, k);
      XorFour(mem, d + k, s + k);
      k := k + 4;
    }
  }
}
