/**
 The four loops of the CBC template, on byte-addressed memory.  Buffers are regions
 of one memory, so that an in-place call is one that reads and writes one region.
 */
module CbcLoops {
  import opened MemXor
  import opened Cbc

  // ---- Memory ------------------------------------------------------------------

  predicate Disjoint(a: nat, n: nat, b: nat, m: nat) {
    a + n <= b || b + m <= a
  }

  lemma {:induction false} PutGet(m: Bytes, at: nat, b: Bytes)
    requires at + |b| <= |m|
    ensures Put(m, at, b)[at..at + |b|] == b
  {
    PutAt(m, at, b);
  }

  lemma {:induction false} PutElse(m: Bytes, at: nat, b: Bytes, lo: nat, n: nat)
    requires at + |b| <= |m| && lo + n <= |m| && Disjoint(at, |b|, lo, n)
    ensures Put(m, at, b)[lo..lo + n] == m[lo..lo + n]
  {
    PutAt(m, at, b);
  }

  lemma {:induction false} PutAgain(m: Bytes, at: nat, b: Bytes, b': Bytes)
    requires at + |b| <= |m| && |b| == |b'|
    ensures Put(Put(m, at, b), at, b') == Put(m, at, b')
  {
    PutAt(m, at, b);
    PutAt(Put(m, at, b), at, b');
    PutAt(m, at, b');
  }

  lemma {:induction false} PutSwap(m: Bytes, a: nat, x: Bytes, b: nat, y: Bytes)
    requires a + |x| <= |m| && b + |y| <= |m| && Disjoint(a, |x|, b, |y|)
    ensures Put(Put(m, a, x), b, y) == Put(Put(m, b, y), a, x)
  {
    PutAt(m, a, x);
    PutAt(Put(m, a, x), b, y);
    PutAt(m, b, y);
    PutAt(Put(m, b, y), a, x);
  }

  lemma {:induction false} PutJoin(m: Bytes, at: nat, x: Bytes, y: Bytes)
    requires at + |x| + |y| <= |m|
    ensures Put(Put(m, at, x), at + |x|, y) == Put(m, at, x + y)
    ensures Put(Put(m, at + |x|, y), at, x) == Put(m, at, x + y)
  {
    PutAt(m, at, x);
    PutAt(Put(m, at, x), at + |x|, y);
    PutAt(m, at, x + y);
    PutSwap(m, at, x, at + |x|, y);
  }

  /** A block that is mixed with what stands at `at` goes behind, or before, what is
      already done; neither it nor the block read at `lo` was touched. */
  lemma {:induction false} BlockBehind(m: Bytes, dst: nat, done: Bytes, lo: nat, to: nat, at: nat, size: nat, x: Bytes)
    requires to == dst + |done| && to + size <= |m| && lo + size <= |m| && at + size <= |m| && |x| == size
    requires Disjoint(dst, |done|, lo, size) && Disjoint(dst, |done|, at, size)
    ensures var r := Put(m, dst, done);
      && r[lo..lo + size] == m[lo..lo + size]
      && Put(r, to, Xor(x, r[at..at + size])) == Put(m, dst, done + Xor(x, m[at..at + size]))
  {
    PutElse(m, dst, done, lo, size);
    PutElse(m, dst, done, at, size);
    PutJoin(m, dst, done, Xor(x, m[at..at + size]));
  }

  lemma {:induction false} BlockBefore(m: Bytes, p: nat, q: nat, done: Bytes, at: nat, size: nat, x: Bytes)
    requires q == p + size && q + |done| <= |m| && at + size <= |m| && |x| == size
    requires Disjoint(p, size + |done|, at, size)
    ensures var r := Put(m, q, done);
      && r[p..q] == m[p..q]
      && Put(r, p, Xor(x, r[at..at + size])) == Put(m, p, Xor(x, m[at..at + size]) + done)
  {
    PutElse(m, q, done, p, size);
    PutElse(m, q, done, at, size);
    PutJoin(m, p, Xor(x, m[at..at + size]), done);
  }

  method Store(mem: array<Byte>, at: nat, b: Bytes)
    requires at + |b| <= mem.Length
    modifies mem
    ensures mem[..] == Put(old(mem[..]), at, b)
  {
    ghost var m := mem[..];
    for i := 0 to |b|
      invariant i <= |b| && Put(mem[..], at + i, b[i..]) == Put(m, at, b)
    {
      ghost var was := mem[..];
      mem[at + i] := b[i];
      assert mem[..] == was[at + i := b[i]];
      assert b[i..][1..] == b[i + 1..];
    }
  }

  method Load(mem: array<Byte>, at: nat, size: nat) returns (b: Bytes)
    requires at + size <= mem.Length
    ensures b == mem[..][at..at + size]
  {
    b := mem[at..at + size];
  }

  /** The vector is copied back to where the caller expects it. */
  method CopyBack(mem: array<Byte>, at: nat, iv: nat, size: nat, ghost m: Bytes)
    requires mem[..] == m && at + size <= |m| && iv + size <= |m|
    modifies mem
    ensures mem[..] == Put(m, iv, m[at..at + size])
  {
    var v := Load(mem, at, size);
    Store(mem, iv, v);
  }

  /** `crypto_xor`, with the whole memory named. */
  method Mix(mem: array<Byte>, d: nat, s: nat, size: nat, ghost m: Bytes)
    requires mem[..] == m && d + size <= |m| && s + size <= |m| && Apart(d, s, size)
    modifies mem
    ensures mem[..] == Put(m, d, Xor(m[d..d + size], m[s..s + size]))
  {
    assert mem[d..d + size] == m[d..d + size] && mem[s..s + size] == m[s..s + size];
    CryptoXor(mem, d, s, size);
  }

  /** What is left of a length after taking off whole blocks; for block sizes that
      are powers of two, which the template demands, the original masks it out. */
  function Rest(n: nat, size: nat): (r: nat)
    ensures r <= n && (size > 0 ==> r < size)
  {
    if size == 0 then 0 else if n < size then n else Rest(n - size, size)
  }

  lemma {:induction false} SliceCut(m: Bytes, p: nat, q: nat, end: nat, size: nat)
    requires q == p + size && q <= end <= |m|
    ensures m[p..end][..size] == m[p..q] && m[p..end][size..] == m[q..end]
    ensures m[p..end] == m[p..q] + m[q..end]
  {
  }

  lemma {:induction false} SliceParts(m: Bytes, lo: nat, n: nat, size: nat)
    requires lo + n <= |m| && size <= n
    ensures m[lo..lo + n][..size] == m[lo..lo + size] && m[lo..lo + n][size..] == m[lo + size..lo + n]
  {
  }

  lemma {:induction false} Lengths(c: Cipher, iv: Bytes, data: Bytes)
    requires Works(c) && |iv| == c.size
    ensures |Encrypted(c, iv, data)| == |data| - Rest(|data|, c.size)
    ensures |Decrypted(c, iv, data)| == |data| - Rest(|data|, c.size)
    decreases |data|
  {
    if |data| >= c.size {
      Lengths(c, c.enc(Xor(iv, data[..c.size])), data[c.size..]);
      Lengths(c, data[..c.size], data[c.size..]);
    }
  }

  /** One block of the recurrence taken off the front. */
  lemma {:induction false} EncryptedUnfolds(c: Cipher, v: Bytes, data: Bytes)
    requires Works(c) && |v| == c.size <= |data|
    ensures var y := c.enc(Xor(v, data[..c.size]));
      && |y| == c.size
      && Encrypted(c, v, data) == y + Encrypted(c, y, data[c.size..])
      && Carried(c.size, v, Encrypted(c, v, data)) == Carried(c.size, y, Encrypted(c, y, data[c.size..]))
  {
    var y := c.enc(Xor(v, data[..c.size]));
    Blocks(y, Encrypted(c, y, data[c.size..]), c.size);
  }

  // ---- crypto_cbc_encrypt_segment ------------------------------------------------

  /** Source, destination and vector lie in memory and do not overlap. */
  predicate Laid(size: nat, len: nat, src: nat, dst: nat, iv: nat, n: nat) {
    && src + n <= len && dst + n <= len && iv + size <= len
    && Disjoint(src, n, dst, n) && Disjoint(src, n, iv, size) && Disjoint(dst, n, iv, size)
  }

  lemma {:induction false} LaidStep(size: nat, len: nat, src: nat, dst: nat, iv: nat, n: nat)
    requires Laid(size, len, src, dst, iv, n) && size <= n
    ensures Laid(size, len, src + size, dst + size, iv, n - size)
  {
  }

  /** One block from `src` to `dst`: mixed into the vector, encrypted, and copied
      back as the next vector. */
  function EncBlock(c: Cipher, m: Bytes, src: nat, dst: nat, iv: nat): (r: Bytes)
    requires src + c.size <= |m| && dst + c.size <= |m| && iv + c.size <= |m|
    ensures |r| == |m|
  {
    var x := Xor(m[iv..iv + c.size], m[src..src + c.size]);
    var y := c.enc(x);
    if |y| != c.size then m else Put(Put(Put(m, iv, x), dst, y), iv, y)
  }

  function EncSegment(c: Cipher, m: Bytes, src: nat, dst: nat, iv: nat, n: nat): (r: Bytes)
    requires src + n <= |m| && dst + n <= |m| && iv + c.size <= |m|
    ensures |r| == |m|
    decreases n
  {
    if c.size == 0 || n < c.size then m
    else EncSegment(c, EncBlock(c, m, src, dst, iv), src + c.size, dst + c.size, iv, n - c.size)
  }

  /** What a call is to leave: the text at `dst` and the next vector at `iv`. */
  function Leaves(m: Bytes, dst: nat, text: Bytes, iv: nat, vector: Bytes): Bytes
    requires dst + |text| <= |m| && iv + |vector| <= |m|
  {
    Put(Put(m, dst, text), iv, vector)
  }

  lemma {:induction false} EncBlockLeaves(c: Cipher, m: Bytes, src: nat, dst: nat, iv: nat)
    requires Works(c) && src + c.size <= |m| && dst + c.size <= |m| && iv + c.size <= |m|
    requires Disjoint(dst, c.size, iv, c.size)
    ensures var y := c.enc(Xor(m[iv..iv + c.size], m[src..src + c.size]));
      |y| == c.size && EncBlock(c, m, src, dst, iv) == Leaves(m, dst, y, iv, y)
  {
    var x := Xor(m[iv..iv + c.size], m[src..src + c.size]);
    var y := c.enc(x);
    PutSwap(m, iv, x, dst, y);
    PutAgain(Put(m, dst, y), iv, x, y);
  }

  lemma {:induction false} LeavesGrow(m: Bytes, dst: nat, y: Bytes, text: Bytes, iv: nat, v: Bytes, v': Bytes)
    requires dst + |y| + |text| <= |m| && iv + |v| <= |m| && |v| == |v'| && Disjoint(dst, |y| + |text|, iv, |v|)
    ensures Leaves(Leaves(m, dst, y, iv, v), dst + |y|, text, iv, v') == Leaves(m, dst, y + text, iv, v')
  {
    var d := Put(m, dst, y);
    PutSwap(d, iv, v, dst + |y|, text);
    PutJoin(m, dst, y, text);
    PutAgain(Put(m, dst, y + text), iv, v, v');
  }

  lemma {:induction false} LeavesReads(m: Bytes, dst: nat, y: Bytes, iv: nat, v: Bytes, lo: nat, n: nat)
    requires dst + |y| <= |m| && iv + |v| <= |m| && lo + n <= |m|
    requires Disjoint(dst, |y|, lo, n) && Disjoint(iv, |v|, lo, n)
    ensures Leaves(m, dst, y, iv, v)[lo..lo + n] == m[lo..lo + n]
    ensures Leaves(m, dst, y, iv, v)[iv..iv + |v|] == v
  {
    PutElse(m, dst, y, lo, n);
    PutElse(Put(m, dst, y), iv, v, lo, n);
    PutGet(Put(m, dst, y), iv, v);
  }

  /** What out-of-place encryption is to leave. */
  function EncGoal(c: Cipher, m: Bytes, src: nat, dst: nat, iv: nat, n: nat): Bytes
    requires src + n <= |m| && dst + n <= |m| && iv + c.size <= |m|
  {
    var v := m[iv..iv + c.size];
    var text := Encrypted(c, v, m[src..src + n]);
    Leaves(m, dst, text, iv, Carried(c.size, v, text))
  }

  lemma {:induction false} EncBlockReads(c: Cipher, m: Bytes, src: nat, dst: nat, iv: nat, n: nat)
    requires Works(c) && Laid(c.size, |m|, src, dst, iv, n) && c.size <= n
    ensures var v, data := m[iv..iv + c.size], m[src..src + n];
      var y := c.enc(Xor(v, data[..c.size]));
      var q := EncBlock(c, m, src, dst, iv);
      && |y| == c.size && q == Leaves(m, dst, y, iv, y)
      && q[iv..iv + c.size] == y && q[src + c.size..src + n] == data[c.size..]
  {
    SliceParts(m, src, n, c.size);
    EncBlockLeaves(c, m, src, dst, iv);
    var y := c.enc(Xor(m[iv..iv + c.size], m[src..src + c.size]));
    LeavesReads(m, dst, y, iv, y, src + c.size, n - c.size);
  }

  lemma {:induction false} EncGoalStep(c: Cipher, m: Bytes, src: nat, dst: nat, iv: nat, n: nat)
    requires Works(c) && Laid(c.size, |m|, src, dst, iv, n) && c.size <= n
    ensures EncGoal(c, EncBlock(c, m, src, dst, iv), src + c.size, dst + c.size, iv, n - c.size)
         == EncGoal(c, m, src, dst, iv, n)
  {
    var v, data := m[iv..iv + c.size], m[src..src + n];
    var y := c.enc(Xor(v, data[..c.size]));
    EncBlockReads(c, m, src, dst, iv, n);
    EncryptedUnfolds(c, v, data);
    var text := Encrypted(c, y, data[c.size..]);
    LeavesGrow(m, dst, y, text, iv, y, Carried(c.size, y, text));
  }

  /** The loop leaves the ciphertext of the recurrence and the vector for the next
      piece, and touches nothing else. */
  lemma {:induction false} EncSegmentIs(c: Cipher, m: Bytes, src: nat, dst: nat, iv: nat, n: nat)
    requires Works(c) && Laid(c.size, |m|, src, dst, iv, n)
    ensures EncSegment(c, m, src, dst, iv, n) == EncGoal(c, m, src, dst, iv, n)
    decreases n
  {
    if n < c.size {
      EncGoalEmpty(c, m, src, dst, iv, n);
    } else {
      LaidStep(c.size, |m|, src, dst, iv, n);
      EncSegmentIs(c, EncBlock(c, m, src, dst, iv), src + c.size, dst + c.size, iv, n - c.size);
      EncGoalStep(c, m, src, dst, iv, n);
    }
  }

  lemma {:induction false} EncGoalEmpty(c: Cipher, m: Bytes, src: nat, dst: nat, iv: nat, n: nat)
    requires n < c.size && src + n <= |m| && dst + n <= |m| && iv + c.size <= |m|
    ensures EncGoal(c, m, src, dst, iv, n) == m
  {
    NoBlocks(m, dst, iv, c.size);
  }

  lemma {:induction false} NoBlocks(m: Bytes, dst: nat, iv: nat, size: nat)
    requires dst <= |m| && iv + size <= |m|
    ensures Leaves(m, dst, [], iv, m[iv..iv + size]) == m
  {
    PutAt(m, iv, m[iv..iv + size]);
  }

  method EncryptBlock(c: Cipher, mem: array<Byte>, src: nat, dst: nat, iv: nat, ghost m: Bytes)
    requires Works(c) && mem[..] == m
    requires src + c.size <= |m| && dst + c.size <= |m| && iv + c.size <= |m| && Disjoint(src, c.size, iv, c.size)
    modifies mem
    ensures mem[..] == EncBlock(c, m, src, dst, iv)
  {
    var x := MixedAt(mem, iv, src, c.size, m);
    StoreTwice(mem, dst, iv, c.enc(x), Put(m, iv, x));
  }

  /** The vector mixed with a block, both in memory and as the cipher's input. */
  method MixedAt(mem: array<Byte>, iv: nat, src: nat, size: nat, ghost m: Bytes) returns (x: Bytes)
    requires mem[..] == m && src + size <= |m| && iv + size <= |m| && Disjoint(src, size, iv, size)
    modifies mem
    ensures x == Xor(m[iv..iv + size], m[src..src + size]) && mem[..] == Put(m, iv, x)
  {
    Mix(mem, iv, src, size, m);
    PutGet(m, iv, Xor(m[iv..iv + size], m[src..src + size]));
    x := Load(mem, iv, size);
  }

  /** A block of ciphertext is stored, and copied from there to the vector. */
  method StoreTwice(mem: array<Byte>, dst: nat, iv: nat, y: Bytes, ghost m: Bytes)
    requires mem[..] == m && dst + |y| <= |m| && iv + |y| <= |m|
    modifies mem
    ensures mem[..] == Put(Put(m, dst, y), iv, y)
  {
    Store(mem, dst, y);
    PutGet(m, dst, y);
    CopyBack(mem, dst, iv, |y|, Put(m, dst, y));
  }

  /** What is still to be done to memory `m` leads to `goal`. */
  ghost predicate LeadsTo(c: Cipher, m: Bytes, p: nat, q: nat, iv: nat, left: nat, goal: Bytes) {
    Laid(c.size, |m|, p, q, iv, left) && EncSegment(c, m, p, q, iv, left) == goal
  }

  method EncryptStep(c: Cipher, mem: array<Byte>, p: nat, q: nat, iv: nat, left: nat, ghost m: Bytes, ghost goal: Bytes)
    returns (ghost r: Bytes)
    requires Works(c) && mem[..] == m && LeadsTo(c, m, p, q, iv, left, goal) && left >= c.size
    modifies mem
    ensures mem[..] == r && LeadsTo(c, r, p + c.size, q + c.size, iv, left - c.size, goal)
  {
    LaidStep(c.size, |m|, p, q, iv, left);
    EncryptBlock(c, mem, p, q, iv, m);
    r := EncBlock(c, m, p, q, iv);
  }

  lemma {:induction false} EncEnds(c: Cipher, m: Bytes, p: nat, q: nat, iv: nat, left: nat, goal: Bytes)
    requires LeadsTo(c, m, p, q, iv, left, goal) && left < c.size
    ensures m == goal
  {
  }

  /** One turn of the loop, with its pointers. */
  method EncryptTurn(c: Cipher, mem: array<Byte>, p: nat, q: nat, iv: nat, left: nat, ghost m: Bytes, ghost goal: Bytes)
    returns (p': nat, q': nat, left': nat, ghost m': Bytes)
    requires Works(c) && mem[..] == m && LeadsTo(c, m, p, q, iv, left, goal) && left >= c.size
    modifies mem
    ensures mem[..] == m' && LeadsTo(c, m', p', q', iv, left', goal)
    ensures left' < left && Rest(left', c.size) == Rest(left, c.size)
  {
    m' := EncryptStep(c, mem, p, q, iv, left, m, goal);
    p', q', left' := p + c.size, q + c.size, left - c.size;
  }

  /** The loop of `crypto_cbc_encrypt_segment`. */
  method EncryptLoop(c: Cipher, mem: array<Byte>, src: nat, dst: nat, iv: nat, n: nat, ghost m0: Bytes, ghost goal: Bytes)
    returns (left: nat)
    requires Works(c) && mem[..] == m0 && LeadsTo(c, m0, src, dst, iv, n, goal)
    modifies mem
    ensures left == Rest(n, c.size) && mem[..] == goal
  {
    left := n;
    var p: nat, q: nat := src, dst;
    ghost var m := m0;
    while left >= c.size
      invariant LeadsTo(c, m, p, q, iv, left, goal) && Rest(left, c.size) == Rest(n, c.size) && mem[..] == m
      decreases left
    {
      p, q, left, m := EncryptTurn(c, mem, p, q, iv, left, m, goal);
    }
    EncEnds(c, m, p, q, iv, left, goal);
  }

  /** `crypto_cbc_encrypt_segment`, out of place. */
  method EncryptSegment(c: Cipher, mem: array<Byte>, src: nat, dst: nat, iv: nat, n: nat, ghost m0: Bytes)
    returns (left: nat)
    requires Works(c) && mem[..] == m0 && Laid(c.size, |m0|, src, dst, iv, n) && n >= c.size
    modifies mem
    ensures left == Rest(n, c.size) && mem[..] == EncGoal(c, m0, src, dst, iv, n)
  {
    left := EncryptLoop(c, mem, src, dst, iv, n, m0, EncSegment(c, m0, src, dst, iv, n));
    EncSegmentIs(c, m0, src, dst, iv, n);
  }

  // ---- crypto_cbc_encrypt_inplace -------------------------------------------------

  /** One block in place; `at` is where the running vector is. */
  function EncBlockIn(c: Cipher, m: Bytes, src: nat, at: nat): (r: Bytes)
    requires src + c.size <= |m| && at + c.size <= |m|
    ensures |r| == |m|
  {
    var x := Xor(m[src..src + c.size], m[at..at + c.size]);
    var y := c.enc(x);
    if |y| != c.size then m else Put(m, src, y)
  }

  /** The memory after the loop, and where the last vector is. */
  function EncIn(c: Cipher, m: Bytes, src: nat, at: nat, n: nat): (r: (Bytes, nat))
    requires src + n <= |m| && at + c.size <= |m|
    ensures |r.0| == |m| && r.1 + c.size <= |m|
    decreases n
  {
    if c.size == 0 || n < c.size then (m, at)
    else EncIn(c, EncBlockIn(c, m, src, at), src + c.size, src, n - c.size)
  }

  /** Text written in place, and the vector found where the loop says. */
  predicate InPlace(r: (Bytes, nat), m: Bytes, src: nat, text: Bytes, vector: Bytes) {
    && src + |text| <= |m| && r.0 == Put(m, src, text)
    && r.1 + |vector| <= |m| && r.0[r.1..r.1 + |vector|] == vector
  }

  lemma {:induction false} EncBlockInReads(c: Cipher, m: Bytes, src: nat, at: nat, n: nat)
    requires Works(c) && src + n <= |m| && at + c.size <= |m| && c.size <= n
    ensures var v, data := m[at..at + c.size], m[src..src + n];
      var y := c.enc(Xor(v, data[..c.size]));
      var q := EncBlockIn(c, m, src, at);
      && |y| == c.size && q == Put(m, src, y)
      && q[src..src + c.size] == y && q[src + c.size..src + n] == data[c.size..]
  {
    SliceParts(m, src, n, c.size);
    var v, x := m[at..at + c.size], m[src..src + c.size];
    XorTwice(x, v);
    var y := c.enc(Xor(x, v));
    PutGet(m, src, y);
    PutElse(m, src, y, src + c.size, n - c.size);
  }

  lemma {:induction false} EncInStep(c: Cipher, r: (Bytes, nat), m: Bytes, src: nat, at: nat, n: nat)
    requires Works(c) && src + n <= |m| && at + c.size <= |m| && c.size <= n
    requires var q := EncBlockIn(c, m, src, at);
      var y, rest := q[src..src + c.size], q[src + c.size..src + n];
      InPlace(r, q, src + c.size, Encrypted(c, y, rest), Carried(c.size, y, Encrypted(c, y, rest)))
    ensures var v, data := m[at..at + c.size], m[src..src + n];
      InPlace(r, m, src, Encrypted(c, v, data), Carried(c.size, v, Encrypted(c, v, data)))
  {
    var v, data := m[at..at + c.size], m[src..src + n];
    EncBlockInReads(c, m, src, at, n);
    EncryptedUnfolds(c, v, data);
    var y := c.enc(Xor(v, data[..c.size]));
    PutJoin(m, src, y, Encrypted(c, y, data[c.size..]));
  }

  lemma {:induction false} EncInIs(c: Cipher, m: Bytes, src: nat, at: nat, n: nat)
    requires Works(c) && src + n <= |m| && at + c.size <= |m| && Disjoint(at, c.size, src, n)
    ensures var v, data := m[at..at + c.size], m[src..src + n];
      InPlace(EncIn(c, m, src, at, n), m, src, Encrypted(c, v, data), Carried(c.size, v, Encrypted(c, v, data)))
    decreases n
  {
    if n >= c.size {
      EncInIs(c, EncBlockIn(c, m, src, at), src + c.size, src, n - c.size);
      EncInStep(c, EncIn(c, m, src, at, n), m, src, at, n);
    }
  }

  method EncryptBlockIn(c: Cipher, mem: array<Byte>, src: nat, at: nat, ghost m: Bytes)
    requires Works(c) && mem[..] == m
    requires src + c.size <= |m| && at + c.size <= |m| && Disjoint(src, c.size, at, c.size)
    modifies mem
    ensures mem[..] == EncBlockIn(c, m, src, at)
  {
    Mix(mem, src, at, c.size, m);
    PutGet(m, src, Xor(m[src..src + c.size], m[at..at + c.size]));
    var x := Load(mem, src, c.size);
    var y := c.enc(x);
    Store(mem, src, y);
    PutAgain(m, src, x, y);
  }

  method EncryptInStep(c: Cipher, mem: array<Byte>, p: nat, at: nat, left: nat, ghost m: Bytes) returns (ghost r: Bytes)
    requires Works(c) && mem[..] == m && p + left <= |m| && at + c.size <= |m| && left >= c.size
    requires Disjoint(at, c.size, p, left)
    modifies mem
    ensures mem[..] == r && |r| == |m|
    ensures EncIn(c, r, p + c.size, p, left - c.size) == EncIn(c, m, p, at, left)
  {
    EncryptBlockIn(c, mem, p, at, m);
    r := EncBlockIn(c, m, p, at);
  }

  /** The loop of `crypto_cbc_encrypt_inplace`. */
  method EncryptInLoop(c: Cipher, mem: array<Byte>, src: nat, iv: nat, n: nat, ghost m0: Bytes)
    returns (left: nat, at: nat)
    requires Works(c) && mem[..] == m0 && src + n <= |m0| && iv + c.size <= |m0| && Disjoint(iv, c.size, src, n)
    modifies mem
    ensures left == Rest(n, c.size) && (mem[..], at) == EncIn(c, m0, src, iv, n)
  {
    left, at := n, iv;
    var p: nat := src;
    ghost var m := m0;
    while left >= c.size
      invariant p + left == src + n && at + c.size <= |m| == |m0| && Disjoint(at, c.size, p, left)
      invariant Rest(left, c.size) == Rest(n, c.size)
      invariant mem[..] == m && EncIn(c, m, p, at, left) == EncIn(c, m0, src, iv, n)
      decreases left
    {
      m := EncryptInStep(c, mem, p, at, left, m);
      p, at, left := p + c.size, p, left - c.size;
    }
  }

  /** `crypto_cbc_encrypt_inplace`. */
  method EncryptInPlace(c: Cipher, mem: array<Byte>, src: nat, iv: nat, n: nat, ghost m0: Bytes) returns (left: nat)
    requires Works(c) && mem[..] == m0 && src + n <= |m0| && iv + c.size <= |m0|
    requires Disjoint(iv, c.size, src, n) && n >= c.size
    modifies mem
    ensures left == Rest(n, c.size)
    ensures var v := m0[iv..iv + c.size];
      var text := Encrypted(c, v, m0[src..src + n]);
      mem[..] == Leaves(m0, src, text, iv, Carried(c.size, v, text))
  {
    var at;
    left, at := EncryptInLoop(c, mem, src, iv, n, m0);
    EncInIs(c, m0, src, iv, n);
    CopyBack(mem, at, iv, c.size, EncIn(c, m0, src, iv, n).0);
  }

  // ---- crypto_cbc_decrypt_segment -----------------------------------------------------

  /** One block from `src` to `dst`, with the running vector at `at`. */
  function DecBlock(c: Cipher, m: Bytes, src: nat, dst: nat, at: nat): (r: Bytes)
    requires src + c.size <= |m| && dst + c.size <= |m| && at + c.size <= |m|
    ensures |r| == |m|
  {
    var x := c.dec(m[src..src + c.size]);
    if |x| != c.size then m else Put(m, dst, Xor(x, m[at..at + c.size]))
  }

  lemma {:induction false} DecryptedUnfolds(c: Cipher, v: Bytes, data: Bytes)
    requires Works(c) && |v| == c.size <= |data|
    ensures Decrypted(c, v, data) == Xor(c.dec(data[..c.size]), v) + Decrypted(c, data[..c.size], data[c.size..])
    ensures Carried(c.size, v, data) == Carried(c.size, data[..c.size], data[c.size..])
  {
  }

  /** The first `k` bytes of plaintext. */
  function Plain(c: Cipher, m0: Bytes, src: nat, iv: nat, k: nat): (r: Bytes)
    requires src + k <= |m0| && iv + c.size <= |m0|
    ensures |r| <= k
  {
    Decrypted(c, m0[iv..iv + c.size], m0[src..src + k])
  }

  /** Where the vector for the block after the first `k` bytes is. */
  function VectorAt(src: nat, iv: nat, size: nat, k: nat): (at: nat) {
    if k == 0 || src + k < size then iv else src + k - size
  }

  lemma {:induction false} LastCarried(c: Cipher, v: Bytes, m: Bytes, lo: nat, n: nat)
    requires Works(c) && |v| == c.size && lo + n <= |m|
    ensures n >= c.size ==> n - Rest(n, c.size) >= c.size
    ensures Carried(c.size, v, m[lo..lo + n])
         == if n < c.size then v else m[lo + (n - Rest(n, c.size)) - c.size..lo + (n - Rest(n, c.size))]
    decreases n
  {
    if n >= c.size {
      SliceParts(m, lo, n, c.size);
      LastCarried(c, m[lo..lo + c.size], m, lo + c.size, n - c.size);
    }
  }

  lemma {:induction false} RestOfMultiple(k: nat, size: nat)
    requires size > 0 && Steps(k, size)
    ensures Rest(k, size) == 0
  {
    if k > 0 {
      RestOfMultiple(k - size, size);
    }
  }

  lemma {:induction false} MoreSteps(k: nat, size: nat)
    requires size > 0 && Steps(k, size)
    ensures Steps(k + size, size)
  {
  }

  lemma {:induction false} StepsWhole(size: nat, data: Bytes)
    requires Steps(|data|, size)
    ensures Whole(size, data)
    decreases |data|
  {
    if data != [] {
      StepsWhole(size, data[size..]);
    }
  }

  lemma {:induction false} OneBlock(c: Cipher, v: Bytes, y: Bytes)
    requires Works(c) && |v| == c.size == |y|
    ensures Decrypted(c, v, y) == Xor(c.dec(y), v)
  {
    DecryptedUnfolds(c, v, y);
    assert y[..c.size] == y && y[c.size..] == [];
    assert Xor(c.dec(y), v) + [] == Xor(c.dec(y), v);
  }

  /** The plaintext grows by one block, mixed with the ciphertext before it. */
  lemma {:induction false} PlainStep(c: Cipher, m0: Bytes, src: nat, iv: nat, k: nat)
    requires Works(c) && src + k + c.size <= |m0| && iv + c.size <= |m0| && Steps(k, c.size)
    ensures var at := VectorAt(src, iv, c.size, k);
      && at + c.size <= |m0| && |Plain(c, m0, src, iv, k)| == k
      && Plain(c, m0, src, iv, k + c.size)
         == Plain(c, m0, src, iv, k) + Xor(c.dec(m0[src + k..src + k + c.size]), m0[at..at + c.size])
  {
    VectorIsLast(c, m0, src, iv, k);
    PlainAppends(c, m0, src, iv, k, src + k, src + k + c.size);
  }

  lemma {:induction false} PlainAppends(c: Cipher, m0: Bytes, src: nat, iv: nat, k: nat, mid: nat, end: nat)
    requires Works(c) && mid == src + k && end == mid + c.size && end <= |m0| && iv + c.size <= |m0| && Steps(k, c.size)
    ensures |Plain(c, m0, src, iv, k)| == k
    ensures Plain(c, m0, src, iv, k + c.size)
         == Plain(c, m0, src, iv, k) + Xor(c.dec(m0[mid..end]), Carried(c.size, m0[iv..iv + c.size], m0[src..mid]))
  {
    SliceCut(m0, src, mid, end, k);
    AppendBlock(c, m0[iv..iv + c.size], m0[src..mid], m0[mid..end]);
  }

  lemma {:induction false} VectorIsLast(c: Cipher, m0: Bytes, src: nat, iv: nat, k: nat)
    requires Works(c) && src + k <= |m0| && iv + c.size <= |m0| && Steps(k, c.size)
    ensures var at := VectorAt(src, iv, c.size, k);
      at + c.size <= |m0| && Carried(c.size, m0[iv..iv + c.size], m0[src..src + k]) == m0[at..at + c.size]
  {
    StepsAtLeast(k, c.size);
    RestOfMultiple(k, c.size);
    LastCarried(c, m0[iv..iv + c.size], m0, src, k);
  }

  lemma {:induction false} AppendBlock(c: Cipher, v: Bytes, a: Bytes, b: Bytes)
    requires Works(c) && |v| == c.size == |b| && Steps(|a|, c.size)
    ensures |Decrypted(c, v, a)| == |a|
    ensures Decrypted(c, v, a + b) == Decrypted(c, v, a) + Xor(c.dec(b), Carried(c.size, v, a))
  {
    Lengths(c, v, a);
    RestOfMultiple(|a|, c.size);
    StepsWhole(c.size, a);
    DecryptedJoins(c, v, a, b);
    OneBlock(c, Carried(c.size, v, a), b);
  }

  /** Memory with the first `k` bytes of plaintext in place. */
  function PlainPut(c: Cipher, m0: Bytes, src: nat, dst: nat, iv: nat, k: nat): (r: Bytes)
    requires src + k <= |m0| && dst + k <= |m0| && iv + c.size <= |m0|
    ensures |r| == |m0|
  {
    Put(m0, dst, Plain(c, m0, src, iv, k))
  }

  /** One block of the loop: what stands at `lo`, decrypted and mixed with the vector
      at `at`, extends the plaintext from `k` to `k'` bytes. */
  lemma {:induction false} PlainPutStep(c: Cipher, m0: Bytes, src: nat, dst: nat, iv: nat, k: nat, k': nat, lo: nat, to: nat, at: nat)
    requires Works(c) && Steps(k, c.size) && k' == k + c.size && lo == src + k && to == dst + k
    requires lo + c.size <= |m0| && to + c.size <= |m0| && iv + c.size <= |m0|
    requires at == VectorAt(src, iv, c.size, k) && at + c.size <= |m0|
    requires Disjoint(dst, k, lo, c.size) && Disjoint(dst, k, at, c.size)
    ensures DecBlock(c, PlainPut(c, m0, src, dst, iv, k), lo, to, at) == PlainPut(c, m0, src, dst, iv, k')
  {
    var done := PlainPutGrows(c, m0, src, dst, iv, k, k', lo, at);
    DecBlockBehind(c, m0, dst, done, lo, to, at);
  }

  lemma {:induction false} PlainPutGrows(c: Cipher, m0: Bytes, src: nat, dst: nat, iv: nat, k: nat, k': nat, lo: nat, at: nat)
    returns (done: Bytes)
    requires Works(c) && Steps(k, c.size) && k' == k + c.size && lo == src + k
    requires lo + c.size <= |m0| && dst + k' <= |m0| && iv + c.size <= |m0| && at == VectorAt(src, iv, c.size, k)
    ensures at + c.size <= |m0| && |done| == k && |c.dec(m0[lo..lo + c.size])| == c.size
    ensures PlainPut(c, m0, src, dst, iv, k) == Put(m0, dst, done)
    ensures PlainPut(c, m0, src, dst, iv, k') == Put(m0, dst, done + Xor(c.dec(m0[lo..lo + c.size]), m0[at..at + c.size]))
  {
    PlainStep(c, m0, src, iv, k);
    done := Plain(c, m0, src, iv, k);
  }

  /** One block decrypted behind the plaintext `done`. */
  lemma {:induction false} DecBlockBehind(c: Cipher, m: Bytes, dst: nat, done: Bytes, lo: nat, to: nat, at: nat)
    requires to == dst + |done| && to + c.size <= |m| && lo + c.size <= |m| && at + c.size <= |m|
    requires Disjoint(dst, |done|, lo, c.size) && Disjoint(dst, |done|, at, c.size)
    requires |c.dec(m[lo..lo + c.size])| == c.size
    ensures DecBlock(c, Put(m, dst, done), lo, to, at)
         == Put(m, dst, done + Xor(c.dec(m[lo..lo + c.size]), m[at..at + c.size]))
  {
    var r, x := Put(m, dst, done), c.dec(m[lo..lo + c.size]);
    BlockBehind(m, dst, done, lo, to, at, c.size, x);
    DecBlockIs(c, r, lo, to, at, x);
  }

  lemma {:induction false} DecBlockIs(c: Cipher, r: Bytes, lo: nat, to: nat, at: nat, x: Bytes)
    requires to + c.size <= |r| && lo + c.size <= |r| && at + c.size <= |r| && x == c.dec(r[lo..lo + c.size]) && |x| == c.size
    ensures DecBlock(c, r, lo, to, at) == Put(r, to, Xor(x, r[at..at + c.size]))
  {
  }

  /** One block decrypted in place before the plaintext `done`. */
  lemma {:induction false} DecBlockBefore(c: Cipher, m: Bytes, p: nat, q: nat, done: Bytes, at: nat)
    requires q == p + c.size && q + |done| <= |m| && at + c.size <= |m|
    requires Disjoint(p, c.size + |done|, at, c.size) && |c.dec(m[p..q])| == c.size
    ensures DecBlock(c, Put(m, q, done), p, p, at) == Put(m, p, Xor(c.dec(m[p..q]), m[at..at + c.size]) + done)
  {
    var r, x := Put(m, q, done), c.dec(m[p..q]);
    BlockBefore(m, p, q, done, at, c.size, x);
    DecBlockIs(c, r, p, p, at, x);
  }

  /** The running vector is apart from all that is written. */
  lemma {:induction false} VectorInside(size: nat, len: nat, src: nat, dst: nat, iv: nat, n: nat, k: nat)
    requires Laid(size, len, src, dst, iv, n) && k + size <= n && Steps(k, size)
    ensures var at := VectorAt(src, iv, size, k);
      && at + size <= len && Disjoint(dst, k + size, at, size) && Disjoint(dst, k, at, size)
      && Disjoint(dst + k, size, at, size) && Disjoint(dst, k, src + k, size)
  {
    StepsAtLeast(k, size);
  }

  lemma {:induction false} StepsAtLeast(k: nat, size: nat)
    requires Steps(k, size)
    ensures k == 0 || k >= size
  {
  }

  method DecryptBlock(c: Cipher, mem: array<Byte>, src: nat, dst: nat, at: nat, ghost m: Bytes)
    requires Works(c) && mem[..] == m
    requires src + c.size <= |m| && dst + c.size <= |m| && at + c.size <= |m| && Disjoint(dst, c.size, at, c.size)
    modifies mem
    ensures mem[..] == DecBlock(c, m, src, dst, at)
  {
    var y := Load(mem, src, c.size);
    StoreMixed(mem, dst, at, c.size, c.dec(y), m);
  }

  method StoreMixed(mem: array<Byte>, dst: nat, at: nat, size: nat, x: Bytes, ghost m: Bytes)
    requires mem[..] == m && dst + size <= |m| && at + size <= |m| && |x| == size && Disjoint(dst, size, at, size)
    modifies mem
    ensures mem[..] == Put(m, dst, Xor(x, m[at..at + size]))
  {
    Store(mem, dst, x);
    Mix(mem, dst, at, size, Put(m, dst, x));
    DecBlockSteps(m, dst, at, size, x);
  }

  lemma {:induction false} DecBlockSteps(m: Bytes, dst: nat, at: nat, size: nat, x: Bytes)
    requires dst + size <= |m| && at + size <= |m| && |x| == size && Disjoint(dst, size, at, size)
    ensures var r := Put(m, dst, x);
      Put(r, dst, Xor(r[dst..dst + size], r[at..at + size])) == Put(m, dst, Xor(x, m[at..at + size]))
  {
    PutGet(m, dst, x);
    PutElse(m, dst, x, at, size);
    PutAgain(m, dst, x, Xor(x, m[at..at + size]));
  }

  /** `crypto_cbc_decrypt_segment`, out of place. */
  method DecryptSegment(c: Cipher, mem: array<Byte>, src: nat, dst: nat, iv: nat, n: nat, ghost m0: Bytes)
    returns (left: nat)
    requires Works(c) && mem[..] == m0 && Laid(c.size, |m0|, src, dst, iv, n) && n >= c.size
    modifies mem
    ensures left == Rest(n, c.size) && mem[..] == DecGoal(c, m0, src, dst, iv, n)
  {
    var at;
    ghost var m;
    left, at, m := DecryptBlocksOut(c, mem, src, dst, iv, n, m0, DecGoal(c, m0, src, dst, iv, n));
    CopyBack(mem, at, iv, c.size, m);
  }

  /** What out-of-place decryption is to leave. */
  function DecGoal(c: Cipher, m0: Bytes, src: nat, dst: nat, iv: nat, n: nat): Bytes
    requires src + n <= |m0| && dst + n <= |m0| && iv + c.size <= |m0|
  {
    var v, text := m0[iv..iv + c.size], m0[src..src + n];
    Leaves(m0, dst, Decrypted(c, v, text), iv, Carried(c.size, v, text))
  }

  /** All but the copying of the vector, which is at `at`. */
  method DecryptBlocksOut(c: Cipher, mem: array<Byte>, src: nat, dst: nat, iv: nat, n: nat, ghost m0: Bytes, ghost goal: Bytes)
    returns (left: nat, at: nat, ghost m: Bytes)
    requires Works(c) && mem[..] == m0 && Laid(c.size, |m0|, src, dst, iv, n) && n >= c.size
    requires goal == DecGoal(c, m0, src, dst, iv, n)
    modifies mem
    ensures left == Rest(n, c.size) && mem[..] == m && |m| == |m0| && at + c.size <= |m|
    ensures Put(m, iv, m[at..at + c.size]) == goal
  {
    left, at := DecryptLoop(c, mem, src, dst, iv, n, m0);
    m := mem[..];
    SegmentLeaves(c, m0, src, dst, iv, n, n - left, at, m);
  }

  lemma {:induction false} SegmentLeaves(c: Cipher, m0: Bytes, src: nat, dst: nat, iv: nat, n: nat, e: nat, at: nat, m: Bytes)
    requires Works(c) && Laid(c.size, |m0|, src, dst, iv, n) && c.size <= n && e == n - Rest(n, c.size)
    requires at == VectorAt(src, iv, c.size, e) && m == PlainPut(c, m0, src, dst, iv, e)
    ensures at + c.size <= |m0| && Put(m, iv, m[at..at + c.size]) == DecGoal(c, m0, src, dst, iv, n)
  {
    SegmentPlain(c, m0, src, dst, iv, n, e);
  }

  method DecryptStep(c: Cipher, mem: array<Byte>, src: nat, dst: nat, iv: nat, n: nat, k: nat, lo: nat, to: nat, at: nat,
                     ghost k': nat, ghost m0: Bytes)
    requires Works(c) && Laid(c.size, |m0|, src, dst, iv, n) && Steps(k, c.size)
    requires k' == k + c.size && k' <= n && lo == src + k && to == dst + k && at == VectorAt(src, iv, c.size, k)
    requires mem[..] == PlainPut(c, m0, src, dst, iv, k)
    modifies mem
    ensures mem[..] == PlainPut(c, m0, src, dst, iv, k')
  {
    BlockExtends(c, m0, src, dst, iv, n, k, k', lo, to, at);
    DecryptBlock(c, mem, lo, to, at, mem[..]);
  }

  lemma {:induction false} BlockExtends(c: Cipher, m0: Bytes, src: nat, dst: nat, iv: nat, n: nat, k: nat, k': nat, lo: nat, to: nat, at: nat)
    requires Works(c) && Laid(c.size, |m0|, src, dst, iv, n) && Steps(k, c.size)
    requires k' == k + c.size && k' <= n && lo == src + k && to == dst + k && at == VectorAt(src, iv, c.size, k)
    ensures at + c.size <= |m0| && Disjoint(to, c.size, at, c.size)
    ensures DecBlock(c, PlainPut(c, m0, src, dst, iv, k), lo, to, at) == PlainPut(c, m0, src, dst, iv, k')
  {
    VectorInside(c.size, |m0|, src, dst, iv, n, k);
    PlainPutStep(c, m0, src, dst, iv, k, k', lo, to, at);
  }

  /** The loop of `crypto_cbc_decrypt_segment`. */
  method DecryptLoop(c: Cipher, mem: array<Byte>, src: nat, dst: nat, iv: nat, n: nat, ghost m0: Bytes)
    returns (left: nat, at: nat)
    requires Works(c) && mem[..] == m0 && Laid(c.size, |m0|, src, dst, iv, n)
    modifies mem
    ensures left == Rest(n, c.size) && at == VectorAt(src, iv, c.size, n - left)
    ensures mem[..] == PlainPut(c, m0, src, dst, iv, n - left)
  {
    left, at := n, iv;
    var k: nat := 0;
    while left >= c.size
      invariant left == n - k && k <= n && Steps(k, c.size) && at == VectorAt(src, iv, c.size, k)
      invariant mem[..] == PlainPut(c, m0, src, dst, iv, k)
      decreases left
    {
      DecryptStep(c, mem, src, dst, iv, n, k, src + k, dst + k, at, k + c.size, m0);
      MoreSteps(k, c.size);
      at, k, left := src + k, k + c.size, left - c.size;
    }
    RestAfter(n, k, c.size);
  }

  lemma {:induction false} RestAfter(n: nat, k: nat, size: nat)
    requires k <= n && Steps(k, size) && n - k < size
    ensures Rest(n, size) == n - k
  {
    if k > 0 {
      RestAfter(n - size, k - size, size);
    }
  }

  lemma {:induction false} PlainWhole(c: Cipher, m0: Bytes, src: nat, iv: nat, n: nat)
    requires Works(c) && src + n <= |m0| && iv + c.size <= |m0|
    ensures Plain(c, m0, src, iv, n - Rest(n, c.size)) == Decrypted(c, m0[iv..iv + c.size], m0[src..src + n])
  {
    TrimmedAt(c, m0[iv..iv + c.size], m0, src, n);
  }

  lemma {:induction false} PlainVector(c: Cipher, m0: Bytes, src: nat, dst: nat, iv: nat, n: nat, e: nat, text: Bytes)
    requires Works(c) && Laid(c.size, |m0|, src, dst, iv, n) && c.size <= n && e == n - Rest(n, c.size)
    requires |text| <= n
    ensures var at := VectorAt(src, iv, c.size, e);
      && at + c.size <= |m0|
      && Put(m0, dst, text)[at..at + c.size] == Carried(c.size, m0[iv..iv + c.size], m0[src..src + n])
  {
    LastCarried(c, m0[iv..iv + c.size], m0, src, n);
    PutElse(m0, dst, text, src + e - c.size, c.size);
  }

  lemma {:induction false} SegmentPlain(c: Cipher, m0: Bytes, src: nat, dst: nat, iv: nat, n: nat, e: nat)
    requires Works(c) && Laid(c.size, |m0|, src, dst, iv, n) && c.size <= n && e == n - Rest(n, c.size)
    ensures var v, text := m0[iv..iv + c.size], m0[src..src + n];
      var at := VectorAt(src, iv, c.size, e);
      && at + c.size <= |m0| && PlainPut(c, m0, src, dst, iv, e) == Put(m0, dst, Decrypted(c, v, text))
      && PlainPut(c, m0, src, dst, iv, e)[at..at + c.size] == Carried(c.size, v, text)
  {
    PlainWhole(c, m0, src, iv, n);
    PlainVector(c, m0, src, dst, iv, n, e, Decrypted(c, m0[iv..iv + c.size], m0[src..src + n]));
  }

  // ---- crypto_cbc_decrypt_inplace -----------------------------------------------------

  /** Backwards in place from the block at `p` down to the one at `src`: each block is
      decrypted and mixed with the ciphertext still standing before it, the first
      with the vector at `iv`. */
  function DecBack(c: Cipher, m: Bytes, src: nat, iv: nat, p: nat): (r: Bytes)
    requires src <= p && p + c.size <= |m| && iv + c.size <= |m|
    ensures |r| == |m|
    decreases p
  {
    if c.size == 0 || p < src + c.size then DecBlock(c, m, p, p, iv)
    else DecBack(c, DecBlock(c, m, p, p, p - c.size), src, iv, p - c.size)
  }

  /** Memory with the plaintext of everything from `p` to `end` in place, given where
      the vector for the block at `p` is. */
  function BackDone(c: Cipher, m0: Bytes, p: nat, at: nat, end: nat): (r: Bytes)
    requires p <= end <= |m0| && at + c.size <= |m0|
    ensures |r| == |m0|
  {
    Put(m0, p, Decrypted(c, m0[at..at + c.size], m0[p..end]))
  }

  lemma {:induction false} BlockOff(c: Cipher, v: Bytes, m: Bytes, p: nat, q: nat, end: nat)
    requires Works(c) && |v| == c.size && q == p + c.size && q <= end <= |m|
    ensures Decrypted(c, v, m[p..end]) == Xor(c.dec(m[p..q]), v) + Decrypted(c, m[p..q], m[q..end])
  {
    SliceCut(m, p, q, end, c.size);
    DecryptedUnfolds(c, v, m[p..end]);
  }

  /** The block at `p` joins the plaintext already standing after it. */
  lemma {:induction false} DecBackBlock(c: Cipher, m0: Bytes, p: nat, q: nat, at: nat, end: nat)
    requires Works(c) && q == p + c.size && q <= end <= |m0| && at + c.size <= |m0| && Disjoint(at, c.size, p, end - p)
    ensures DecBlock(c, BackDone(c, m0, q, p, end), p, p, at) == BackDone(c, m0, p, at, end)
  {
    var done := Decrypted(c, m0[p..q], m0[q..end]);
    DecBlockBefore(c, m0, p, q, done, at);
    BlockOff(c, m0[at..at + c.size], m0, p, q, end);
  }

  /** A multiple of the block size. */
  predicate Steps(d: nat, size: nat) {
    d == 0 || (0 < size <= d && Steps(d - size, size))
  }

  /** From the block at `p`, which ends at `q` and is `d` bytes into the piece. */
  lemma {:induction false} DecBackIs(c: Cipher, m0: Bytes, src: nat, iv: nat, d: nat, p: nat, q: nat, end: nat)
    requires Works(c) && p == src + d && q == p + c.size && q <= end <= |m0| && iv + c.size <= |m0|
    requires Disjoint(iv, c.size, src, end - src) && Steps(d, c.size)
    ensures DecBack(c, BackDone(c, m0, q, p, end), src, iv, p) == BackDone(c, m0, src, iv, end)
    decreases d
  {
    if d == 0 {
      DecBackFirst(c, m0, p, iv, q, end);
    } else {
      var o := p - c.size;
      DecBackOne(c, m0, src, iv, o, p, q, end);
      DecBackIs(c, m0, src, iv, d - c.size, o, p, end);
    }
  }

  lemma {:induction false} DecBackFirst(c: Cipher, m0: Bytes, p: nat, iv: nat, q: nat, end: nat)
    requires Works(c) && q == p + c.size && q <= end <= |m0| && iv + c.size <= |m0| && Disjoint(iv, c.size, p, end - p)
    ensures DecBack(c, BackDone(c, m0, q, p, end), p, iv, p) == BackDone(c, m0, p, iv, end)
  {
    DecBackBlock(c, m0, p, q, iv, end);
    DownEnds(c, BackDone(c, m0, q, p, end), p, iv, p);
  }

  lemma {:induction false} DownEnds(c: Cipher, m: Bytes, src: nat, iv: nat, p: nat)
    requires src <= p < src + c.size && p + c.size <= |m| && iv + c.size <= |m|
    ensures DecBack(c, m, src, iv, p) == DecBlock(c, m, p, p, iv)
  {
  }

  lemma {:induction false} DownUnfolds(c: Cipher, m: Bytes, src: nat, iv: nat, o: nat, p: nat)
    requires c.size > 0 && src <= o && p == o + c.size && p + c.size <= |m| && iv + c.size <= |m|
    ensures DecBack(c, m, src, iv, p) == DecBack(c, DecBlock(c, m, p, p, o), src, iv, o)
  {
  }

  lemma {:induction false} DecBackOne(c: Cipher, m0: Bytes, src: nat, iv: nat, o: nat, p: nat, q: nat, end: nat)
    requires Works(c) && src <= o && p == o + c.size && q == p + c.size && q <= end <= |m0| && iv + c.size <= |m0|
    ensures DecBack(c, BackDone(c, m0, q, p, end), src, iv, p) == DecBack(c, BackDone(c, m0, p, o, end), src, iv, o)
  {
    DecBackBlock(c, m0, p, q, o, end);
    DownUnfolds(c, BackDone(c, m0, q, p, end), src, iv, o, p);
  }

  lemma {:induction false} RestSteps(n: nat, size: nat)
    requires size > 0
    ensures Steps(n - Rest(n, size), size)
  {
    if n >= size {
      RestSteps(n - size, size);
    }
  }

  lemma {:induction false} SliceEnd(m: Bytes, lo: nat, n: nat, size: nat)
    requires lo + n <= |m| && Rest(n, size) <= n
    ensures m[lo..lo + n][..n - Rest(n, size)] == m[lo..lo + n - Rest(n, size)]
  {
  }

  /** A tail shorter than a block is not touched. */
  lemma {:induction false} DecryptedTrims(c: Cipher, v: Bytes, data: Bytes)
    requires Works(c) && |v| == c.size
    ensures Decrypted(c, v, data) == Decrypted(c, v, data[..|data| - Rest(|data|, c.size)])
    decreases |data|
  {
    if |data| >= c.size {
      var e := |data| - Rest(|data|, c.size);
      assert data[..e][..c.size] == data[..c.size];
      assert data[..e][c.size..] == data[c.size..][..e - c.size];
      DecryptedTrims(c, data[..c.size], data[c.size..]);
    }
  }

  method DownStep(c: Cipher, mem: array<Byte>, src: nat, iv: nat, p: nat, ghost m: Bytes) returns (ghost r: Bytes)
    requires Works(c) && mem[..] == m && src + c.size <= p && p + c.size <= |m| && iv + c.size <= |m|
    modifies mem
    ensures mem[..] == r && |r| == |m| && DecBack(c, r, src, iv, p - c.size) == DecBack(c, m, src, iv, p)
  {
    DownUnfolds(c, m, src, iv, p - c.size, p);
    DecryptBlock(c, mem, p, p, p - c.size, m);
    r := DecBlock(c, m, p, p, p - c.size);
  }

  /** The loop of `crypto_cbc_decrypt_inplace`, from the last block back to the
      first. */
  method DecryptDown(c: Cipher, mem: array<Byte>, src: nat, iv: nat, last: nat, ghost m0: Bytes)
    returns (p: nat, ghost m: Bytes)
    requires Works(c) && mem[..] == m0 && src <= last && last + c.size <= |m0| && iv + c.size <= |m0|
    modifies mem
    ensures mem[..] == m && |m| == |m0| && src <= p <= last && p < src + c.size
    ensures DecBack(c, m, src, iv, p) == DecBack(c, m0, src, iv, last)
  {
    p, m := last, m0;
    while p >= src + c.size
      invariant src <= p <= last && |m| == |m0| && mem[..] == m
      invariant DecBack(c, m, src, iv, p) == DecBack(c, m0, src, iv, last)
      decreases p
    {
      m := DownStep(c, mem, src, iv, p, m);
      p := p - c.size;
    }
  }

  method DecryptBack(c: Cipher, mem: array<Byte>, src: nat, iv: nat, last: nat, ghost m0: Bytes)
    requires Works(c) && mem[..] == m0 && src <= last && last + c.size <= |m0| && iv + c.size <= |m0|
    requires Disjoint(iv, c.size, src, last + c.size - src)
    modifies mem
    ensures mem[..] == DecBack(c, m0, src, iv, last)
  {
    ghost var m;
    var p;
    p, m := DecryptDown(c, mem, src, iv, last, m0);
    DecryptBlock(c, mem, p, p, iv, m);
  }

  lemma {:induction false} DecBackFrom(c: Cipher, m0: Bytes, src: nat, iv: nat, e: nat, last: nat, end: nat)
    requires Works(c) && c.size <= e && end == src + e <= |m0| && iv + c.size <= |m0| && Disjoint(iv, c.size, src, e)
    requires Steps(e, c.size) && last + c.size == end
    ensures DecBack(c, m0, src, iv, last) == BackDone(c, m0, src, iv, end)
  {
    assert BackDone(c, m0, end, last, end) == m0;
    DecBackIs(c, m0, src, iv, e - c.size, last, end, end);
  }

  lemma {:induction false} TrimmedAt(c: Cipher, v: Bytes, m: Bytes, lo: nat, n: nat)
    requires Works(c) && |v| == c.size && lo + n <= |m|
    ensures Decrypted(c, v, m[lo..lo + n]) == Decrypted(c, v, m[lo..lo + (n - Rest(n, c.size))])
  {
    SliceEnd(m, lo, n, c.size);
    DecryptedTrims(c, v, m[lo..lo + n]);
  }

  lemma {:induction false} RestLeavesBlock(n: nat, size: nat)
    requires 0 < size <= n
    ensures n - Rest(n, size) >= size && Steps(n - Rest(n, size), size)
  {
    RestSteps(n, size);
    assert Rest(n, size) == Rest(n - size, size);
  }

  /** What the backward loop leaves, in terms of the recurrence. */
  lemma {:induction false} DecBackWhole(c: Cipher, m0: Bytes, src: nat, iv: nat, n: nat, e: nat, last: nat)
    requires Works(c) && c.size <= n && src + n <= |m0| && iv + c.size <= |m0| && Disjoint(iv, c.size, src, n)
    requires e == n - Rest(n, c.size) && last + c.size == src + e
    ensures e >= c.size
    ensures DecBack(c, m0, src, iv, last)
         == Put(m0, src, Decrypted(c, m0[iv..iv + c.size], m0[src..src + n]))
  {
    RestLeavesBlock(n, c.size);
    DecBackFrom(c, m0, src, iv, e, last, src + e);
    BackDoneTrims(c, m0, src, iv, n, e);
  }

  lemma {:induction false} BackDoneTrims(c: Cipher, m0: Bytes, src: nat, iv: nat, n: nat, e: nat)
    requires Works(c) && src + n <= |m0| && iv + c.size <= |m0| && e == n - Rest(n, c.size)
    ensures BackDone(c, m0, src, iv, src + e) == Put(m0, src, Decrypted(c, m0[iv..iv + c.size], m0[src..src + n]))
  {
    TrimmedAt(c, m0[iv..iv + c.size], m0, src, n);
  }

  method DecryptBackAll(c: Cipher, mem: array<Byte>, src: nat, iv: nat, n: nat, last: nat, ghost m0: Bytes)
    requires Works(c) && mem[..] == m0 && src + n <= |m0| && iv + c.size <= |m0|
    requires Disjoint(iv, c.size, src, n) && n >= c.size && last + c.size == src + (n - Rest(n, c.size)) && src <= last
    modifies mem
    ensures mem[..] == Put(m0, src, Decrypted(c, m0[iv..iv + c.size], m0[src..src + n]))
  {
    DecryptBack(c, mem, src, iv, last, m0);
    DecBackWhole(c, m0, src, iv, n, n - Rest(n, c.size), last);
  }

  /** The blocks of `crypto_cbc_decrypt_inplace`, whose last ciphertext is saved first. */
  method DecryptBlocks(c: Cipher, mem: array<Byte>, src: nat, iv: nat, n: nat, left: nat, ghost m0: Bytes)
    returns (lastIv: Bytes)
    requires Works(c) && mem[..] == m0 && src + n <= |m0| && iv + c.size <= |m0|
    requires Disjoint(iv, c.size, src, n) && n >= c.size && left == Rest(n, c.size)
    modifies mem
    ensures mem[..] == Put(m0, src, Decrypted(c, m0[iv..iv + c.size], m0[src..src + n]))
    ensures lastIv == Carried(c.size, m0[iv..iv + c.size], m0[src..src + n])
  {
    LastCarried(c, m0[iv..iv + c.size], m0, src, n);
    var last := src + (n - left) - c.size;
    lastIv := Load(mem, last, c.size);
    DecryptBackAll(c, mem, src, iv, n, last, m0);
  }

  /** `crypto_cbc_decrypt_inplace`. */
  method DecryptInPlace(c: Cipher, mem: array<Byte>, src: nat, iv: nat, n: nat, ghost m0: Bytes) returns (left: nat)
    requires Works(c) && mem[..] == m0 && src + n <= |m0| && iv + c.size <= |m0|
    requires Disjoint(iv, c.size, src, n) && n >= c.size
    modifies mem
    ensures left == Rest(n, c.size)
    ensures var v, text := m0[iv..iv + c.size], m0[src..src + n];
      mem[..] == Leaves(m0, src, Decrypted(c, v, text), iv, Carried(c.size, v, text))
  {
    left := Rest(n, c.size);
    var lastIv := DecryptBlocks(c, mem, src, iv, n, left, m0);
    Store(mem, iv, lastIv);
  }
}
