/**
 A whole CBC request: a walk over pieces of memory, each handled in place or out of
 place, with the vector carried from one piece to the next.
 */
module CbcWalk {
  import opened MemXor
  import opened Cbc
  import opened CbcLoops

  datatype Piece = Piece(src: nat, dst: nat, n: nat)

  /** A piece is whole blocks, is in place or apart, and is clear of the vector. */
  predicate PieceOk(size: nat, len: nat, iv: nat, p: Piece) {
    && 0 < size <= p.n && Steps(p.n, size)
    && p.src + p.n <= len && p.dst + p.n <= len && iv + size <= len
    && (p.src == p.dst || Disjoint(p.src, p.n, p.dst, p.n))
    && Disjoint(p.src, p.n, iv, size) && Disjoint(p.dst, p.n, iv, size)
  }

  /** What is written for `p` is not read or written for the later pieces. */
  predicate Clear(p: Piece, ps: seq<Piece>) {
    ps == [] || (Disjoint(p.dst, p.n, ps[0].src, ps[0].n) && Disjoint(p.dst, p.n, ps[0].dst, ps[0].n) && Clear(p, ps[1..]))
  }

  predicate PiecesOk(size: nat, len: nat, iv: nat, ps: seq<Piece>) {
    ps == [] || (PieceOk(size, len, iv, ps[0]) && Clear(ps[0], ps[1..]) && PiecesOk(size, len, iv, ps[1..]))
  }

  /** One piece, by the recurrence. */
  function PieceDone(c: Cipher, enc: bool, m: Bytes, iv: nat, p: Piece): (r: Bytes)
    requires PieceOk(c.size, |m|, iv, p)
    ensures |r| == |m|
  {
    var v, data := m[iv..iv + c.size], m[p.src..p.src + p.n];
    Leaves(m, p.dst, Text(c, enc, v, data), iv, Vector(c, enc, v, data))
  }

  function WalkDone(c: Cipher, enc: bool, m: Bytes, iv: nat, ps: seq<Piece>): (r: Bytes)
    requires PiecesOk(c.size, |m|, iv, ps)
    ensures |r| == |m|
    decreases |ps|
  {
    if ps == [] then m else WalkDone(c, enc, PieceDone(c, enc, m, iv, ps[0]), iv, ps[1..])
  }

  function Region(m: Bytes, lo: nat, n: nat): Bytes {
    if lo + n <= |m| then m[lo..lo + n] else []
  }

  /** The bytes of the pieces, as read or as written, joined. */
  function Sources(m: Bytes, ps: seq<Piece>): Bytes {
    if ps == [] then [] else Region(m, ps[0].src, ps[0].n) + Sources(m, ps[1..])
  }

  function Results(m: Bytes, ps: seq<Piece>): Bytes {
    if ps == [] then [] else Region(m, ps[0].dst, ps[0].n) + Results(m, ps[1..])
  }

  /** `crypto_cbc_encrypt_segment` and `crypto_cbc_encrypt_inplace`. */
  method EncryptPiece(c: Cipher, mem: array<Byte>, iv: nat, p: Piece, ghost m: Bytes) returns (left: nat)
    requires Works(c) && mem[..] == m && PieceOk(c.size, |m|, iv, p)
    modifies mem
    ensures left == Rest(p.n, c.size) && mem[..] == PieceDone(c, true, m, iv, p)
  {
    if p.src == p.dst {
      left := EncryptInPlace(c, mem, p.src, iv, p.n, m);
    } else {
      left := EncryptSegment(c, mem, p.src, p.dst, iv, p.n, m);
    }
  }

  /** The decrypting pair. */
  method DecryptPiece(c: Cipher, mem: array<Byte>, iv: nat, p: Piece, ghost m: Bytes) returns (left: nat)
    requires Works(c) && mem[..] == m && PieceOk(c.size, |m|, iv, p)
    modifies mem
    ensures left == Rest(p.n, c.size) && mem[..] == PieceDone(c, false, m, iv, p)
  {
    if p.src == p.dst {
      left := DecryptInPlace(c, mem, p.src, iv, p.n, m);
    } else {
      left := DecryptSegment(c, mem, p.src, p.dst, iv, p.n, m);
    }
  }

  method CryptPiece(c: Cipher, enc: bool, mem: array<Byte>, iv: nat, p: Piece, ghost m: Bytes) returns (left: nat)
    requires Works(c) && mem[..] == m && PieceOk(c.size, |m|, iv, p)
    modifies mem
    ensures left == Rest(p.n, c.size) && mem[..] == PieceDone(c, enc, m, iv, p)
  {
    if enc {
      left := EncryptPiece(c, mem, iv, p, m);
    } else {
      left := DecryptPiece(c, mem, iv, p, m);
    }
  }

  /** `crypto_cbc_encrypt` and `crypto_cbc_decrypt` over the pieces of a walk. */
  method Crypt(c: Cipher, enc: bool, mem: array<Byte>, iv: nat, ps: seq<Piece>, ghost m0: Bytes)
    requires Works(c) && mem[..] == m0 && PiecesOk(c.size, |m0|, iv, ps)
    modifies mem
    ensures mem[..] == WalkDone(c, enc, m0, iv, ps)
  {
    ghost var m := m0;
    var i := 0;
    while i < |ps|
      invariant i <= |ps| && mem[..] == m && |m| == |m0| && PiecesOk(c.size, |m|, iv, ps[i..])
      invariant WalkDone(c, enc, m, iv, ps[i..]) == WalkDone(c, enc, m0, iv, ps)
    {
      assert ps[i..][1..] == ps[i + 1..];
      var left := CryptPiece(c, enc, mem, iv, ps[i], m);
      m := PieceDone(c, enc, m, iv, ps[i]);
      i := i + 1;
    }
  }

  // ---- Any split gives the same -----------------------------------------------------

  /** A whole piece writes exactly its length. */
  lemma {:induction false} TextFills(c: Cipher, enc: bool, v: Bytes, data: Bytes)
    requires Works(c) && |v| == c.size && Steps(|data|, c.size)
    ensures |Text(c, enc, v, data)| == |data| && Whole(c.size, data)
  {
    Lengths(c, v, data);
    RestOfMultiple(|data|, c.size);
    StepsWhole(c.size, data);
  }

  lemma {:induction false} PieceReads(c: Cipher, enc: bool, m: Bytes, iv: nat, p: Piece, v: Bytes, data: Bytes)
    requires Works(c) && PieceOk(c.size, |m|, iv, p) && v == m[iv..iv + c.size] && data == m[p.src..p.src + p.n]
    ensures Whole(c.size, data)
    ensures var r := PieceDone(c, enc, m, iv, p);
      Region(r, p.dst, p.n) == Text(c, enc, v, data) && Region(r, iv, c.size) == Vector(c, enc, v, data)
  {
    TextFills(c, enc, v, data);
    LeavesBoth(m, p.dst, p.n, Text(c, enc, v, data), iv, c.size, Vector(c, enc, v, data));
  }

  lemma {:induction false} LeavesBoth(m: Bytes, dst: nat, n: nat, text: Bytes, iv: nat, size: nat, w: Bytes)
    requires n == |text| && size == |w| && dst + n <= |m| && iv + size <= |m| && Disjoint(dst, n, iv, size)
    ensures var r := Leaves(m, dst, text, iv, w); Region(r, dst, n) == text && Region(r, iv, size) == w
  {
    PutGet(m, dst, text);
    PutElse(Put(m, dst, text), iv, w, dst, n);
    PutGet(Put(m, dst, text), iv, w);
  }

  /** Memory changed at most where `p` is written and in the vector. */
  ghost predicate Outside(q: Bytes, m: Bytes, p: Piece, iv: nat, size: nat) {
    |q| == |m| && forall lo: nat, n: nat | Disjoint(p.dst, p.n, lo, n) && Disjoint(iv, size, lo, n) ::
      Region(q, lo, n) == Region(m, lo, n)
  }

  lemma {:induction false} PieceOutside(c: Cipher, enc: bool, m: Bytes, iv: nat, p: Piece)
    requires PieceOk(c.size, |m|, iv, p)
    ensures Outside(PieceDone(c, enc, m, iv, p), m, p, iv, c.size)
  {
    forall lo: nat, n: nat | Disjoint(p.dst, p.n, lo, n) && Disjoint(iv, c.size, lo, n)
      ensures Region(PieceDone(c, enc, m, iv, p), lo, n) == Region(m, lo, n)
    {
      PieceRegion(c, enc, m, iv, p, lo, n);
    }
  }

  lemma {:induction false} PieceRegion(c: Cipher, enc: bool, m: Bytes, iv: nat, p: Piece, lo: nat, n: nat)
    requires PieceOk(c.size, |m|, iv, p) && Disjoint(p.dst, p.n, lo, n) && Disjoint(iv, c.size, lo, n)
    ensures Region(PieceDone(c, enc, m, iv, p), lo, n) == Region(m, lo, n)
  {
    var text, w := PieceWrites(c, enc, m, iv, p);
    LeavesRegion(m, p.dst, p.n, text, iv, w, lo, n);
  }

  /** A piece writes a text no longer than itself and a vector. */
  lemma {:induction false} PieceWrites(c: Cipher, enc: bool, m: Bytes, iv: nat, p: Piece) returns (text: Bytes, w: Bytes)
    requires PieceOk(c.size, |m|, iv, p)
    ensures |text| <= p.n && |w| == c.size && PieceDone(c, enc, m, iv, p) == Leaves(m, p.dst, text, iv, w)
  {
    var v, data := m[iv..iv + c.size], m[p.src..p.src + p.n];
    text, w := Text(c, enc, v, data), Vector(c, enc, v, data);
  }

  lemma {:induction false} LeavesRegion(m: Bytes, dst: nat, room: nat, text: Bytes, iv: nat, w: Bytes, lo: nat, n: nat)
    requires |text| <= room && dst + room <= |m| && iv + |w| <= |m| && Disjoint(dst, room, lo, n) && Disjoint(iv, |w|, lo, n)
    ensures Region(Leaves(m, dst, text, iv, w), lo, n) == Region(m, lo, n)
  {
    if lo + n <= |m| {
      PutElse(m, dst, text, lo, n);
      PutElse(Put(m, dst, text), iv, w, lo, n);
    }
  }

  /** Handling a piece leaves the sources of the later ones alone. */
  lemma {:induction false} SourcesKept(size: nat, q: Bytes, m: Bytes, iv: nat, p: Piece, ps: seq<Piece>)
    requires Outside(q, m, p, iv, size) && Clear(p, ps) && PiecesOk(size, |m|, iv, ps)
    ensures Sources(q, ps) == Sources(m, ps)
    decreases |ps|
  {
    if ps != [] {
      SourcesKept(size, q, m, iv, p, ps[1..]);
    }
  }

  /** Handling the later pieces leaves the result of an earlier one alone. */
  lemma {:induction false} ResultKept(c: Cipher, enc: bool, m: Bytes, iv: nat, p: Piece, ps: seq<Piece>)
    requires Works(c) && PieceOk(c.size, |m|, iv, p) && Clear(p, ps) && PiecesOk(c.size, |m|, iv, ps)
    ensures Region(WalkDone(c, enc, m, iv, ps), p.dst, p.n) == Region(m, p.dst, p.n)
    decreases |ps|
  {
    if ps != [] {
      PieceOutside(c, enc, m, iv, ps[0]);
      ResultKept(c, enc, PieceDone(c, enc, m, iv, ps[0]), iv, p, ps[1..]);
    }
  }

  /** What a walk from memory `m` is to leave in memory `r`. */
  ghost predicate Split(c: Cipher, enc: bool, r: Bytes, m: Bytes, iv: nat, ps: seq<Piece>) {
    && |Region(m, iv, c.size)| == c.size
    && Results(r, ps) == Text(c, enc, Region(m, iv, c.size), Sources(m, ps))
    && Region(r, iv, c.size) == Vector(c, enc, Region(m, iv, c.size), Sources(m, ps))
  }

  lemma {:induction false} SplitStep(c: Cipher, enc: bool, r: Bytes, q: Bytes, m: Bytes, iv: nat, p: Piece, rest: seq<Piece>,
                  v: Bytes, data: Bytes)
    requires Works(c) && |v| == c.size && v == Region(m, iv, c.size) && data == Region(m, p.src, p.n)
    requires Whole(c.size, data) && Split(c, enc, r, q, iv, rest) && Sources(q, rest) == Sources(m, rest)
    requires Region(q, iv, c.size) == Vector(c, enc, v, data)
    requires Region(r, p.dst, p.n) == Text(c, enc, v, data)
    ensures Split(c, enc, r, m, iv, [p] + rest)
  {
    TextJoins(c, enc, v, data, Sources(m, rest));
    VectorJoins(c, enc, v, data, Sources(m, rest));
    assert ([p] + rest)[1..] == rest;
  }

  /** Whatever the pieces, the results joined are what one pass over the joined
      sources gives, and the vector left behind is that of the one pass. */
  lemma {:induction false} AnySplit(c: Cipher, enc: bool, m: Bytes, iv: nat, ps: seq<Piece>)
    requires Works(c) && PiecesOk(c.size, |m|, iv, ps) && iv + c.size <= |m|
    ensures Split(c, enc, WalkDone(c, enc, m, iv, ps), m, iv, ps)
    decreases |ps|
  {
    if ps != [] {
      var p, rest := ps[0], ps[1..];
      var q := PieceDone(c, enc, m, iv, p);
      AnySplit(c, enc, q, iv, rest);
      PieceThenRest(c, enc, m, iv, p, rest);
      assert ps == [p] + rest;
    }
  }

  lemma {:induction false} PieceThenRest(c: Cipher, enc: bool, m: Bytes, iv: nat, p: Piece, rest: seq<Piece>)
    requires Works(c) && PieceOk(c.size, |m|, iv, p) && Clear(p, rest) && PiecesOk(c.size, |m|, iv, rest)
    requires var q := PieceDone(c, enc, m, iv, p); Split(c, enc, WalkDone(c, enc, q, iv, rest), q, iv, rest)
    ensures Split(c, enc, WalkDone(c, enc, PieceDone(c, enc, m, iv, p), iv, rest), m, iv, [p] + rest)
  {
    var q := PieceDone(c, enc, m, iv, p);
    var v, data := PieceSplit(c, enc, m, iv, p);
    RestKeeps(c, enc, m, iv, p, rest);
    SplitStep(c, enc, WalkDone(c, enc, q, iv, rest), q, m, iv, p, rest, v, data);
  }

  /** What a piece reads, and what it leaves in its own region and in the vector. */
  lemma {:induction false} PieceSplit(c: Cipher, enc: bool, m: Bytes, iv: nat, p: Piece) returns (v: Bytes, data: Bytes)
    requires Works(c) && PieceOk(c.size, |m|, iv, p)
    ensures |v| == c.size && v == Region(m, iv, c.size) && data == Region(m, p.src, p.n) && Whole(c.size, data)
    ensures var q := PieceDone(c, enc, m, iv, p);
      Region(q, iv, c.size) == Vector(c, enc, v, data) && Region(q, p.dst, p.n) == Text(c, enc, v, data)
  {
    v, data := m[iv..iv + c.size], m[p.src..p.src + p.n];
    PieceReads(c, enc, m, iv, p, v, data);
  }

  lemma {:induction false} RestKeeps(c: Cipher, enc: bool, m: Bytes, iv: nat, p: Piece, rest: seq<Piece>)
    requires Works(c) && PieceOk(c.size, |m|, iv, p) && Clear(p, rest) && PiecesOk(c.size, |m|, iv, rest)
    ensures var q := PieceDone(c, enc, m, iv, p);
      && Sources(q, rest) == Sources(m, rest)
      && Region(WalkDone(c, enc, q, iv, rest), p.dst, p.n) == Region(q, p.dst, p.n)
  {
    var q := PieceDone(c, enc, m, iv, p);
    PieceOutside(c, enc, m, iv, p);
    SourcesKept(c.size, q, m, iv, p, rest);
    ResultKept(c, enc, q, iv, p, rest);
  }

  // ---- Decrypting undoes encrypting, whatever the pieces ------------------------------

  lemma {:induction false} WholeJoins(size: nat, a: Bytes, b: Bytes)
    requires Whole(size, a) && Whole(size, b)
    ensures Whole(size, a + b)
    decreases |a|
  {
    if a == [] {
      assert a + b == b;
    } else {
      assert (a + b)[size..] == a[size..] + b;
      WholeJoins(size, a[size..], b);
    }
  }

  lemma {:induction false} SourcesWhole(size: nat, m: Bytes, iv: nat, ps: seq<Piece>)
    requires PiecesOk(size, |m|, iv, ps)
    ensures Whole(size, Sources(m, ps))
    decreases |ps|
  {
    if ps != [] {
      SourcesWhole(size, m, iv, ps[1..]);
      StepsWhole(size, Region(m, ps[0].src, ps[0].n));
      WholeJoins(size, Region(m, ps[0].src, ps[0].n), Sources(m, ps[1..]));
    }
  }

  /** A text encrypted in pieces `ps` of memory `m`, and decrypted in whatever pieces
      `qs` of a memory `m'` that holds the ciphertext and the same vector, is the text
      again; both leave the same vector behind. */
  lemma {:induction false} WalkRoundTrip(c: Cipher, m: Bytes, iv: nat, ps: seq<Piece>, m': Bytes, iv': nat, qs: seq<Piece>)
    requires Works(c) && Undoes(c)
    requires PiecesOk(c.size, |m|, iv, ps) && iv + c.size <= |m|
    requires PiecesOk(c.size, |m'|, iv', qs) && iv' + c.size <= |m'|
    requires Region(m', iv', c.size) == Region(m, iv, c.size)
    requires Sources(m', qs) == Results(WalkDone(c, true, m, iv, ps), ps)
    ensures Results(WalkDone(c, false, m', iv', qs), qs) == Sources(m, ps)
    ensures Region(WalkDone(c, false, m', iv', qs), iv', c.size) == Region(WalkDone(c, true, m, iv, ps), iv, c.size)
  {
    AnySplit(c, true, m, iv, ps);
    AnySplit(c, false, m', iv', qs);
    SourcesWhole(c.size, m, iv, ps);
    RoundTrip(c, Region(m, iv, c.size), Sources(m, ps));
  }
}
