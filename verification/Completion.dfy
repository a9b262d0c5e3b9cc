/**
 Partial completion of a request.

 A driver reports that the first bytes of a request are done.  The block layer
 ends the bios those bytes cover, moves the first unfinished bio forward, and
 leaves a chain that holds exactly the remaining bytes.
 */
module Completion {
  import opened Segments

  /** What a bio still has to transfer. */
  datatype Live = Live(id: nat, vecs: seq<Vec>)

  datatype Outcome = Outcome(left: seq<Live>, ended: seq<nat>)

  // ---- The bytes of a chain ----------------------------------------------

  function Range(a: nat, n: nat): (r: seq<nat>)
    ensures |r| == n
    decreases n
  {
    if n == 0 then [] else [a] + Range(a + 1, n - 1)
  }

  /** The byte addresses of a list of pieces, in transfer order. */
  function Bytes(vecs: seq<Vec>): (r: seq<nat>) {
    if vecs == [] then [] else Range(vecs[0].phys, vecs[0].len) + Bytes(vecs[1..])
  }

  function AllBytes(chain: seq<Live>): seq<nat> {
    if chain == [] then [] else Bytes(chain[0].vecs) + AllBytes(chain[1..])
  }

  function Ids(chain: seq<Live>): seq<nat> {
    if chain == [] then [] else [chain[0].id] + Ids(chain[1..])
  }

  function Drop<T>(s: seq<T>, n: nat): seq<T> {
    if n < |s| then s[n..] else []
  }

  // ---- The effect of a completion ----------------------------------------

  function Forward(v: Vec, n: nat): Vec
    requires n <= v.len
  {
    v.(phys := v.phys + n, len := v.len - n)
  }

  /** A list of pieces after `n` of its bytes are done. */
  function Advance(vecs: seq<Vec>, n: nat): seq<Vec> {
    if n == 0 || vecs == [] then vecs
    else if vecs[0].len > n then [Forward(vecs[0], n)] + vecs[1..]
    else Advance(vecs[1..], n - vecs[0].len)
  }

  /** A chain after `n` bytes are done. */
  function Complete(chain: seq<Live>, n: nat): Outcome
    decreases |chain|
  {
    if chain == [] then Outcome([], [])
    else if n < Size(chain[0].vecs) then Outcome([Live(chain[0].id, Advance(chain[0].vecs, n))] + chain[1..], [])
    else if n == Size(chain[0].vecs) then Outcome(chain[1..], [chain[0].id])
    else
      var r := Complete(chain[1..], n - Size(chain[0].vecs));
      Outcome(r.left, [chain[0].id] + r.ended)
  }

  // ---- Exactly the first bytes go ----------------------------------------

  lemma {:induction false} RangeDrop(a: nat, n: nat, k: nat)
    requires k <= n
    ensures Range(a, n)[k..] == Range(a + k, n - k)
    decreases n
  {
    if k > 0 { RangeDrop(a + 1, n - 1, k - 1); }
  }

  lemma BytesSize(vecs: seq<Vec>)
    ensures |Bytes(vecs)| == Size(vecs)
  {
  }

  lemma {:induction false} AdvanceSize(vecs: seq<Vec>, n: nat)
    requires n <= Size(vecs)
    ensures Size(Advance(vecs, n)) == Size(vecs) - n
  {
    if n > 0 {
      var v := vecs[0];
      if v.len > n {
        assert ([Forward(v, n)] + vecs[1..])[1..] == vecs[1..];
      } else {
        AdvanceSize(vecs[1..], n - v.len);
      }
    }
  }

  lemma DropFirst<T>(a: seq<T>, b: seq<T>, n: nat)
    ensures n < |a| ==> Drop(a + b, n) == a[n..] + b
    ensures n >= |a| ==> Drop(a + b, n) == Drop(b, n - |a|)
  {
  }

  lemma {:induction false} AdvanceDrops(vecs: seq<Vec>, n: nat)
    ensures Bytes(Advance(vecs, n)) == Drop(Bytes(vecs), n)
  {
    if n > 0 && vecs != [] {
      var v := vecs[0];
      DropFirst(Range(v.phys, v.len), Bytes(vecs[1..]), n);
      if v.len > n {
        RangeDrop(v.phys, v.len, n);
        assert ([Forward(v, n)] + vecs[1..])[1..] == vecs[1..];
      } else {
        AdvanceDrops(vecs[1..], n - v.len);
      }
    }
  }

  /** Completing `n` bytes drops the first `n` bytes of the chain and nothing
      else; the bios that end and those that stay are the chain, in order. */
  lemma {:induction false} CompleteDrops(chain: seq<Live>, n: nat)
    ensures AllBytes(Complete(chain, n).left) == Drop(AllBytes(chain), n)
    ensures Ids(chain) == Complete(chain, n).ended + Ids(Complete(chain, n).left)
    decreases |chain|
  {
    if chain != [] {
      var size := Size(chain[0].vecs);
      BytesSize(chain[0].vecs);
      if n < size {
        AdvanceDrops(chain[0].vecs, n);
        var left := Complete(chain, n).left;
        assert left[1..] == chain[1..];
      } else if n > size {
        CompleteDrops(chain[1..], n - size);
      } else {
        assert Drop(AllBytes(chain), n) == AllBytes(chain[1..]);
      }
    }
  }

  lemma {:induction false} BytesBefore(chain: seq<Live>, i: nat)
    requires 0 < i <= |chain|
    ensures |AllBytes(chain[..i])| == Size(chain[0].vecs) + |AllBytes(chain[1..][..i - 1])|
  {
    assert chain[..i][1..] == chain[1..][..i - 1];
    BytesSize(chain[0].vecs);
  }

  /** A bio ends exactly when its last byte is done and, unless it is the first,
      more bytes are done than those before it: an empty bio waits for the next
      byte. */
  lemma {:induction false} EndsWhenDone(chain: seq<Live>, n: nat, i: nat)
    requires i < |chain|
    ensures i < |Complete(chain, n).ended| <==>
            |AllBytes(chain[..i + 1])| <= n && (i == 0 || |AllBytes(chain[..i])| < n)
    decreases |chain|
  {
    var size := Size(chain[0].vecs);
    BytesBefore(chain, i + 1);
    if i > 0 {
      BytesBefore(chain, i);
      if n > size { EndsWhenDone(chain[1..], n - size, i - 1); }
    } else {
      assert chain[1..][..0] == [];
    }
  }

  // ---- Two completions are one -------------------------------------------

  lemma {:induction false} AdvanceTwice(vecs: seq<Vec>, a: nat, b: nat)
    requires a + b <= Size(vecs)
    ensures Advance(Advance(vecs, a), b) == Advance(vecs, a + b)
  {
    if a > 0 && b > 0 {
      var v := vecs[0];
      if v.len > a {
        var w := [Forward(v, a)] + vecs[1..];
        assert w[1..] == vecs[1..];
      } else {
        AdvanceTwice(vecs[1..], a - v.len, b);
      }
    }
  }

  /** Completing `a` bytes and then `b` bytes is completing them at once. */
  predicate Splits(chain: seq<Live>, a: nat, b: nat) {
    var first := Complete(chain, a);
    var second := Complete(first.left, b);
    Complete(chain, a + b) == Outcome(second.left, first.ended + second.ended)
  }

  function After(gone: seq<nat>, r: Outcome): Outcome {
    Outcome(r.left, gone + r.ended)
  }

  lemma {:induction false} NothingDone(chain: seq<Live>)
    requires chain != [] && 0 < Size(chain[0].vecs)
    ensures Complete(chain, 0) == Outcome(chain, [])
  {
    assert chain == [chain[0]] + chain[1..];
  }

  /** The first completion stops inside the first bio. */
  lemma {:induction false} SplitsInside(chain: seq<Live>, a: nat, b: nat)
    requires chain != [] && a < Size(chain[0].vecs)
    ensures Splits(chain, a, b)
  {
    var vecs, rest := chain[0].vecs, chain[1..];
    var half := Live(chain[0].id, Advance(vecs, a));
    AdvanceSize(vecs, a);
    assert Complete(chain, a).left == [half] + rest;
    assert ([half] + rest)[1..] == rest;
    if a + b <= Size(vecs) { AdvanceTwice(vecs, a, b); }
  }

  /** It goes beyond the first bio, so the rest decides. */
  lemma {:induction false} SplitsBeyond(chain: seq<Live>, a: nat, b: nat)
    requires chain != [] && a > Size(chain[0].vecs)
    ensures Splits(chain, a, b) <==> Splits(chain[1..], a - Size(chain[0].vecs), b)
  {
    var rest, a', id := chain[1..], a - Size(chain[0].vecs), chain[0].id;
    var first := Complete(rest, a');
    var second := Complete(first.left, b);
    assert Complete(chain, a + b) == After([id], Complete(rest, a' + b));
    assert ([id] + first.ended) + second.ended == [id] + (first.ended + second.ended);
    SameAfter(id, Complete(rest, a' + b), Outcome(second.left, first.ended + second.ended));
  }

  lemma SameAfter(id: nat, r: Outcome, r': Outcome)
    ensures After([id], r) == After([id], r') <==> r == r'
  {
    if After([id], r) == After([id], r') {
      assert ([id] + r.ended)[1..] == r.ended && ([id] + r'.ended)[1..] == r'.ended;
    }
  }

  /** It ends exactly with the first bio. */
  lemma {:induction false} SplitsAtEnd(chain: seq<Live>, b: nat)
    requires chain != []
    ensures Splits(chain, Size(chain[0].vecs), b) <==> b > 0 || |chain| == 1 || Size(chain[1].vecs) > 0
  {
    var size, rest := Size(chain[0].vecs), chain[1..];
    assert Complete(chain, size) == Outcome(rest, [chain[0].id]);
    if b == 0 && rest != [] {
      if Size(rest[0].vecs) > 0 {
        NothingDone(rest);
      } else {
        assert Complete(rest, 0).ended == [rest[0].id];
      }
    }
  }

  /** `a` bytes stop right before an empty bio. */
  ghost predicate StopsBeforeEmpty(chain: seq<Live>, a: nat) {
    exists i :: 0 < i < |chain| && |AllBytes(chain[..i])| == a && Size(chain[i].vecs) == 0
  }

  lemma {:induction false} StopsLater(chain: seq<Live>, a: nat)
    requires chain != [] && a > Size(chain[0].vecs)
    ensures StopsBeforeEmpty(chain, a) <==> StopsBeforeEmpty(chain[1..], a - Size(chain[0].vecs))
  {
    var rest, a' := chain[1..], a - Size(chain[0].vecs);
    if StopsBeforeEmpty(chain, a) {
      var i :| 0 < i < |chain| && |AllBytes(chain[..i])| == a && Size(chain[i].vecs) == 0;
      BytesBefore(chain, i);
      assert rest[..0] == [] && rest[i - 1] == chain[i];
      assert 0 < i - 1 < |rest| && |AllBytes(rest[..i - 1])| == a' && Size(rest[i - 1].vecs) == 0;
    }
    if StopsBeforeEmpty(rest, a') {
      var i :| 0 < i < |rest| && |AllBytes(rest[..i])| == a' && Size(rest[i].vecs) == 0;
      BytesBefore(chain, i + 1);
      assert chain[i + 1] == rest[i];
    }
  }

  lemma {:induction false} StopsAtEnd(chain: seq<Live>)
    requires chain != []
    ensures StopsBeforeEmpty(chain, Size(chain[0].vecs)) <==> |chain| > 1 && Size(chain[1].vecs) == 0
  {
    assert chain[1..][..0] == [];
    if |chain| > 1 { BytesBefore(chain, 1); }
    if i :| 1 < i < |chain| && |AllBytes(chain[..i])| == Size(chain[0].vecs) && Size(chain[i].vecs) == 0 {
      BytesBefore(chain, i);
      BytesBefore(chain[1..], i - 1);
    }
  }

  lemma {:induction false} StopsInside(chain: seq<Live>, a: nat)
    requires chain != [] && a < Size(chain[0].vecs)
    ensures !StopsBeforeEmpty(chain, a)
  {
    forall i | 0 < i < |chain| ensures |AllBytes(chain[..i])| != a {
      BytesBefore(chain, i);
    }
  }

  /** Completing `a` bytes and then `b` bytes is completing them at once, for all
      chains; only a further completion of no bytes at all can make a difference, and
      it does exactly after a stop right before an empty bio, which it ends. */
  lemma {:induction false} SplitsExactly(chain: seq<Live>, a: nat, b: nat)
    ensures Splits(chain, a, b) <==> b > 0 || !StopsBeforeEmpty(chain, a)
    decreases |chain|
  {
    if chain != [] {
      var size := Size(chain[0].vecs);
      if a < size {
        SplitsInside(chain, a, b);
        StopsInside(chain, a);
      } else if a > size {
        SplitsBeyond(chain, a, b);
        StopsLater(chain, a);
        SplitsExactly(chain[1..], a - size, b);
      } else {
        SplitsAtEnd(chain, b);
        StopsAtEnd(chain);
      }
    }
  }

  // ---- The request object ------------------------------------------------

  /** A bio as the block layer keeps it: the pieces before `idx` are done. */
  datatype BioState = BioState(id: nat, size: nat, idx: nat, vecs: seq<Vec>)

  ghost predicate BioOk(b: BioState) {
    b.idx <= |b.vecs| && b.size == Size(b.vecs[b.idx..])
  }

  ghost predicate ChainOk(bios: seq<BioState>) {
    bios == [] || (BioOk(bios[0]) && ChainOk(bios[1..]))
  }

  ghost function View(b: BioState): Live
    requires BioOk(b)
  {
    Live(b.id, b.vecs[b.idx..])
  }

  ghost function Views(bios: seq<BioState>): (r: seq<Live>)
    requires ChainOk(bios)
  {
    if bios == [] then [] else [View(bios[0])] + Views(bios[1..])
  }

  lemma ViewsCons(b: BioState, bios: seq<BioState>)
    requires BioOk(b) && ChainOk(bios)
    ensures ChainOk([b] + bios) && Views([b] + bios) == [View(b)] + Views(bios)
  {
    assert ([b] + bios)[1..] == bios;
  }

  /** The turns of the loop that stay within one bio: `k` of its pieces are done
      and `part` bytes of the next, `done` bytes in all. */
  method WalkBio(vecs: seq<Vec>, nrBytes: nat) returns (k: nat, done: nat, part: nat)
    requires nrBytes < Size(vecs)
    ensures done == nrBytes && k < |vecs| && part <= vecs[k].len
    ensures 0 < done ==> Advance(vecs, done) == [Forward(vecs[k], part)] + vecs[k + 1..]
  {
    k, done, part := 0, 0, nrBytes;
    while true
      invariant k <= |vecs| && done + part == nrBytes && Size(vecs[k..]) == Size(vecs) - done
      invariant part == 0 ==> k == 0 && done == 0
      invariant Advance(vecs, nrBytes) == Advance(vecs[k..], part)
      decreases |vecs| - k
    {
      var nbytes := vecs[k].len;
      assert nbytes <= Size(vecs);
      assert vecs[k..][1..] == vecs[k + 1..];
      if nbytes > part {
        done := done + part;
        return;
      }
      k, done, part := k + 1, done + nbytes, part - nbytes;
      if part <= 0 {
        assert Advance(vecs[k..], 0) == vecs[k..];
        return;
      }
    }
  }

  lemma AfterAfter(a: seq<nat>, b: seq<nat>, r: Outcome)
    ensures After(a, After(b, r)) == After(a + b, r)
    ensures After(a, Outcome(r.left, b)) == Outcome(r.left, a + b)
  {
  }

  lemma EndOne(b: Live, rest: seq<Live>, n: nat)
    requires Size(b.vecs) <= n
    ensures Complete([b] + rest, n) ==
            if n == Size(b.vecs) then Outcome(rest, [b.id]) else After([b.id], Complete(rest, n - Size(b.vecs)))
    ensures rest == [] ==> Complete([b] + rest, n) == After([b.id], Complete(rest, n - Size(b.vecs)))
  {
    assert ([b] + rest)[1..] == rest;
  }

  class CompletionRequest {
    var bios: seq<BioState>
    /** The bios whose end_io ran, oldest first. */
    var ended: seq<nat>

    ghost predicate Valid()
      reads this
    {
      ChainOk(bios)
    }

    constructor (chain: seq<BioState>)
      requires ChainOk(chain)
      ensures Valid() && bios == chain && ended == []
    {
      bios, ended := chain, [];
    }

    /** The turns of the loop that end whole bios.  What remains to be done is
        then less than the first bio left, or nothing. */
    method EndWholeBios(nrBytes: nat) returns (nr: nat, ghost gone: seq<nat>)
      requires Valid()
      modifies this
      ensures Valid() && ended == old(ended) + gone
      ensures bios != [] && nr != 0 ==> nr < bios[0].size
      ensures Complete(Views(old(bios)), nrBytes) ==
              if bios == [] || nr == 0 then Outcome(Views(bios), gone) else After(gone, Complete(Views(bios), nr))
    {
      nr, gone := nrBytes, [];
      while bios != [] && nr >= bios[0].size
        invariant Valid() && ended == old(ended) + gone
        invariant Complete(Views(old(bios)), nrBytes) == After(gone, Complete(Views(bios), nr))
        decreases |bios|
      {
        var bio := bios[0];
        EndOne(View(bio), Views(bios[1..]), nr);
        AfterAfter(gone, [bio.id], Complete(Views(bios[1..]), nr - bio.size));
        bios, ended, gone, nr := bios[1..], ended + [bio.id], gone + [bio.id], nr - bio.size;
        if bios != [] && nr == 0 {
          return;
        }
      }
      if bios != [] && nr == 0 {
        NothingDone(Views(bios));
      }
    }

    /** The end of `__end_that_request_first`: the first unfinished bio moves
        forward by `done` bytes, of which `part` lie in its current piece. */
    method MoveForward(k: nat, done: nat, part: nat)
      requires Valid() && bios != [] && bios[0].idx + k < |bios[0].vecs| && done <= bios[0].size
      requires var b := bios[0]; var v := b.vecs[b.idx + k];
               part <= v.len && Advance(View(b).vecs, done) == [Forward(v, part)] + b.vecs[b.idx + k + 1..]
      modifies this`bios
      ensures Valid() && Views(bios) == [Live(old(bios)[0].id, Advance(View(old(bios)[0]).vecs, done))] + Views(old(bios)[1..])
    {
      var b := bios[0];
      AdvanceSize(View(b).vecs, done);
      var i := b.idx + k;
      var b' := b.(size := b.size - done, idx := i, vecs := b.vecs[i := Forward(b.vecs[i], part)]);
      assert b'.vecs[i..] == [Forward(b.vecs[i], part)] + b.vecs[i + 1..];
      ViewsCons(b', bios[1..]);
      bios := [b'] + bios[1..];
    }

    /** `__end_that_request_first`: what is left and which bios ended is what
        `Complete` says; the request stays pending exactly when bios are left. */
    method EndThatRequestFirst(nrBytes: nat) returns (pending: bool)
      requires Valid()
      modifies this
      ensures Valid() && pending == (bios != [])
      ensures var r := Complete(Views(old(bios)), nrBytes);
              Views(bios) == r.left && ended == old(ended) + r.ended
    {
      var nr, gone := EndWholeBios(nrBytes);
      if bios == [] {
        return false;
      }
      if nr != 0 {
        var b := bios[0];
        var k, done, part := WalkBio(b.vecs[b.idx..], nr);
        assert b.vecs[b.idx..][k + 1..] == b.vecs[b.idx + k + 1..];
        assert Views(bios) == [View(b)] + Views(bios[1..]);
        MoveForward(k, done, part);
      }
      return true;
    }
  }
}
