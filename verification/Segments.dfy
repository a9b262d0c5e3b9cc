/**
 Segment counting and scatterlist mapping.

 A request is a chain of bios, a bio a list of memory pieces.  While bios and
 requests are merged the block layer keeps an incremental count of the physical
 segments; the driver sizes its scatterlist by that count, and `blk_rq_map_sg`
 then fills it greedily.  The list never needs more entries than were counted.
 */
module Segments {

  /** A piece of a page, and whether the page lies above the bounce limit. */
  datatype Vec = Vec(phys: nat, len: nat, high: bool)

  /** Queue limits.  `window` is `seg_boundary_mask + 1`, a power of two: two
      addresses agree above the mask when they are in the same window.  `apart` says
      that a page above the bounce limit shares no segment, as the count demands. */
  datatype Queue = Queue(cluster: bool, maxSegSize: nat, window: nat, maxPhysSegs: nat, maxHwSegs: nat, maxSectors: nat,
                         apart: bool)
  {
    predicate Ok() {
      0 < window
    }
  }

  /** `BIOVEC_PHYS_MERGEABLE` and `BIOVEC_SEG_BOUNDARY` on a clustering queue. */
  predicate Joins(q: Queue, a: Vec, b: Vec)
    requires q.Ok()
  {
    && q.cluster && a.phys + a.len == b.phys && a.phys / q.window == (b.phys + b.len - 1) / q.window
    && !(q.apart && (a.high || b.high))
  }

  /** The limits by which segments are counted: high pages stay apart. */
  function Counting(q: Queue): (r: Queue)
    ensures q.Ok() ==> r.Ok()
  {
    q.(apart := true)
  }

  // ---- Segmentations -----------------------------------------------------

  type Seg = seq<Vec>

  function Size(g: Seg): nat {
    if g == [] then 0 else g[0].len + Size(g[1..])
  }

  predicate Chain(q: Queue, g: Seg)
    requires q.Ok()
  {
    |g| < 2 || (Joins(q, g[0], g[1]) && Chain(q, g[1..]))
  }

  /** A segment the hardware accepts: pieces that join, within the size limit
      unless it is a single piece. */
  predicate Fits(q: Queue, g: Seg)
    requires q.Ok()
  {
    g != [] && Chain(q, g) && (|g| == 1 || Size(g) <= q.maxSegSize)
  }

  lemma DivMonotone(x: nat, y: nat, w: nat)
    requires 0 < w && x <= y
    ensures x / w <= y / w
  {
    var a, b := x / w, y / w;
    assert w * a <= x && y < w * b + w;
    MulLess(a, b + 1, w);
  }

  lemma MulLess(a: nat, b: nat, w: nat)
    requires w * a < w * b
    ensures a < b
  {
  }

  /** Each piece begins where the one before ends. */
  predicate Adjacent(g: Seg) {
    |g| < 2 || (g[0].phys + g[0].len == g[1].phys && Adjacent(g[1..]))
  }

  predicate NoneEmpty(g: Seg) {
    g == [] || (0 < g[0].len && NoneEmpty(g[1..]))
  }

  predicate NoneHigh(g: Seg) {
    g == [] || (!g[0].high && NoneHigh(g[1..]))
  }

  /** Pieces with data that join one after the other are one range of memory that does
      not cross a window, and conversely. */
  lemma {:induction false} ChainIsOneRange(q: Queue, g: Seg)
    requires q.Ok() && |g| >= 2 && NoneEmpty(g)
    ensures Chain(q, g) <==>
            && q.cluster && Adjacent(g) && g[0].phys / q.window == (g[0].phys + Size(g) - 1) / q.window
            && (q.apart ==> NoneHigh(g))
  {
    var a, b, t := g[0], g[1], g[1..];
    var end := b.phys + Size(t) - 1;
    assert Size(g) == a.len + Size(t) && Size(t) == b.len + Size(t[1..]);
    DivMonotone(b.phys, b.phys + b.len - 1, q.window);
    if a.phys + a.len == b.phys {
      DivMonotone(a.phys, b.phys, q.window);
      DivMonotone(a.phys, b.phys + b.len - 1, q.window);
      DivMonotone(b.phys + b.len - 1, end, q.window);
    }
    if |g| > 2 {
      ChainIsOneRange(q, t);
    } else {
      assert t[1..] == [] && t == [b];
      assert NoneHigh(t) <==> !b.high;
    }
  }

  predicate AllFit(q: Queue, gs: seq<Seg>)
    requires q.Ok()
  {
    gs == [] || (Fits(q, gs[0]) && AllFit(q, gs[1..]))
  }

  function Flatten(gs: seq<Seg>): seq<Vec> {
    if gs == [] then [] else gs[0] + Flatten(gs[1..])
  }

  /** A way to cut the pieces into acceptable segments. */
  ghost predicate Segmentation(q: Queue, gs: seq<Seg>, vecs: seq<Vec>)
    requires q.Ok()
  {
    AllFit(q, gs) && Flatten(gs) == vecs
  }

  lemma {:induction false} SizeAppend(a: Seg, b: Seg)
    ensures Size(a + b) == Size(a) + Size(b)
  {
    if a == [] {
      assert a + b == b;
    } else {
      assert (a + b)[1..] == a[1..] + b;
      SizeAppend(a[1..], b);
    }
  }

  lemma {:induction false} ChainAppend(q: Queue, a: Seg, b: Seg)
    requires q.Ok() && a != [] && b != []
    requires Chain(q, a) && Chain(q, b) && Joins(q, a[|a| - 1], b[0])
    ensures Chain(q, a + b)
  {
    if |a| == 1 {
      assert (a + b)[1..] == b;
    } else {
      assert (a + b)[1..] == a[1..] + b;
      ChainAppend(q, a[1..], b);
    }
  }

  lemma {:induction false} FlattenAppend(a: seq<Seg>, b: seq<Seg>)
    ensures Flatten(a + b) == Flatten(a) + Flatten(b)
  {
    if a == [] {
      assert a + b == b;
    } else {
      assert (a + b)[1..] == a[1..] + b;
      FlattenAppend(a[1..], b);
    }
  }

  lemma {:induction false} AllFitAppend(q: Queue, a: seq<Seg>, b: seq<Seg>)
    requires q.Ok()
    ensures AllFit(q, a + b) <==> AllFit(q, a) && AllFit(q, b)
  {
    if a == [] {
      assert a + b == b;
    } else {
      assert (a + b)[1..] == a[1..] + b;
      AllFitAppend(q, a[1..], b);
    }
  }

  /** Segmentations of two chains, side by side. */
  lemma SideBySide(q: Queue, gs: seq<Seg>, v: seq<Vec>, hs: seq<Seg>, w: seq<Vec>)
    requires q.Ok() && Segmentation(q, gs, v) && Segmentation(q, hs, w)
    ensures Segmentation(q, gs + hs, v + w)
  {
    FlattenAppend(gs, hs);
    AllFitAppend(q, gs, hs);
  }

  /** The last segment of one chain melted with the first of the next. */
  function Melt(gs: seq<Seg>, hs: seq<Seg>): seq<Seg>
    requires gs != [] && hs != []
  {
    gs[..|gs| - 1] + [gs[|gs| - 1] + hs[0]] + hs[1..]
  }

  lemma FitsTogether(q: Queue, a: Seg, b: Seg)
    requires q.Ok() && Fits(q, a) && Fits(q, b) && Joins(q, a[|a| - 1], b[0]) && Size(a) + Size(b) <= q.maxSegSize
    ensures Fits(q, a + b)
  {
    ChainAppend(q, a, b);
    SizeAppend(a, b);
  }

  lemma SplitLast(q: Queue, gs: seq<Seg>, v: seq<Vec>)
    requires q.Ok() && Segmentation(q, gs, v) && gs != []
    ensures var front, last := gs[..|gs| - 1], gs[|gs| - 1];
            Segmentation(q, front, Flatten(front)) && Fits(q, last) && v == Flatten(front) + last
  {
    var front, last := gs[..|gs| - 1], gs[|gs| - 1];
    assert gs == front + [last];
    FlattenAppend(front, [last]);
    AllFitAppend(q, front, [last]);
    assert Flatten([last]) == last + Flatten([last][1..]);
  }

  lemma One(q: Queue, g: Seg)
    requires q.Ok() && Fits(q, g)
    ensures Segmentation(q, [g], g)
  {
    assert Flatten([g]) == g + Flatten([g][1..]);
  }

  lemma Melted(q: Queue, gs: seq<Seg>, v: seq<Vec>, hs: seq<Seg>, w: seq<Vec>)
    requires q.Ok() && Segmentation(q, gs, v) && Segmentation(q, hs, w) && gs != [] && hs != []
    requires v != [] && w != [] && Joins(q, v[|v| - 1], w[0])
    requires Size(gs[|gs| - 1]) + Size(hs[0]) <= q.maxSegSize
    ensures Segmentation(q, Melt(gs, hs), v + w)
  {
    var front, last, first, rest := gs[..|gs| - 1], gs[|gs| - 1], hs[0], hs[1..];
    SplitLast(q, gs, v);
    assert v[|v| - 1] == last[|last| - 1] && w[0] == first[0];
    FitsTogether(q, last, first);
    One(q, last + first);
    SideBySide(q, front, Flatten(front), [last + first], last + first);
    SideBySide(q, front + [last + first], Flatten(front) + (last + first), rest, Flatten(rest));
    assert v + w == Flatten(front) + (last + first) + Flatten(rest);
  }

  // ---- The greedy count --------------------------------------------------

  /** Further segments `blk_rq_map_sg` starts when the open one has `size` bytes
      and ends in piece `prev`. */
  function More(q: Queue, size: nat, prev: Vec, rest: seq<Vec>): nat
    requires q.Ok()
    decreases |rest|
  {
    if rest == [] then 0
    else if Joins(q, prev, rest[0]) && size + rest[0].len <= q.maxSegSize
    then More(q, size + rest[0].len, rest[0], rest[1..])
    else 1 + More(q, rest[0].len, rest[0], rest[1..])
  }

  function Greedy(q: Queue, vecs: seq<Vec>): nat
    requires q.Ok()
  {
    if vecs == [] then 0 else 1 + More(q, vecs[0].len, vecs[0], vecs[1..])
  }

  /** A fuller open segment costs at most one segment more, and never less. */
  lemma {:induction false} FullerCostsAtMostOne(q: Queue, s: nat, s': nat, prev: Vec, rest: seq<Vec>)
    requires q.Ok() && s <= s'
    ensures More(q, s, prev, rest) <= More(q, s', prev, rest) <= More(q, s, prev, rest) + 1
    decreases |rest|
  {
    if rest != [] {
      var v := rest[0];
      FullerCostsAtMostOne(q, s + v.len, s' + v.len, v, rest[1..]);
      FullerCostsAtMostOne(q, v.len, s + v.len, v, rest[1..]);
    }
  }

  /** Pieces that join and fit are taken into the open segment. */
  lemma {:induction false} TakesAll(q: Queue, s: nat, prev: Vec, g: Seg, rest: seq<Vec>)
    requires q.Ok() && Chain(q, [prev] + g) && s + Size(g) <= q.maxSegSize
    ensures More(q, s, prev, g + rest) == More(q, s + Size(g), ([prev] + g)[|g|], rest)
    decreases |g|
  {
    if g == [] {
      assert g + rest == rest;
    } else {
      assert (g + rest)[1..] == g[1..] + rest;
      assert ([prev] + g)[1..] == g && [g[0]] + g[1..] == g;
      TakesAll(q, s + g[0].len, g[0], g[1..], rest);
    }
  }

  /** Whatever the open segment, a whole acceptable segment costs at most one. */
  lemma SegmentCostsOne(q: Queue, s: nat, prev: Vec, g: Seg, rest: seq<Vec>)
    requires q.Ok() && Fits(q, g)
    ensures More(q, s, prev, g + rest) <= 1 + More(q, Size(g), g[|g| - 1], rest)
  {
    var v, t := g[0], g[1..];
    assert (g + rest)[1..] == t + rest && [v] + t == g;
    FullerCostsAtMostOne(q, v.len, s + v.len, v, t + rest);
    if t != [] {
      TakesAll(q, v.len, v, t, rest);
    } else {
      assert t + rest == rest;
    }
  }

  lemma {:induction false} MoreIsOptimal(q: Queue, s: nat, prev: Vec, gs: seq<Seg>)
    requires q.Ok() && AllFit(q, gs)
    ensures More(q, s, prev, Flatten(gs)) <= |gs|
    decreases |gs|
  {
    if gs != [] {
      SegmentCostsOne(q, s, prev, gs[0], Flatten(gs[1..]));
      MoreIsOptimal(q, Size(gs[0]), gs[0][|gs[0]| - 1], gs[1..]);
    }
  }

  /** The greedy list is as short as any way to cut the pieces. */
  lemma GreedyIsOptimal(q: Queue, gs: seq<Seg>, vecs: seq<Vec>)
    requires q.Ok() && Segmentation(q, gs, vecs)
    ensures Greedy(q, vecs) <= |gs|
  {
    // starting afresh is like an open segment that is already full
    MoreIsOptimal(q, q.maxSegSize + 1, Vec(0, 0, false), gs);
  }

  // ---- Scatterlists ------------------------------------------------------

  datatype Entry = Entry(phys: nat, len: nat)

  /** Putting one more piece into the open segment. */
  lemma Extend(q: Queue, gs: seq<Seg>, vecs: seq<Vec>, v: Vec)
    requires q.Ok() && Segmentation(q, gs, vecs) && gs != [] && vecs != []
    requires Joins(q, vecs[|vecs| - 1], v) && Size(gs[|gs| - 1]) + v.len <= q.maxSegSize
    ensures Segmentation(q, Melt(gs, [[v]]), vecs + [v])
    ensures Size(Melt(gs, [[v]])[|gs| - 1]) == Size(gs[|gs| - 1]) + v.len
  {
    Single(q, v);
    Melted(q, gs, vecs, [[v]], [v]);
    SizeAppend(gs[|gs| - 1], [v]);
  }

  lemma Single(q: Queue, v: Vec)
    requires q.Ok()
    ensures Segmentation(q, [[v]], [v]) && Size([v]) == v.len
  {
    One(q, [v]);
    assert Size([v]) == v.len + Size([v][1..]);
  }

  /** The cut that takes each piece into the open segment as long as it joins and
      fits. */
  function Cut(q: Queue, vecs: seq<Vec>): (gs: seq<Seg>)
    requires q.Ok()
    ensures vecs != [] <==> gs != []
    ensures Segmentation(q, gs, vecs)
  {
    if vecs == [] then []
    else
      var done, v := vecs[..|vecs| - 1], vecs[|vecs| - 1];
      var gs := Cut(q, done);
      assert vecs == done + [v];
      if done != [] && Joins(q, done[|done| - 1], v) && Size(gs[|gs| - 1]) + v.len <= q.maxSegSize then
        Extend(q, gs, done, v);
        Melt(gs, [[v]])
      else
        Single(q, v); SideBySide(q, gs, done, [[v]], [v]);
        gs + [[v]]
  }

  /** One piece more. */
  lemma {:induction false} CutNext(q: Queue, done: seq<Vec>, v: Vec)
    requires q.Ok()
    ensures var gs := Cut(q, done);
            if done != [] && Joins(q, done[|done| - 1], v) && Size(gs[|gs| - 1]) + v.len <= q.maxSegSize
            then && Cut(q, done + [v]) == Melt(gs, [[v]])
                 && Size(Cut(q, done + [v])[|gs| - 1]) == Size(gs[|gs| - 1]) + v.len
            else Cut(q, done + [v]) == gs + [[v]] && Size([v]) == v.len
  {
    var gs := Cut(q, done);
    assert (done + [v])[..|done|] == done;
    Single(q, v);
    if gs != [] { SizeAppend(gs[|gs| - 1], [v]); }
  }

  /** The cut is the greedy one. */
  lemma {:induction false} CutMore(q: Queue, done: seq<Vec>, rest: seq<Vec>)
    requires q.Ok() && done != []
    ensures OpenCut(q, Cut(q, done), done[|done| - 1], rest) == Greedy(q, done + rest)
    decreases |done|
  {
    var d, v := done[..|done| - 1], done[|done| - 1];
    assert done == d + [v];
    if d == [] {
      CutNext(q, d, v);
      assert Cut(q, d) == [] && done == [v];
    } else {
      CutMore(q, d, [v] + rest);
      CutMoves(q, d, v, rest);
      assert d + ([v] + rest) == done + rest;
    }
  }

  /** The segments of a cut and those that are still started. */
  ghost function OpenCut(q: Queue, gs: seq<Seg>, prev: Vec, rest: seq<Vec>): nat
    requires q.Ok() && gs != []
  {
    |gs| + More(q, Size(gs[|gs| - 1]), prev, rest)
  }

  lemma {:induction false} CutMoves(q: Queue, d: seq<Vec>, v: Vec, rest: seq<Vec>)
    requires q.Ok() && d != []
    ensures OpenCut(q, Cut(q, d + [v]), v, rest) == OpenCut(q, Cut(q, d), d[|d| - 1], [v] + rest)
  {
    CutNext(q, d, v);
    assert ([v] + rest)[1..] == rest;
  }

  /** No acceptable cut is shorter. */
  lemma CutIsShortest(q: Queue, gs: seq<Seg>, vecs: seq<Vec>)
    requires q.Ok() && Segmentation(q, gs, vecs)
    ensures |Cut(q, vecs)| == Greedy(q, vecs) <= |gs|
  {
    if vecs != [] {
      CutMore(q, vecs, []);
      assert vecs + [] == vecs;
    }
    GreedyIsOptimal(q, gs, vecs);
  }

  /** One entry for each segment. */
  predicate Mapped(sg: seq<Entry>, gs: seq<Seg>) {
    |sg| == |gs| && forall k :: 0 <= k < |gs| ==> gs[k] != [] && sg[k] == Entry(gs[k][0].phys, Size(gs[k]))
  }

  /** One turn of the mapping loop. */
  method MapPiece(q: Queue, sg: seq<Entry>, v: Vec, prev: Vec, ghost done: seq<Vec>) returns (sg': seq<Entry>)
    requires q.Ok() && Mapped(sg, Cut(q, done)) && (done != [] ==> prev == done[|done| - 1])
    ensures Mapped(sg', Cut(q, done + [v]))
  {
    CutNext(q, done, v);
    if sg != [] && Joins(q, prev, v) && sg[|sg| - 1].len + v.len <= q.maxSegSize {
      sg' := sg[|sg| - 1 := sg[|sg| - 1].(len := sg[|sg| - 1].len + v.len)];
    } else {
      sg' := sg + [Entry(v.phys, v.len)];
    }
  }

  /** `blk_rq_map_sg` before padding and draining.  The entries cover the pieces
      of the request in order, and no acceptable cutting has fewer. */
  method MapSg(q: Queue, vecs: seq<Vec>) returns (sg: seq<Entry>, ghost gs: seq<Seg>)
    requires q.Ok()
    ensures |sg| == Greedy(q, vecs)
    ensures gs == Cut(q, vecs) && Segmentation(q, gs, vecs) && |gs| == |sg|
    ensures forall i :: 0 <= i < |gs| ==> gs[i] != [] && sg[i] == Entry(gs[i][0].phys, Size(gs[i]))
  {
    sg := [];
    var i := 0;
    while i < |vecs|
      invariant 0 <= i <= |vecs| && Mapped(sg, Cut(q, vecs[..i]))
    {
      assert vecs[..i + 1] == vecs[..i] + [vecs[i]];
      sg := MapPiece(q, sg, vecs[i], if i == 0 then vecs[0] else vecs[i - 1], vecs[..i]);
      i := i + 1;
    }
    assert vecs[..i] == vecs;
    gs := Cut(q, vecs);
    CutIsShortest(q, gs, vecs);
  }

  // ---- Requests ----------------------------------------------------------

  /** A bio with data.  `front` and `back` are `bi_seg_front_size` and
      `bi_seg_back_size`, `segs` is `bi_phys_segments`, valid when `counted`. */
  datatype Bio = Bio(vecs: seq<Vec>, front: nat, back: nat, segs: nat, counted: bool)

  function Pieces(bios: seq<Bio>): seq<Vec> {
    if bios == [] then [] else bios[0].vecs + Pieces(bios[1..])
  }

  predicate HaveData(bios: seq<Bio>) {
    forall i :: 0 <= i < |bios| ==> bios[i].vecs != []
  }

  /** `gs` has `nr` segments, the outer ones no larger than recorded. */
  ghost predicate Counted(q: Queue, gs: seq<Seg>, vecs: seq<Vec>, nr: nat, front: nat, back: nat)
    requires q.Ok()
  {
    && Segmentation(q, gs, vecs) && |gs| == nr && 0 < nr
    && Size(gs[0]) <= front && Size(gs[|gs| - 1]) <= back
  }

  lemma {:induction false} PiecesAppend(a: seq<Bio>, b: seq<Bio>)
    ensures Pieces(a + b) == Pieces(a) + Pieces(b)
  {
    if a == [] {
      assert a + b == b;
    } else {
      assert (a + b)[1..] == a[1..] + b;
      PiecesAppend(a[1..], b);
    }
  }

  /** Sizes and flags do not change what a chain covers. */
  lemma {:induction false} SamePieces(a: seq<Bio>, b: seq<Bio>)
    requires |a| == |b| && forall i :: 0 <= i < |a| ==> a[i].vecs == b[i].vecs
    ensures Pieces(a) == Pieces(b)
  {
    if a != [] { SamePieces(a[1..], b[1..]); }
  }

  function Max(a: nat, b: nat): nat {
    if a < b then b else a
  }

  /** A cut that keeps high pages apart is a cut. */
  lemma {:induction false} ApartIsCut(q: Queue, gs: seq<Seg>)
    requires q.Ok() && AllFit(Counting(q), gs)
    ensures AllFit(q, gs)
  {
    if gs != [] {
      ApartIsChain(q, gs[0]);
      ApartIsCut(q, gs[1..]);
    }
  }

  lemma {:induction false} ApartIsChain(q: Queue, g: Seg)
    requires q.Ok() && Chain(Counting(q), g)
    ensures Chain(q, g)
  {
    if |g| >= 2 { ApartIsChain(q, g[1..]); }
  }

  /** The state of the counting loop after the pieces `done`: the number of segments,
      the size of the open one, and the larger of `base` and the first, once that is
      closed. */
  ghost predicate Open(q: Queue, done: seq<Vec>, nr: nat, size: nat, base: nat, front: nat)
    requires q.Ok()
  {
    var gs := Cut(q, done);
    && |gs| == nr && (0 < nr ==> Size(gs[nr - 1]) == size)
    && front == if nr <= 1 then base else Max(base, Size(gs[0]))
  }

  /** What the counting loop remembers of the piece before. */
  predicate Before(done: seq<Vec>, prev: Vec, highPrev: bool) {
    if done == [] then highPrev else prev == done[|done| - 1] && highPrev == prev.high
  }

  /** One turn of the counting loop: the piece extends the open segment or starts
      a new one. */
  method CountPiece(q: Queue, v: Vec, prev: Vec, nr: nat, size: nat, front: nat, highPrev: bool,
                    ghost done: seq<Vec>, ghost base: nat)
    returns (nr': nat, size': nat, front': nat, highPrev': bool)
    requires q.Ok() && Open(Counting(q), done, nr, size, base, front)
    requires Before(done, prev, highPrev)
    ensures Open(Counting(q), done + [v], nr', size', base, front') && highPrev' == v.high
  {
    CutNext(Counting(q), done, v);
    nr', size', front', highPrev' := nr, size, front, highPrev;
    if !v.high && !highPrev && Joins(q, prev, v) && size + v.len <= q.maxSegSize {
      size' := size + v.len;
    } else {
      if nr == 1 && size > front {
        front' := size;
      }
      nr', size', highPrev' := nr + 1, v.len, v.high;
    }
  }

  /** The inner loop, over the pieces of one bio. */
  method CountPieces(q: Queue, vecs: seq<Vec>, prev: Vec, nr: nat, size: nat, front: nat, highPrev: bool,
                     ghost done: seq<Vec>, ghost base: nat)
    returns (prev': Vec, nr': nat, size': nat, front': nat, highPrev': bool)
    requires q.Ok() && Open(Counting(q), done, nr, size, base, front) && Before(done, prev, highPrev)
    ensures Open(Counting(q), done + vecs, nr', size', base, front') && Before(done + vecs, prev', highPrev')
  {
    prev', nr', size', front', highPrev' := prev, nr, size, front, highPrev;
    assert done + vecs[..0] == done;
    for i := 0 to |vecs|
      invariant Open(Counting(q), done + vecs[..i], nr', size', base, front') && Before(done + vecs[..i], prev', highPrev')
    {
      assert done + vecs[..i + 1] == (done + vecs[..i]) + [vecs[i]];
      nr', size', front', highPrev' := CountPiece(q, vecs[i], prev', nr', size', front', highPrev', done + vecs[..i], base);
      prev' := vecs[i];
    }
    assert vecs[..|vecs|] == vecs;
  }

  /** `__blk_recalc_rq_segments`: the count is that of the shortest cut which keeps high
      pages apart, and the recorded outer sizes are raised to its outer segments. */
  method RecalcSegments(q: Queue, bios: seq<Bio>) returns (nr: nat, front: nat, back: nat, ghost gs: seq<Seg>)
    requires q.Ok() && bios != [] && HaveData(bios)
    ensures gs == Cut(Counting(q), Pieces(bios)) && nr == |gs| && Counted(q, gs, Pieces(bios), nr, front, back)
    ensures front == Max(bios[0].front, Size(gs[0])) && back == Max(bios[|bios| - 1].back, Size(gs[nr - 1]))
  {
    var size;
    nr, size, front := CountAll(q, bios);
    gs := Cut(Counting(q), Pieces(bios));
    EndPieces(bios);
    ApartIsCut(q, gs);
    if nr == 1 && size > front {
      front := size;
    }
    back := Max(bios[|bios| - 1].back, size);
  }

  /** The loop over the bios. */
  method CountAll(q: Queue, bios: seq<Bio>) returns (nr: nat, size: nat, front: nat)
    requires q.Ok() && bios != [] && HaveData(bios)
    ensures Open(Counting(q), Pieces(bios), nr, size, bios[0].front, front)
  {
    nr, size, front := 0, 0, bios[0].front;
    var prev, highPrev := bios[0].vecs[0], true;
    for b := 0 to |bios|
      invariant Open(Counting(q), Pieces(bios[..b]), nr, size, bios[0].front, front)
      invariant Before(Pieces(bios[..b]), prev, highPrev)
    {
      PiecesOneMore(bios, b);
      prev, nr, size, front, highPrev :=
        CountPieces(q, bios[b].vecs, prev, nr, size, front, highPrev, Pieces(bios[..b]), bios[0].front);
    }
    assert bios[..|bios|] == bios;
  }

  lemma {:induction false} PiecesOneMore(bios: seq<Bio>, b: nat)
    requires b < |bios|
    ensures Pieces(bios[..b + 1]) == Pieces(bios[..b]) + bios[b].vecs
  {
    assert bios[..b + 1] == bios[..b] + [bios[b]];
    PiecesAppend(bios[..b], [bios[b]]);
    assert Pieces([bios[b]]) == bios[b].vecs + Pieces([bios[b]][1..]);
  }

  /** `blk_recount_segments`, and with it `bio_phys_segments`. */
  method Recount(q: Queue, bio: Bio) returns (bio': Bio, ghost gs: seq<Seg>)
    requires q.Ok() && bio.vecs != []
    ensures gs == Cut(Counting(q), bio.vecs) && Counted(q, gs, bio.vecs, bio'.segs, bio'.front, bio'.back)
    ensures bio' == bio.(front := Max(bio.front, Size(gs[0])), back := Max(bio.back, Size(gs[|gs| - 1])),
                         segs := |gs|, counted := true)
  {
    var nr, front, back;
    assert Pieces([bio]) == bio.vecs + Pieces([bio][1..]) == bio.vecs;
    nr, front, back, gs := RecalcSegments(q, [bio]);
    bio' := bio.(front := front, back := back, segs := nr, counted := true);
  }

  /** A bio's recorded count, when it says it has one, is attained. */
  ghost predicate BioOk(q: Queue, bio: Bio)
    requires q.Ok()
  {
    bio.vecs != [] && (bio.counted ==> exists gs :: Counted(q, gs, bio.vecs, bio.segs, bio.front, bio.back))
  }

  /** The segments of a bio: as recorded, if that is valid, else those of the shortest
      cut that keeps high pages apart. */
  ghost function SegsOf(q: Queue, bio: Bio): nat
    requires q.Ok()
  {
    if bio.counted then bio.segs else |Cut(Counting(q), bio.vecs)|
  }

  /** The count of a bio that is about to be merged: recounted unless valid. */
  method CountBio(q: Queue, bio: Bio) returns (bio': Bio, ghost hs: seq<Seg>)
    requires q.Ok() && BioOk(q, bio)
    ensures bio'.vecs == bio.vecs && Counted(q, hs, bio'.vecs, bio'.segs, bio'.front, bio'.back)
    ensures bio'.segs == SegsOf(q, bio) && bio'.counted && (bio.counted ==> bio' == bio)
  {
    if bio.counted {
      bio' := bio;
      hs :| Counted(q, hs, bio.vecs, bio.segs, bio.front, bio.back);
    } else {
      bio', hs := Recount(q, bio);
    }
  }

  function SetFront(bios: seq<Bio>, size: nat): (r: seq<Bio>)
    requires bios != []
    ensures |r| == |bios| && forall i :: 0 <= i < |r| ==> r[i].vecs == bios[i].vecs && r[i].back == bios[i].back
    ensures r[0].front == size
  {
    bios[0 := bios[0].(front := size)]
  }

  function SetBack(bios: seq<Bio>, size: nat): (r: seq<Bio>)
    requires bios != []
    ensures |r| == |bios| && forall i :: 0 <= i < |r| ==> r[i].vecs == bios[i].vecs && r[i].front == bios[i].front
    ensures r[|r| - 1].back == size
  {
    bios[|bios| - 1 := bios[|bios| - 1].(back := size)]
  }

  /** The outer pieces of a chain are those of its outer bios. */
  lemma {:induction false} EndPieces(bios: seq<Bio>)
    requires bios != [] && HaveData(bios)
    ensures var v := Pieces(bios);
            && v != [] && v[0] == bios[0].vecs[0]
            && v[|v| - 1] == bios[|bios| - 1].vecs[|bios[|bios| - 1].vecs| - 1]
  {
    if |bios| > 1 {
      EndPieces(bios[1..]);
    } else {
      assert Pieces(bios) == bios[0].vecs + Pieces(bios[1..]);
    }
  }

  lemma MeltedEnds(gs: seq<Seg>, hs: seq<Seg>)
    requires gs != [] && hs != []
    ensures var m := Melt(gs, hs);
            && |m| == |gs| + |hs| - 1
            && Size(m[0]) == (if |gs| == 1 then Size(gs[0]) + Size(hs[0]) else Size(gs[0]))
            && Size(m[|m| - 1]) == (if |hs| == 1 then Size(gs[|gs| - 1]) + Size(hs[0]) else Size(hs[|hs| - 1]))
  {
    SizeAppend(gs[|gs| - 1], hs[0]);
  }

  /** Counts of two chains that do not touch add up. */
  lemma CountedSide(q: Queue, gs: seq<Seg>, v: seq<Vec>, f: nat, b: nat, hs: seq<Seg>, w: seq<Vec>, f': nat, b': nat)
    requires q.Ok() && Counted(q, gs, v, |gs|, f, b) && Counted(q, hs, w, |hs|, f', b')
    ensures Counted(q, gs + hs, v + w, |gs| + |hs|, f, b')
  {
    SideBySide(q, gs, v, hs, w);
  }

  /** Where the recorded outer sizes allow the chains to touch, one segment is
      saved; a chain of one segment passes the joint size on. */
  lemma CountedMelt(q: Queue, gs: seq<Seg>, v: seq<Vec>, f: nat, b: nat, hs: seq<Seg>, w: seq<Vec>, f': nat, b': nat)
    requires q.Ok() && Counted(q, gs, v, |gs|, f, b) && Counted(q, hs, w, |hs|, f', b')
    requires v != [] && w != [] && Joins(q, v[|v| - 1], w[0]) && b + f' <= q.maxSegSize
    ensures Counted(q, Melt(gs, hs), v + w, |gs| + |hs| - 1,
                    if |gs| == 1 then b + f' else f, if |hs| == 1 then b + f' else b')
  {
    Melted(q, gs, v, hs, w);
    MeltedEnds(gs, hs);
  }

  /** `blk_phys_contig_segment` for bios with data. */
  predicate Contiguous(q: Queue, a: Bio, b: Bio)
    requires q.Ok() && a.vecs != [] && b.vecs != []
  {
    a.back + b.front <= q.maxSegSize && Joins(q, a.vecs[|a.vecs| - 1], b.vecs[0])
  }

  /** The last piece of one chain joins the first of the next, and the recorded sizes
      of their segments fit together. */
  ghost predicate Touching(q: Queue, a: seq<Bio>, b: seq<Bio>)
    requires q.Ok()
  {
    var v, w := Pieces(a), Pieces(b);
    a != [] && b != [] && v != [] && w != [] && Joins(q, v[|v| - 1], w[0]) && a[|a| - 1].back + b[0].front <= q.maxSegSize
  }

  lemma {:induction false} TouchingIs(q: Queue, a: seq<Bio>, b: seq<Bio>)
    requires q.Ok() && a != [] && HaveData(a) && b != [] && HaveData(b)
    ensures Touching(q, a, b) <==> Contiguous(q, a[|a| - 1], b[0])
  {
    EndPieces(a);
    EndPieces(b);
  }

  /** Two chains that touch: what the melted cut counts. */
  lemma {:induction false} ChainsMelt(q: Queue, gs: seq<Seg>, a: seq<Bio>, hs: seq<Seg>, b: seq<Bio>)
    requires q.Ok() && a != [] && HaveData(a) && b != [] && HaveData(b)
    requires Counted(q, gs, Pieces(a), |gs|, a[0].front, a[|a| - 1].back)
    requires Counted(q, hs, Pieces(b), |hs|, b[0].front, b[|b| - 1].back)
    requires Contiguous(q, a[|a| - 1], b[0])
    ensures var size := a[|a| - 1].back + b[0].front;
            Counted(q, Melt(gs, hs), Pieces(a) + Pieces(b), |gs| + |hs| - 1,
                    if |gs| == 1 then size else a[0].front, if |hs| == 1 then size else b[|b| - 1].back)
  {
    EndPieces(a);
    EndPieces(b);
    CountedMelt(q, gs, Pieces(a), a[0].front, a[|a| - 1].back, hs, Pieces(b), b[0].front, b[|b| - 1].back);
  }

  class Request {
    var bios: seq<Bio>
    var nrPhysSegments: nat
    var nrSectors: nat
    /** A segmentation that attains the count. */
    ghost var gs: seq<Seg>

    ghost predicate Valid(q: Queue)
      requires q.Ok()
      reads this
    {
      && bios != [] && HaveData(bios)
      && Counted(q, gs, Pieces(bios), nrPhysSegments, bios[0].front, bios[|bios| - 1].back)
    }

    /** A request made from one bio. */
    constructor (q: Queue, bio: Bio, sectors: nat)
      requires q.Ok() && BioOk(q, bio)
      ensures Valid(q) && |bios| == 1 && bios[0].vecs == bio.vecs && nrSectors == sectors
      ensures nrPhysSegments == SegsOf(q, bio)
    {
      var bio', hs := CountBio(q, bio);
      bios, nrPhysSegments, nrSectors, gs := [bio'], bio'.segs, sectors, hs;
      assert Pieces([bio']) == bio'.vecs + Pieces([bio'][1..]);
    }

    /** A bio of the request that is not counted yet is recounted in place. */
    method EnsureCounted(q: Queue, i: nat)
      requires q.Ok() && Valid(q) && i < |bios|
      modifies this`bios
      ensures Valid(q) && |bios| == |old(bios)| && Pieces(bios) == Pieces(old(bios))
    {
      if !bios[i].counted {
        var bio', hs := Recount(q, bios[i]);
        SamePieces(bios, bios[i := bio']);
        bios := bios[i := bio'];
      }
    }

    /** The limits of `ll_back_merge_fn` and `ll_front_merge_fn`. */
    ghost predicate Within(q: Queue, bio: Bio, sectors: nat)
      requires q.Ok()
      reads this
    {
      && nrSectors + sectors <= q.maxSectors
      && nrPhysSegments + SegsOf(q, bio) <= q.maxHwSegs && nrPhysSegments + SegsOf(q, bio) <= q.maxPhysSegs
    }

    /** `ll_back_merge_fn` and the linking of the bio behind the request: merged exactly
        if the sums are within the limits, and the counts add up. */
    method BackMerge(q: Queue, bio: Bio, sectors: nat) returns (ok: bool)
      requires q.Ok() && Valid(q) && BioOk(q, bio)
      modifies this
      ensures Valid(q)
      ensures ok <==> old(Within(q, bio, sectors))
      ensures Pieces(bios) == if ok then Pieces(old(bios)) + bio.vecs else Pieces(old(bios))
      ensures nrSectors == if ok then old(nrSectors) + sectors else old(nrSectors)
      ensures nrPhysSegments == if ok then old(nrPhysSegments) + SegsOf(q, bio) else old(nrPhysSegments)
    {
      if nrSectors + sectors > q.maxSectors {
        return false;
      }
      EnsureCounted(q, |bios| - 1);
      var bio', hs := CountBio(q, bio);
      if nrPhysSegments + bio'.segs > q.maxHwSegs || nrPhysSegments + bio'.segs > q.maxPhysSegs {
        return false;
      }
      SideBySide(q, gs, Pieces(bios), hs, bio'.vecs);
      PiecesAppend(bios, [bio']);
      assert Pieces([bio']) == bio'.vecs + Pieces([bio'][1..]);
      bios, gs := bios + [bio'], gs + hs;
      nrPhysSegments, nrSectors := nrPhysSegments + bio'.segs, nrSectors + sectors;
      return true;
    }

    /** `ll_front_merge_fn` and the linking of the bio before the request, likewise. */
    method FrontMerge(q: Queue, bio: Bio, sectors: nat) returns (ok: bool)
      requires q.Ok() && Valid(q) && BioOk(q, bio)
      modifies this
      ensures Valid(q)
      ensures ok <==> old(Within(q, bio, sectors))
      ensures Pieces(bios) == if ok then bio.vecs + Pieces(old(bios)) else Pieces(old(bios))
      ensures nrSectors == if ok then old(nrSectors) + sectors else old(nrSectors)
      ensures nrPhysSegments == if ok then old(nrPhysSegments) + SegsOf(q, bio) else old(nrPhysSegments)
    {
      if nrSectors + sectors > q.maxSectors {
        return false;
      }
      var bio', hs := CountBio(q, bio);
      EnsureCounted(q, 0);
      if nrPhysSegments + bio'.segs > q.maxHwSegs || nrPhysSegments + bio'.segs > q.maxPhysSegs {
        return false;
      }
      SideBySide(q, hs, bio'.vecs, gs, Pieces(bios));
      assert ([bio'] + bios)[1..] == bios;
      bios, gs := [bio'] + bios, hs + gs;
      nrPhysSegments, nrSectors := nrPhysSegments + bio'.segs, nrSectors + sectors;
      return true;
    }

    /** The segment that is saved when the two chains touch. */
    ghost function Saved(q: Queue, next: Request): nat
      requires q.Ok() && Valid(q) && next.Valid(q)
      reads this, next
    {
      if Touching(q, bios, next.bios) then 1 else 0
    }

    /** `ll_merge_requests_fn` and the linking of the two chains: the counts add up,
        less one where the chains touch, and the merge is made exactly when the sums
        are within the limits. */
    method MergeRequests(q: Queue, next: Request) returns (ok: bool)
      requires q.Ok() && Valid(q) && next.Valid(q) && next != this
      modifies this, next
      ensures Valid(q) && next.Valid(q)
      ensures Pieces(bios) == if ok then Pieces(old(bios)) + Pieces(old(next.bios)) else Pieces(old(bios))
      ensures Pieces(next.bios) == Pieces(old(next.bios))
      ensures var total := old(nrPhysSegments + next.nrPhysSegments) - old(Saved(q, next));
              && nrPhysSegments == (if ok then total else old(nrPhysSegments))
              && (ok <==> old(nrSectors + next.nrSectors) <= q.maxSectors && total <= q.maxPhysSegs && total <= q.maxHwSegs)
      ensures nrSectors == if ok then old(nrSectors + next.nrSectors) else old(nrSectors)
    {
      if nrSectors + next.nrSectors > q.maxSectors {
        return false;
      }
      TouchingIs(q, bios, next.bios);
      if Contiguous(q, bios[|bios| - 1], next.bios[0]) {
        ok := MergeTouching(q, next);
      } else {
        ok := MergeApart(q, next);
      }
    }

    /** The two chains form one segment where they meet: one segment less. */
    method MergeTouching(q: Queue, next: Request) returns (ok: bool)
      requires q.Ok() && Valid(q) && next.Valid(q) && next != this
      requires Contiguous(q, bios[|bios| - 1], next.bios[0])
      modifies this, next
      ensures Valid(q) && next.Valid(q) && Pieces(next.bios) == Pieces(old(next.bios))
      ensures Pieces(bios) == if ok then Pieces(old(bios)) + Pieces(old(next.bios)) else Pieces(old(bios))
      ensures nrSectors == if ok then old(nrSectors + next.nrSectors) else old(nrSectors)
      ensures nrPhysSegments == old(nrPhysSegments) + if ok then old(next.nrPhysSegments) - 1 else 0
      ensures ok <==> old(nrPhysSegments + next.nrPhysSegments) - 1 <= q.maxPhysSegs
                      && old(nrPhysSegments + next.nrPhysSegments) - 1 <= q.maxHwSegs
    {
      var total := nrPhysSegments + next.nrPhysSegments - 1;
      var segSize := bios[|bios| - 1].back + next.bios[0].front;
      ghost var parts := Melt(gs, next.gs);
      ChainsMelt(q, gs, bios, next.gs, next.bios);
      RaiseEnds(q, next, segSize);
      if total > q.maxPhysSegs || total > q.maxHwSegs {
        return false;
      }
      Link(q, next, total, parts);
      return true;
    }

    /** A chain of one segment records what that segment may grow to. */
    method RaiseEnds(q: Queue, next: Request, size: nat)
      requires q.Ok() && Valid(q) && next.Valid(q) && next != this
      requires bios[|bios| - 1].back <= size && next.bios[0].front <= size
      modifies this`bios, next`bios
      ensures Valid(q) && next.Valid(q)
      ensures Pieces(bios) == Pieces(old(bios)) && Pieces(next.bios) == Pieces(old(next.bios))
      ensures bios[0].front == if nrPhysSegments == 1 then size else old(bios)[0].front
      ensures next.bios[|next.bios| - 1].back == if next.nrPhysSegments == 1 then size else old(next.bios)[|old(next.bios)| - 1].back
    {
      if nrPhysSegments == 1 {
        RaiseFront(q, size);
      }
      if next.nrPhysSegments == 1 {
        next.RaiseBack(q, size);
      }
    }

    method MergeApart(q: Queue, next: Request) returns (ok: bool)
      requires q.Ok() && Valid(q) && next.Valid(q) && next != this
      modifies this
      ensures Valid(q)
      ensures Pieces(bios) == if ok then Pieces(old(bios)) + Pieces(next.bios) else Pieces(old(bios))
      ensures nrSectors == if ok then old(nrSectors) + next.nrSectors else old(nrSectors)
      ensures nrPhysSegments == old(nrPhysSegments) + if ok then next.nrPhysSegments else 0
      ensures ok <==> old(nrPhysSegments) + next.nrPhysSegments <= q.maxPhysSegs
                      && old(nrPhysSegments) + next.nrPhysSegments <= q.maxHwSegs
    {
      var total := nrPhysSegments + next.nrPhysSegments;
      if total > q.maxPhysSegs || total > q.maxHwSegs {
        return false;
      }
      CountedSide(q, gs, Pieces(bios), bios[0].front, bios[|bios| - 1].back,
                  next.gs, Pieces(next.bios), next.bios[0].front, next.bios[|next.bios| - 1].back);
      Link(q, next, total, gs + next.gs);
      return true;
    }

    /** `attempt_merge` once it is allowed: the chain of `next` follows. */
    method Link(q: Queue, next: Request, total: nat, ghost parts: seq<Seg>)
      requires q.Ok() && Valid(q) && next.Valid(q) && next != this
      requires Counted(q, parts, Pieces(bios) + Pieces(next.bios), total, bios[0].front, next.bios[|next.bios| - 1].back)
      modifies this
      ensures Valid(q) && Pieces(bios) == Pieces(old(bios)) + Pieces(next.bios)
      ensures nrSectors == old(nrSectors) + next.nrSectors && nrPhysSegments == total
    {
      PiecesAppend(bios, next.bios);
      bios, gs := bios + next.bios, parts;
      nrSectors, nrPhysSegments := nrSectors + next.nrSectors, total;
    }

    /** A request of one segment records the size that segment may grow to. */
    method RaiseFront(q: Queue, size: nat)
      requires q.Ok() && Valid(q) && nrPhysSegments == 1 && bios[|bios| - 1].back <= size
      modifies this`bios
      ensures Valid(q) && bios == SetFront(old(bios), size) && Pieces(bios) == Pieces(old(bios))
    {
      SamePieces(bios, SetFront(bios, size));
      bios := SetFront(bios, size);
    }

    method RaiseBack(q: Queue, size: nat)
      requires q.Ok() && Valid(q) && nrPhysSegments == 1 && bios[0].front <= size
      modifies this`bios
      ensures Valid(q) && bios == SetBack(old(bios), size) && Pieces(bios) == Pieces(old(bios))
    {
      SamePieces(bios, SetBack(bios, size));
      bios := SetBack(bios, size);
    }

    /** `blk_recalc_rq_segments`, after some of the data was completed and `left`
        remains. */
    method Recalc(q: Queue, left: seq<Bio>)
      requires q.Ok() && left != [] && HaveData(left)
      modifies this
      ensures Valid(q) && Pieces(bios) == Pieces(left)
      ensures nrPhysSegments == |Cut(Counting(q), Pieces(left))| && nrSectors == old(nrSectors)
    {
      var nr, front, back, hs := RecalcSegments(q, left);
      SamePieces(left, SetBack(SetFront(left, front), back));
      bios, nrPhysSegments, gs := SetBack(SetFront(left, front), back), nr, hs;
    }

    /** The bound the driver relies on: the list fits the count. */
    method Map(q: Queue) returns (sg: seq<Entry>, ghost parts: seq<Seg>)
      requires q.Ok() && Valid(q)
      ensures |sg| <= nrPhysSegments
      ensures Segmentation(q, parts, Pieces(bios)) && |parts| == |sg|
      ensures forall i :: 0 <= i < |sg| ==> parts[i] != [] && sg[i] == Entry(parts[i][0].phys, Size(parts[i]))
    {
      sg, parts := MapSg(q, Pieces(bios));
      GreedyIsOptimal(q, gs, Pieces(bios));
    }
  }
}
