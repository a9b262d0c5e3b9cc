/**
 The waiting bound of the deadline scheduler is tight.  Before the first dispatch, a
 request moved out of the way of an alias can leave a cached request behind with no
 batch counted, and a write then waits one dispatch longer.  For every setting of
 the tunables that batches at all, and for any number of writes ahead, some run
 makes a write wait for the whole bound with that one added.

 The run: enough reads are queued in sector order to use up every batch they are
 allowed; when a write has its turn, just enough writes behind it in sector
 order arrive to use up its batch, none of them one that waits.
 */
module DeadlineTight {
  import opened Options
  import opened SectorList
  import opened Deadline

  // ---- The requests ------------------------------------------------------

  /** Request numbers up to `k` are writes that wait, `k + 1` is the alias, and the
      reads and the other writes follow. */
  function Read(k: nat, i: nat, e: int): Rq {
    Rq(k + 2 + i, false, i, 1, e)
  }

  /** A second read at sector 0. */
  function Again(k: nat, e: int): Rq {
    Rq(k + 1, false, 0, 1, e)
  }

  /** Reads at the sectors from `lo` up to `hi`. */
  function Reads(k: nat, lo: nat, hi: nat, e: int): seq<Rq>
    decreases hi - lo
  {
    if lo >= hi then [] else [Read(k, lo, e)] + Reads(k, lo + 1, hi, e)
  }

  /** The writes that wait, oldest first, each at a lower sector than the one before. */
  function Head(k: nat, i: nat, e: int): Rq {
    Rq(i, true, if i <= k then k - i else 0, 1, e)
  }

  function Heads(k: nat, lo: nat, hi: nat, e: int): seq<Rq>
    decreases hi - lo
  {
    if lo >= hi then [] else [Head(k, lo, e)] + Heads(k, lo + 1, hi, e)
  }

  /** The writes that fill up a batch, above all those that wait. */
  function Filler(k: nat, g: nat, i: nat, e: int): Rq {
    Rq(g + i, true, k + 1 + i, 1, e)
  }

  function Fillers(k: nat, g: nat, lo: nat, hi: nat, e: int): seq<Rq>
    decreases hi - lo
  {
    if lo >= hi then [] else [Filler(k, g, lo, e)] + Fillers(k, g, lo + 1, hi, e)
  }

  // ---- Runs --------------------------------------------------------------

  lemma {:induction false} RunAppend(c: Config, s: State, a: seq<Event>, b: seq<Event>)
    ensures Run(c, s, a + b) == Run(c, Run(c, s, a), b)
    ensures Dispatches(a + b) == Dispatches(a) + Dispatches(b)
    decreases |a|
  {
    if a == [] {
      assert a + b == b;
    } else {
      assert (a + b)[1..] == a[1..] + b;
      RunAppend(c, Step(c, s, a[0]), a[1..], b);
    }
  }

  lemma {:induction false} RunOne(c: Config, s: State, ev: Event)
    ensures Run(c, s, [ev]) == Step(c, s, ev)
  {
    assert [ev][1..] == [];
    assert Run(c, Step(c, s, ev), []) == Step(c, s, ev);
  }

  function Repeat(n: nat): seq<Event> {
    if n == 0 then [] else [Dispatch] + Repeat(n - 1)
  }

  lemma {:induction false} RepeatCounts(n: nat)
    ensures Dispatches(Repeat(n)) == n
  {
    if n > 0 {
      assert Repeat(n)[1..] == Repeat(n - 1);
      RepeatCounts(n - 1);
    }
  }

  // ---- Reads use up what they are allowed --------------------------------

  /** The queue on which writes starve: reads from `lo` on, the next of them cached
      unless the batch is over. */
  predicate Starving(c: Config, s: State, k: nat, lo: nat, hi: nat, e: int) {
    && s.read.fifo == Reads(k, lo, hi, e) + [Again(k, e)]
    && (s.read.next == Some(Read(k, lo, e)) || (s.read.next == None && s.batching == c.fifoBatch))
    && s.write.next == None && s.write.fifo != []
    && lo < hi && 0 < lo && s.now <= e && s.batching <= c.fifoBatch && s.starved <= c.writesStarved
  }

  lemma {:induction false} SearchReads(k: nat, lo: nat, hi: nat, e: int, s: nat)
    requires 0 < s <= lo < hi
    ensures Search(Reads(k, lo, hi, e) + [Again(k, e)], s) == Some(Read(k, lo, e))
    decreases hi - lo
  {
    var f := Reads(k, lo, hi, e) + [Again(k, e)];
    assert f[1..] == Reads(k, lo + 1, hi, e) + [Again(k, e)];
    if lo + 1 < hi {
      SearchReads(k, lo + 1, hi, e, s);
    } else {
      assert f[1..] == [Again(k, e)];
      assert Search([Again(k, e)], s) == None;
    }
  }

  lemma {:induction false} WithoutRead(k: nat, lo: nat, hi: nat, e: int, i: nat)
    requires i < lo <= hi
    ensures Without(Reads(k, lo, hi, e) + [Again(k, e)], Read(k, i, e)) == Reads(k, lo, hi, e) + [Again(k, e)]
    decreases hi - lo
  {
    var f := Reads(k, lo, hi, e) + [Again(k, e)];
    if lo < hi {
      assert f[1..] == Reads(k, lo + 1, hi, e) + [Again(k, e)];
      WithoutRead(k, lo + 1, hi, e, i);
    } else {
      assert f == [Again(k, e)];
    }
  }

  /** Only the reads and the counters of two states differ. */
  predicate SameWrites(s: State, s': State) {
    s'.write == s.write && s'.now == s.now && s'.seen == s.seen
  }

  /** On such a queue a dispatch takes the next read as long as the batch or the
      starvation limit allows, and leaves such a queue. */
  lemma StarvingStep(c: Config, s: State, k: nat, lo: nat, hi: nat, e: int)
    requires Starving(c, s, k, lo, hi, e) && lo + 1 < hi && 0 < c.fifoBatch
    requires s.batching < c.fifoBatch || s.starved < c.writesStarved
    ensures var s' := Step(c, s, Dispatch);
            && Starving(c, s', k, lo + 1, hi, e) && SameWrites(s, s')
            && (if s.batching < c.fifoBatch then s'.batching == s.batching + 1 && s'.starved == s.starved
                else s'.batching == 1 && s'.starved == s.starved + 1)
  {
    var f := s.read.fifo;
    assert f[0] == Read(k, lo, e) && f[1..] == Reads(k, lo + 1, hi, e) + [Again(k, e)];
    SearchReads(k, lo + 1, hi, e, lo + 1);
    assert Search(f, lo + 1) == Some(Read(k, lo + 1, e));
    WithoutRead(k, lo + 1, hi, e, lo);
    assert Without(f, Read(k, lo, e)) == f[1..];
  }

  /** Dispatches that go to reads before the write's turn. */
  function ReadsFirst(c: Config, batching: nat, starved: nat): nat
    requires batching <= c.fifoBatch && starved <= c.writesStarved
  {
    (c.fifoBatch - batching) + (c.writesStarved - starved) * c.fifoBatch
  }

  lemma OneLess(c: Config, batching: nat, starved: nat)
    requires batching <= c.fifoBatch && starved <= c.writesStarved && 0 < c.fifoBatch
    ensures batching < c.fifoBatch ==> ReadsFirst(c, batching + 1, starved) == ReadsFirst(c, batching, starved) - 1
    ensures batching == c.fifoBatch && starved < c.writesStarved ==>
              ReadsFirst(c, 1, starved + 1) == ReadsFirst(c, batching, starved) - 1
    ensures ReadsFirst(c, batching, starved) == 0 <==> batching == c.fifoBatch && starved == c.writesStarved
  {
    if starved < c.writesStarved {
      OneMore(c.writesStarved - starved - 1, c.fifoBatch);
    }
  }

  /** The reads are served until the write's turn has come. */
  lemma {:induction false} Starves(c: Config, s: State, k: nat, lo: nat, hi: nat, e: int, n: nat)
    requires Starving(c, s, k, lo, hi, e) && 0 < c.fifoBatch
    requires n == ReadsFirst(c, s.batching, s.starved) && lo + n < hi
    ensures var s' := Run(c, s, Repeat(n));
            && Starving(c, s', k, lo + n, hi, e) && SameWrites(s, s')
            && s'.batching == c.fifoBatch && s'.starved == c.writesStarved
    decreases n
  {
    OneLess(c, s.batching, s.starved);
    if n > 0 {
      StarvingStep(c, s, k, lo, hi, e);
      var s' := Step(c, s, Dispatch);
      assert Repeat(n)[0] == Dispatch && Repeat(n)[1..] == Repeat(n - 1);
      Starves(c, s', k, lo + 1, hi, e, n - 1);
    }
  }

  // ---- A write batch -----------------------------------------------------

  /** Writes that wait stand below sector `s`. */
  lemma {:induction false} SearchAbove(k: nat, lo: nat, hi: nat, e: int, f: seq<Rq>, s: nat)
    requires hi <= k + 1 && k < s + lo
    ensures Search(Heads(k, lo, hi, e) + f, s) == Search(f, s)
    decreases hi - lo
  {
    var q := Heads(k, lo, hi, e) + f;
    if lo < hi {
      assert q[0] == Head(k, lo, e) && q[1..] == Heads(k, lo + 1, hi, e) + f;
      SearchAbove(k, lo + 1, hi, e, f, s);
    } else {
      assert q == f;
    }
  }

  lemma {:induction false} SearchFillers(k: nat, g: nat, lo: nat, hi: nat, e: int, s: nat)
    requires s <= k + 1 + lo
    ensures Search(Fillers(k, g, lo, hi, e), s) == if lo < hi then Some(Filler(k, g, lo, e)) else None
    decreases hi - lo
  {
    if lo < hi { SearchFillers(k, g, lo + 1, hi, e, s); }
  }

  lemma {:induction false} WithoutHeads(k: nat, lo: nat, hi: nat, e: int, f: seq<Rq>, rq: Rq)
    requires hi <= rq.id || rq.id < lo
    ensures Without(Heads(k, lo, hi, e) + f, rq) == Heads(k, lo, hi, e) + Without(f, rq)
    decreases hi - lo
  {
    var q := Heads(k, lo, hi, e) + f;
    if lo < hi {
      assert q[0] == Head(k, lo, e) && q[1..] == Heads(k, lo + 1, hi, e) + f;
      WithoutHeads(k, lo + 1, hi, e, f, rq);
      assert Without(q, rq) == [q[0]] + Without(q[1..], rq);
    } else {
      assert q == f;
      assert Without(q, rq) == Heads(k, lo, hi, e) + Without(f, rq);
    }
  }

  lemma {:induction false} WithoutFillers(k: nat, g: nat, lo: nat, hi: nat, e: int, rq: Rq)
    requires rq.id < g + lo
    ensures Without(Fillers(k, g, lo, hi, e), rq) == Fillers(k, g, lo, hi, e)
    decreases hi - lo
  {
    if lo < hi { WithoutFillers(k, g, lo + 1, hi, e, rq); }
  }

  lemma {:induction false} AliasAbove(k: nat, lo: nat, hi: nat, e: int, f: seq<Rq>, rq: Rq, s: nat)
    requires k < s
    ensures Alias(Heads(k, lo, hi, e) + f, rq, s) == Alias(f, rq, s)
    decreases hi - lo
  {
    var q := Heads(k, lo, hi, e) + f;
    if lo < hi {
      assert q[0] == Head(k, lo, e) && q[1..] == Heads(k, lo + 1, hi, e) + f;
      AliasAbove(k, lo + 1, hi, e, f, rq, s);
    } else {
      assert q == f;
    }
  }

  lemma {:induction false} AliasFillers(k: nat, g: nat, lo: nat, hi: nat, e: int, rq: Rq, s: nat)
    requires k + 1 + hi <= s
    ensures Alias(Fillers(k, g, lo, hi, e), rq, s).None?
    decreases hi - lo
  {
    if lo < hi { AliasFillers(k, g, lo + 1, hi, e, rq, s); }
  }

  lemma {:induction false} FillersEnd(k: nat, g: nat, lo: nat, hi: nat, e: int)
    requires lo <= hi
    ensures Fillers(k, g, lo, hi + 1, e) == Fillers(k, g, lo, hi, e) + [Filler(k, g, hi, e)]
    decreases hi - lo
  {
    if lo < hi { FillersEnd(k, g, lo + 1, hi, e); }
  }

  function AddFillers(k: nat, g: nat, lo: nat, hi: nat, e: int): seq<Event>
    decreases hi - lo
  {
    if lo >= hi then [] else [Add(Filler(k, g, lo, e))] + AddFillers(k, g, lo + 1, hi, e)
  }

  /** The writes that wait from number `i` on, with the fillers from `lo` to `hi`. */
  function Writes(k: nat, i: nat, w: int, g: nat, lo: nat, hi: nat, e: int): seq<Rq> {
    Heads(k, i, k + 1, w) + Fillers(k, g, lo, hi, e)
  }

  lemma {:induction false} AddingFillers(c: Config, s: State, k: nat, i: nat, w: int, g: nat, lo: nat, hi: nat, e: int)
    requires s.write == Lane(Writes(k, i, w, g, 0, lo, e), None) && lo <= hi && e == s.now + c.expire(true)
    requires forall x :: x in s.seen ==> x < g + lo
    ensures var evs := AddFillers(k, g, lo, hi, e); var s' := Run(c, s, evs);
            && s' == s.(write := Lane(Writes(k, i, w, g, 0, hi, e), None), seen := s'.seen)
            && (forall x :: x in s'.seen ==> x < g + hi) && Dispatches(evs) == 0
    decreases hi - lo
  {
    if lo < hi {
      var rq := Filler(k, g, lo, e);
      AliasAbove(k, i, k + 1, w, Fillers(k, g, 0, lo, e), rq, k + 1 + lo);
      AliasFillers(k, g, 0, lo, e, rq, k + 1 + lo);
      FillersEnd(k, g, 0, lo, e);
      var evs := AddFillers(k, g, lo, hi, e);
      assert evs[0] == Add(rq) && evs[1..] == AddFillers(k, g, lo + 1, hi, e);
      var s1 := Step(c, s, evs[0]);
      assert s1.write.fifo == Writes(k, i, w, g, 0, lo + 1, e);
      AddingFillers(c, s1, k, i, w, g, lo + 1, hi, e);
    }
  }

  /** In the middle of a write batch: the fillers up to `j` are gone. */
  predicate Filling(c: Config, s: State, k: nat, i: nat, w: int, g: nat, j: nat, n: nat, e: int) {
    && n == c.fifoBatch - 1 && j <= n && k < g && s.read.next == None && s.starved == 0 && s.batching == 1 + j
    && s.write == Lane(Writes(k, i, w, g, j, n, e), if j < n then Some(Filler(k, g, j, e)) else None)
  }

  /** Taking the oldest write that waits out of the list, and what follows it. */
  lemma {:induction false} OldestTaken(k: nat, i: nat, w: int, g: nat, n: nat, e: int, q: seq<Rq>)
    requires i < k < g && q == Writes(k, i, w, g, 0, n, e)
    ensures q != [] && q[0] == Head(k, i, w) && Without(q, q[0]) == Writes(k, i + 1, w, g, 0, n, e)
    ensures Search(q, k - i + 1) == if 0 < n then Some(Filler(k, g, 0, e)) else None
  {
    var f, rq := Fillers(k, g, 0, n, e), Head(k, i, w);
    assert q[0] == rq && q[1..] == Heads(k, i + 1, k + 1, w) + f;
    SearchAbove(k, i, k + 1, w, f, k - i + 1);
    SearchFillers(k, g, 0, n, e, k - i + 1);
    WithoutHeads(k, i + 1, k + 1, w, f, rq);
    WithoutFillers(k, g, 0, n, e, rq);
  }

  /** A late write at the head of its list is dispatched when its turn has come. */
  lemma {:induction false} TurnTaken(c: Config, s: State)
    requires s.write.fifo != [] && s.write.fifo[0].expires < s.now && s.write.fifo[0].dir
    requires s.batching == c.fifoBatch && s.starved == c.writesStarved && s.read.fifo != []
    ensures var q := s.write.fifo;
            Step(c, s, Dispatch)
            == s.(read := s.read.(next := None), write := Lane(Without(q, q[0]), Search(q, q[0].sector + 1)),
                  batching := 1, starved := 0)
  {
  }

  /** The oldest write that waits begins the batch. */
  lemma {:induction false} BatchBegins(c: Config, s: State, k: nat, i: nat, w: int, g: nat, n: nat, e: int)
    requires s.write == Lane(Writes(k, i, w, g, 0, n, e), None) && i < k < g && n == c.fifoBatch - 1 && w < s.now
    requires s.batching == c.fifoBatch && s.starved == c.writesStarved && s.read.fifo != []
    ensures var s' := Step(c, s, Dispatch);
            && Filling(c, s', k, i + 1, w, g, 0, n, e)
            && s'.read.fifo == s.read.fifo && s'.now == s.now && s'.seen == s.seen
  {
    OldestTaken(k, i, w, g, n, e, s.write.fifo);
    TurnTaken(c, s);
  }

  lemma {:induction false} BatchGoesOn(c: Config, s: State, k: nat, i: nat, w: int, g: nat, j: nat, n: nat, e: int)
    requires Filling(c, s, k, i, w, g, j, n, e) && 0 < i && j < n
    ensures var s' := Step(c, s, Dispatch);
            && Filling(c, s', k, i, w, g, j + 1, n, e)
            && s'.read.fifo == s.read.fifo && s'.now == s.now && s'.seen == s.seen
  {
    var f, rest, rq := Fillers(k, g, j, n, e), Fillers(k, g, j + 1, n, e), Filler(k, g, j, e);
    SearchAbove(k, i, k + 1, w, f, k + 2 + j);
    SearchFillers(k, g, j + 1, n, e, k + 2 + j);
    assert f[0] == rq && f[1..] == rest;
    WithoutHeads(k, i, k + 1, w, f, rq);
    WithoutFillers(k, g, j + 1, n, e, rq);
    assert Without(f, rq) == rest;
  }

  lemma {:induction false} BatchEnds(c: Config, s: State, k: nat, i: nat, w: int, g: nat, j: nat, n: nat, e: int)
    requires Filling(c, s, k, i, w, g, j, n, e) && 0 < i
    ensures var s' := Run(c, s, Repeat(n - j));
            && Filling(c, s', k, i, w, g, n, n, e)
            && s'.read.fifo == s.read.fifo && s'.now == s.now && s'.seen == s.seen
    decreases n - j
  {
    if j < n {
      BatchGoesOn(c, s, k, i, w, g, j, n, e);
      assert Repeat(n - j)[0] == Dispatch && Repeat(n - j)[1..] == Repeat(n - j - 1);
      BatchEnds(c, Step(c, s, Dispatch), k, i, w, g, j + 1, n, e);
    }
  }

  /** The write's turn has come: from number `i` on the writes still wait. */
  predicate Turn(c: Config, s: State, k: nat, i: nat, w: int, lo: nat, hi: nat, e: int, g: nat) {
    && Starving(c, s, k, lo, hi, e) && s.write.fifo == Heads(k, i, k + 1, w) && i <= k < g && w < s.now
    && s.batching == c.fifoBatch && s.starved == c.writesStarved && 0 < c.fifoBatch
    && forall x :: x in s.seen ==> x < g
  }

  /** One write leaves, with a full batch behind it. */
  lemma {:induction false} WriteBatch(c: Config, s: State, k: nat, i: nat, w: int, lo: nat, hi: nat, e: int, g: nat)
    returns (evs: seq<Event>)
    requires Turn(c, s, k, i, w, lo, hi, e, g) && i < k
    ensures var s' := Run(c, s, evs);
            && Starving(c, s', k, lo, hi, e) && s'.write.fifo == Heads(k, i + 1, k + 1, w) && s'.now == s.now
            && s'.batching == c.fifoBatch && s'.starved == 0 && (forall x :: x in s'.seen ==> x < g + c.fifoBatch)
            && Dispatches(evs) == c.fifoBatch
  {
    var n, e2 := c.fifoBatch - 1, s.now + c.expire(true);
    var adds := AddFillers(k, g, 0, n, e2);
    assert Writes(k, i, w, g, 0, 0, e2) == s.write.fifo;
    AddingFillers(c, s, k, i, w, g, 0, n, e2);
    var s1 := Run(c, s, adds);
    BatchBegins(c, s1, k, i, w, g, n, e2);
    var s2 := Step(c, s1, Dispatch);
    BatchEnds(c, s2, k, i + 1, w, g, 0, n, e2);
    var s3 := Run(c, s2, Repeat(n));
    assert Writes(k, i + 1, w, g, n, n, e2) == Heads(k, i + 1, k + 1, w);
    evs := adds + Repeat(n + 1);
    RunAppend(c, s, adds, Repeat(n + 1));
    RepeatCounts(n + 1);
    assert Repeat(n + 1)[0] == Dispatch && Repeat(n + 1)[1..] == Repeat(n);
    assert Run(c, s1, Repeat(n + 1)) == s3;
  }

  // ---- Round after round -------------------------------------------------

  /** A write batch and all the read batches allowed after it. */
  lemma {:induction false} OneRound(c: Config, s: State, k: nat, i: nat, w: int, lo: nat, hi: nat, e: int, g: nat)
    returns (evs: seq<Event>, lo': nat)
    requires Turn(c, s, k, i, w, lo, hi, e, g) && i < k && lo + Round(c) < hi
    ensures lo' <= lo + Round(c) && Turn(c, Run(c, s, evs), k, i + 1, w, lo', hi, e, g + c.fifoBatch)
    ensures Dispatches(evs) == Round(c)
  {
    OneMore(c.writesStarved, c.fifoBatch);
    var n := ReadsFirst(c, c.fifoBatch, 0);
    var batch := WriteBatch(c, s, k, i, w, lo, hi, e, g);
    Starves(c, Run(c, s, batch), k, lo, hi, e, n);
    evs, lo' := batch + Repeat(n), lo + n;
    RunAppend(c, s, batch, Repeat(n));
    RepeatCounts(n);
  }

  lemma {:induction false} Rounds(c: Config, s: State, k: nat, i: nat, w: int, lo: nat, hi: nat, e: int, g: nat)
    returns (evs: seq<Event>)
    requires Turn(c, s, k, i, w, lo, hi, e, g) && lo + (k - i) * Round(c) < hi
    ensures HasId(Run(c, s, evs).write.fifo, k) && Dispatches(evs) == (k - i) * Round(c)
    decreases k - i
  {
    if i == k {
      evs := [];
      HeadsHave(k, i, w);
    } else {
      OneMore(k - i - 1, Round(c));
      var first, lo' := OneRound(c, s, k, i, w, lo, hi, e, g);
      var rest := Rounds(c, Run(c, s, first), k, i + 1, w, lo', hi, e, g + c.fifoBatch);
      evs := first + rest;
      RunAppend(c, s, first, rest);
    }
  }

  lemma {:induction false} HeadsHave(k: nat, i: nat, w: int)
    requires i <= k
    ensures var f := Heads(k, i, k + 1, w); HasId(f, k) && Pos(f, k) == k - i && DeadlineOf(f, k) == w
    decreases k - i
  {
    if i < k { HeadsHave(k, i + 1, w); }
  }

  // ---- A run that builds such a queue ------------------------------------

  function AddHeads(k: nat, lo: nat, hi: nat, w: int): seq<Event>
    decreases hi - lo
  {
    if lo >= hi then [] else [Add(Head(k, lo, w))] + AddHeads(k, lo + 1, hi, w)
  }

  lemma {:induction false} HeadsEnd(k: nat, lo: nat, hi: nat, w: int)
    requires lo <= hi
    ensures Heads(k, lo, hi + 1, w) == Heads(k, lo, hi, w) + [Head(k, hi, w)]
    decreases hi - lo
  {
    if lo < hi { HeadsEnd(k, lo + 1, hi, w); }
  }

  lemma {:induction false} HeadsNoAlias(k: nat, lo: nat, hi: nat, w: int, rq: Rq, s: nat)
    requires hi <= k + 1 && s + hi <= k
    ensures Alias(Heads(k, lo, hi, w), rq, s).None?
    decreases hi - lo
  {
    if lo < hi { HeadsNoAlias(k, lo + 1, hi, w, rq, s); }
  }

  lemma {:induction false} AddingHeads(c: Config, s: State, k: nat, lo: nat, hi: nat, w: int)
    requires s == State(Lane([], None), Lane(Heads(k, 0, lo, w), None), 0, 0, 0, s.seen)
    requires lo <= hi <= k + 1 && w == c.expire(true) && forall x :: x in s.seen ==> x < lo
    ensures var s' := Run(c, s, AddHeads(k, lo, hi, w));
            && s' == State(Lane([], None), Lane(Heads(k, 0, hi, w), None), 0, 0, 0, s'.seen)
            && forall x :: x in s'.seen ==> x < hi
    decreases hi - lo
  {
    if lo < hi {
      HeadsNoAlias(k, 0, lo, w, Head(k, lo, w), k - lo);
      HeadsEnd(k, 0, lo, w);
      var evs := AddHeads(k, lo, hi, w);
      assert evs[0] == Add(Head(k, lo, w)) && evs[1..] == AddHeads(k, lo + 1, hi, w);
      AddingHeads(c, Step(c, s, evs[0]), k, lo + 1, hi, w);
    }
  }

  function AddReads(k: nat, lo: nat, hi: nat, e: int): seq<Event>
    decreases hi - lo
  {
    if lo >= hi then [] else [Add(Read(k, lo, e))] + AddReads(k, lo + 1, hi, e)
  }

  lemma {:induction false} ReadsEnd(k: nat, lo: nat, hi: nat, e: int)
    requires lo <= hi
    ensures Reads(k, lo, hi + 1, e) == Reads(k, lo, hi, e) + [Read(k, hi, e)]
    decreases hi - lo
  {
    if lo < hi { ReadsEnd(k, lo + 1, hi, e); }
  }

  lemma {:induction false} ReadsNoAlias(k: nat, lo: nat, hi: nat, e: int, rq: Rq, s: nat)
    requires s < lo || hi <= s
    ensures Alias(Reads(k, lo, hi, e), rq, s).None?
    decreases hi - lo
  {
    if lo < hi { ReadsNoAlias(k, lo + 1, hi, e, rq, s); }
  }

  lemma {:induction false} AddingReads(c: Config, s: State, k: nat, lo: nat, hi: nat, e: int)
    requires s.read == Lane(Reads(k, 0, lo, e), None) && lo <= hi && e == s.now + c.expire(false)
    requires forall x :: x in s.seen ==> x <= k || k + 2 <= x < k + 2 + lo
    ensures var s' := Run(c, s, AddReads(k, lo, hi, e));
            && s' == s.(read := Lane(Reads(k, 0, hi, e), None), seen := s'.seen)
            && forall x :: x in s'.seen ==> x <= k || k + 2 <= x < k + 2 + hi
    decreases hi - lo
  {
    if lo < hi {
      ReadsNoAlias(k, 0, lo, e, Read(k, lo, e), lo);
      ReadsEnd(k, 0, lo, e);
      var evs := AddReads(k, lo, hi, e);
      assert evs[0] == Add(Read(k, lo, e)) && evs[1..] == AddReads(k, lo + 1, hi, e);
      AddingReads(c, Step(c, s, evs[0]), k, lo + 1, hi, e);
    }
  }

  lemma {:induction false} PlainSearch(k: nat, lo: nat, hi: nat, e: int, s: nat)
    requires lo <= s < hi
    ensures Search(Reads(k, lo, hi, e), s) == Some(Read(k, s, e))
    decreases hi - lo
  {
    if lo < s {
      PlainSearch(k, lo + 1, hi, e, s);
    } else if lo + 1 < hi {
      PlainSearch(k, lo + 1, hi, e, lo + 1);
      SearchLower(k, lo + 1, hi, e, lo);
    }
  }

  lemma {:induction false} SearchLower(k: nat, lo: nat, hi: nat, e: int, s: nat)
    requires s <= lo
    ensures Search(Reads(k, lo, hi, e), s) == Search(Reads(k, lo, hi, e), lo)
    decreases hi - lo
  {
    if lo + 1 < hi {
      SearchLower(k, lo + 1, hi, e, s);
      SearchLower(k, lo + 1, hi, e, lo);
    }
  }

  lemma {:induction false} PlainWithout(k: nat, lo: nat, hi: nat, e: int, i: nat)
    requires i < lo <= hi
    ensures Without(Reads(k, lo, hi, e), Read(k, i, e)) == Reads(k, lo, hi, e)
    decreases hi - lo
  {
    if lo < hi { PlainWithout(k, lo + 1, hi, e, i); }
  }

  /** A second read at sector 0 moves the first out of the way; the read after it is
      cached, with no batch counted. */
  lemma {:induction false} AliasStarves(c: Config, s: State, k: nat, hi: nat, e: int)
    requires s.read == Lane(Reads(k, 0, hi, e), None) && 1 < hi && e == s.now + c.expire(false) && k + 1 !in s.seen
    requires s.write.next == None && s.write.fifo != [] && s.batching == 0 && s.starved == 0
    ensures var s' := Step(c, s, Add(Again(k, e)));
            && Starving(c, s', k, 1, hi, e) && s'.batching == 0 && s'.starved == 0
            && s'.write == s.write && s'.now == s.now && s'.seen == s.seen + {k + 1}
  {
    var f := Reads(k, 0, hi, e);
    assert f[0] == Read(k, 0, e) && f[1..] == Reads(k, 1, hi, e);
    assert Alias(f, Again(k, e), 0) == Some(Read(k, 0, e));
    PlainSearch(k, 0, hi, e, 1);
    PlainWithout(k, 1, hi, e, 0);
    assert Without(f, Read(k, 0, e)) == Reads(k, 1, hi, e);
  }

  /** `k + 1` writes, later `hi` reads, then a read at a sector already taken. */
  lemma {:induction false} Prelude(c: Config, k: nat, hi: nat) returns (evs: seq<Event>, e: int)
    requires 1 < hi
    ensures var s := Run(c, Init(0), evs);
            && Starving(c, s, k, 1, hi, e) && s.write.fifo == Heads(k, 0, k + 1, c.expire(true)) && c.expire(true) < s.now
            && s.batching == 0 && s.starved == 0 && forall x :: x in s.seen ==> x < k + 2 + hi
  {
    var w, late := c.expire(true), c.expire(true) + 1;
    e := late + c.expire(false);
    var adds, more := AddHeads(k, 0, k + 1, w), AddReads(k, 0, hi, e);
    AddingHeads(c, Init(0), k, 0, k + 1, w);
    var s1 := Run(c, Init(0), adds);
    var s2 := Step(c, s1, Tick(late));
    AddingReads(c, s2, k, 0, hi, e);
    var s3 := Run(c, s2, more);
    AliasStarves(c, s3, k, hi, e);
    evs := adds + ([Tick(late)] + (more + [Add(Again(k, e))]));
    RunAppend(c, Init(0), adds, [Tick(late)] + (more + [Add(Again(k, e))]));
    RunAppend(c, s1, [Tick(late)], more + [Add(Again(k, e))]);
    RunAppend(c, s2, more, [Add(Again(k, e))]);
    RunOne(c, s1, Tick(late));
    RunOne(c, s3, Add(Again(k, e)));
  }

  /** For every setting that batches at all and every number of writes ahead, some run
      leaves an expired write queued for as many dispatches as the bound has without
      the one that is added before a batch was counted. */
  lemma {:induction false} BoundNeedsADispatch(c: Config, k: nat) returns (before: seq<Event>, evs: seq<Event>)
    requires 0 < c.fifoBatch
    ensures var s := Run(c, Init(0), before);
            && Late(s, k) && s.batching == 0 && Pos(s.write.fifo, k) == k
            && Dispatches(evs) == (k + 1) * Round(c)
            && HasId(Run(c, s, evs).write.fifo, k)
  {
    OneMore(c.writesStarved, c.fifoBatch);
    OneMore(k, Round(c));
    var n, w := Round(c), c.expire(true);
    var hi := (k + 1) * n + 2;
    var e;
    before, e := Prelude(c, k, hi);
    var s := Run(c, Init(0), before);
    HeadsHave(k, 0, w);
    Starves(c, s, k, 1, hi, e, n);
    var s1 := Run(c, s, Repeat(n));
    var rest := Rounds(c, s1, k, 0, w, 1 + n, hi, e, k + 2 + hi);
    evs := Repeat(n) + rest;
    RunAppend(c, s, Repeat(n), rest);
    RepeatCounts(n);
  }
}
