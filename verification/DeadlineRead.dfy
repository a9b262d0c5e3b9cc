/**
 How long an expired read waits behind writes in the deadline scheduler.

 Reads are preferred, but they too can wait: for the batch that runs, for one batch of
 writes after every `writes_starved` batches of reads, and for the reads ahead.  That
 bound exists exactly when `writes_starved` is not zero.
 */
module DeadlineRead {
  import opened Options
  import opened SectorList
  import opened Deadline

  /** Read `w` is queued and its deadline has passed. */
  predicate Late(s: State, w: nat) {
    HasId(s.read.fifo, w) && DeadlineOf(s.read.fifo, w) < s.now
  }

  /** Write batches until a read with `ahead` reads before it starts a batch, at most. */
  function WriteBatches(c: Config, starved: nat, ahead: nat): nat
    requires c.writesStarved >= 1
  {
    (starved + ahead) / c.writesStarved
  }

  /** Dispatches until it leaves, at most: the rest of the running batch, one for the read
      itself, and a batch for every read ahead and for the writes in between. */
  function Waits(c: Config, batching: nat, starved: nat, ahead: nat): nat
    requires c.writesStarved >= 1
  {
    var rest := if batching < c.fifoBatch then c.fifoBatch - batching else 0;
    rest + 1 + Batches(c, ahead + WriteBatches(c, starved, ahead))
  }

  function Batches(c: Config, n: nat): nat {
    if n == 0 then 0 else BatchLength(c) + Batches(c, n - 1)
  }

  function Patience(c: Config, s: State, w: nat): nat
    requires c.writesStarved >= 1
  {
    Waits(c, s.batching, s.starved, Pos(s.read.fifo, w))
  }

  // ---- Arithmetic ----------------------------------------------------------------

  lemma {:induction false} BatchesIs(c: Config, n: nat)
    ensures Batches(c, n) == n * BatchLength(c)
  {
    if n > 0 { BatchesIs(c, n - 1); }
  }

  lemma {:induction false} BatchesGrow(c: Config, m: nat, n: nat)
    requires m <= n
    ensures Batches(c, m) <= Batches(c, n)
  {
    if m < n { BatchesGrow(c, m, n - 1); }
  }

  lemma TimesLess(d: nat, x: int, y: int)
    requires d * x < d * y
    ensures x < y
  {
  }

  lemma QuotientGrows(a: nat, b: nat, d: nat)
    requires a <= b && d >= 1
    ensures a / d <= b / d
  {
    assert d * (a / d) <= a && b < d * (b / d) + d;
    TimesLess(d, a / d, b / d + 1);
  }

  lemma QuotientStep(a: nat, d: nat)
    requires d >= 1
    ensures (d + a) / d == 1 + a / d
  {
    var x, y := a / d, (d + a) / d;
    assert d * x <= a < d * x + d && d * y <= d + a < d * y + d;
    TimesLess(d, y, x + 2);
    TimesLess(d, x + 1, y + 1);
  }

  lemma FewerAhead(c: Config, batching: nat, starved: nat, k: nat, k': nat)
    requires c.writesStarved >= 1 && k' <= k
    ensures Waits(c, batching, starved, k') <= Waits(c, batching, starved, k)
  {
    QuotientGrows(starved + k', starved + k, c.writesStarved);
    BatchesGrow(c, k' + WriteBatches(c, starved, k'), k + WriteBatches(c, starved, k));
  }

  /** A read batch has started with another read. */
  lemma ReadBatchUsed(c: Config, batching: nat, starved: nat, starved': nat, k: nat, k': nat)
    requires c.writesStarved >= 1 && k' < k && starved' <= starved + 1
    ensures Waits(c, 1, starved', k') < Waits(c, batching, starved, k)
  {
    QuotientGrows(starved' + k', starved + k, c.writesStarved);
    var n, n' := k + WriteBatches(c, starved, k), k' + WriteBatches(c, starved', k');
    BatchesGrow(c, n' + 1, n);
  }

  /** A write batch has started in its turn. */
  lemma WriteBatchUsed(c: Config, batching: nat, starved: nat, k: nat, k': nat)
    requires 1 <= c.writesStarved <= starved && k' <= k
    ensures Waits(c, 1, 0, k') < Waits(c, batching, starved, k)
  {
    QuotientStep(k', c.writesStarved);
    QuotientGrows(c.writesStarved + k', starved + k, c.writesStarved);
    var n, n' := k + WriteBatches(c, starved, k), k' + WriteBatches(c, 0, k');
    BatchesGrow(c, n' + 1, n);
  }

  // ---- Steps ------------------------------------------------------------------------

  lemma MovedRead(c: Config, s: State, rq: Rq, w: nat)
    requires Inv(c, s) && Late(s, w) && rq in s.Of(rq.dir).fifo && HasId(Moved(s, rq).read.fifo, w)
    ensures Late(Moved(s, rq), w)
    ensures Pos(Moved(s, rq).read.fifo, w) <= Pos(s.read.fifo, w)
    ensures !rq.dir && rq == s.read.fifo[0] ==> Pos(Moved(s, rq).read.fifo, w) < Pos(s.read.fifo, w)
  {
    if !rq.dir {
      WithoutTidy(s.read.fifo, rq, false, s.now + c.expire(false), s.seen);
      WithoutKeeps(s.read.fifo, rq, 0, w, rq, 0);
    }
  }

  lemma GrownRead(c: Config, s: State, rq: Rq, rq': Rq, w: nat)
    requires Inv(c, s) && Late(s, w) && Enabled(c, s, Grow(rq, rq')) && HasId(Grown(s, rq, rq').read.fifo, w)
    ensures Late(Grown(s, rq, rq'), w) && Pos(Grown(s, rq, rq').read.fifo, w) <= Pos(s.read.fifo, w)
  {
    var f := s.Of(rq.dir).fifo;
    var a := Alias(f, rq, rq'.sector);
    AliasInLane(c, s, rq, rq'.sector);
    AliasIsEntry(f, rq, rq'.sector);
    if !rq.dir {
      if a.None? {
        ReplacedKeeps(f, rq, rq', 0, w, rq, 0);
      } else {
        ReplacedKeeps(Without(f, a.value), rq, rq', 0, w, rq, 0);
        MovedRead(c, s, a.value, w);
      }
    }
  }

  lemma AddedRead(c: Config, s: State, rq: Rq, w: nat)
    requires Inv(c, s) && Late(s, w) && Enabled(c, s, Add(rq)) && HasId(Added(s, rq).read.fifo, w)
    ensures Late(Added(s, rq), w) && Pos(Added(s, rq).read.fifo, w) <= Pos(s.read.fifo, w)
  {
    var d, s1 := rq.dir, RoomFor(s, rq, rq.sector);
    var a := Alias(s.Of(d).fifo, rq, rq.sector);
    AliasInLane(c, s, rq, rq.sector);
    AliasIsEntry(s.Of(d).fifo, rq, rq.sector);
    assert w != rq.id by {
      if w == rq.id { UnseenNotThere(s.read.fifo, false, s.now + c.expire(false), s.seen, w); }
    }
    if !d { AppendKeeps(s1.read.fifo, rq, 0, w, rq, 0); }
    if a.Some? { MovedRead(c, s, a.value, w); }
  }

  /** A dispatch that leaves `w` queued uses up patience. */
  lemma DispatchRead(c: Config, s: State, w: nat)
    requires c.writesStarved >= 1 && Inv(c, s) && Late(s, w) && HasId(Dispatched(c, s).read.fifo, w)
    ensures Late(Dispatched(c, s), w) && Patience(c, Dispatched(c, s), w) < Patience(c, s, w)
  {
    SelectIsQueued(c, s);
    var r, s' := Select(c, s), Dispatched(c, s);
    MovedRead(c, s.(batching := r.batching, starved := r.starved), r.rq, w);
    var k, k' := Pos(s.read.fifo, w), Pos(s'.read.fifo, w);
    if (s.write.next.Some? || s.read.next.Some?) && s.batching < c.fifoBatch {
      FewerAhead(c, s.batching + 1, s.starved, k, k');
    } else if s.write.fifo != [] && s.starved >= c.writesStarved {
      WriteBatchUsed(c, s.batching, s.starved, k, k');
    } else {
      HeadIsLate(s, w);
      FindsHead(s, false);
      ReadBatchUsed(c, s.batching, s.starved, r.starved, k, k');
    }
  }

  lemma HeadIsLate(s: State, w: nat)
    requires Late(s, w) && NotBefore(s.read.fifo[1..], s.read.fifo[0].expires)
    ensures s.read.fifo[0].expires < s.now
  {
    if s.read.fifo[0].id != w {
      HeadIsFirst(s.read.fifo[1..], s.read.fifo[0].expires, w);
    }
  }

  /** No other step costs patience. */
  lemma StepRead(c: Config, s: State, ev: Event, w: nat)
    requires c.writesStarved >= 1 && Inv(c, s) && Late(s, w) && HasId(Step(c, s, ev).read.fifo, w)
    ensures Late(Step(c, s, ev), w)
    ensures Patience(c, Step(c, s, ev), w) + (if ev.Dispatch? then 1 else 0) <= Patience(c, s, w)
  {
    if Enabled(c, s, ev) {
      var s' := Step(c, s, ev);
      match ev {
        case Tick(now) =>
        case Add(rq) => AddedRead(c, s, rq, w);
        case Grow(rq, rq') => GrownRead(c, s, rq, rq', w);
        case Absorb(rq, gone) =>
          if !rq.dir { AbsorbedWaits(s.read, false, s.now + c.expire(false), s.seen, rq, gone, w); }
        case Dispatch => DispatchRead(c, s, w);
      }
      if !ev.Dispatch? {
        FewerAhead(c, s.batching, s.starved, Pos(s.read.fifo, w), Pos(s'.read.fifo, w));
      }
    }
  }

  /** A request that is gone stays gone. */
  lemma GoneStaysGone(c: Config, s: State, ev: Event, w: nat)
    requires Inv(c, s) && w in s.seen && HasId(Step(c, s, ev).read.fifo, w)
    ensures HasId(s.read.fifo, w)
  {
    if Enabled(c, s, ev) {
      var f := s.read.fifo;
      match ev {
        case Tick(now) =>
        case Add(rq) =>
          AliasInLane(c, s, rq, rq.sector);
          if !rq.dir {
            AppendKeeps(RoomFor(s, rq, rq.sector).read.fifo, rq, 0, w, rq, 0);
            if Alias(f, rq, rq.sector).Some? { WithoutKeeps(f, Alias(f, rq, rq.sector).value, 0, w, rq, 0); }
          }
        case Grow(rq, rq') =>
          AliasInLane(c, s, rq, rq'.sector);
          if !rq.dir && Alias(f, rq, rq'.sector).Some? {
            var a := Alias(f, rq, rq'.sector).value;
            ReplacedKeeps(Without(f, a), rq, rq', 0, w, rq, 0);
            WithoutKeeps(f, a, 0, w, rq, 0);
          } else {
            ReplacedKeeps(f, rq, rq', 0, w, rq, 0);
          }
        case Absorb(rq, gone) =>
          if !rq.dir { NothingAppears(s.read, false, s.now + c.expire(false), s.seen, rq, gone, w); }
        case Dispatch =>
          SelectIsQueued(c, s);
          var r := Select(c, s);
          if r.Take? && !r.rq.dir { WithoutKeeps(f, r.rq, 0, w, r.rq, 0); }
      }
    }
  }

  // ---- Runs -------------------------------------------------------------------------

  lemma {:induction false} StillQueued(c: Config, s: State, evs: seq<Event>, w: nat)
    requires Inv(c, s) && w in s.seen && HasId(Run(c, s, evs).read.fifo, w)
    ensures HasId(s.read.fifo, w)
    decreases |evs|
  {
    if evs != [] {
      StepKeepsInv(c, s, evs[0]);
      SeenGrows(c, s, evs[0]);
      StillQueued(c, Step(c, s, evs[0]), evs[1..], w);
      GoneStaysGone(c, s, evs[0], w);
    }
  }

  lemma {:induction false} RunRead(c: Config, s: State, evs: seq<Event>, w: nat)
    requires c.writesStarved >= 1 && Inv(c, s) && Late(s, w) && w in s.seen && HasId(Run(c, s, evs).read.fifo, w)
    ensures Dispatches(evs) < Patience(c, s, w)
    decreases |evs|
  {
    if evs != [] {
      var s1 := Step(c, s, evs[0]);
      StepKeepsInv(c, s, evs[0]);
      SeenGrows(c, s, evs[0]);
      StillQueued(c, s1, evs[1..], w);
      StepRead(c, s, evs[0], w);
      RunRead(c, s1, evs[1..], w);
    }
  }

  /** Reads never pass waiting writes more often than allowed. */
  lemma {:induction false} StarvedStays(c: Config, s: State, evs: seq<Event>)
    requires s.starved <= c.writesStarved
    ensures Run(c, s, evs).starved <= c.writesStarved
    decreases |evs|
  {
    if evs != [] {
      StepStarved(c, s, evs[0]);
      StarvedStays(c, Step(c, s, evs[0]), evs[1..]);
    }
  }

  lemma StepStarved(c: Config, s: State, ev: Event)
    requires s.starved <= c.writesStarved
    ensures Step(c, s, ev).starved <= c.writesStarved
  {
  }

  lemma PatienceBound(c: Config, s: State, w: nat)
    requires 1 <= c.writesStarved && s.starved <= c.writesStarved
    ensures var k := Pos(s.read.fifo, w);
      Patience(c, s, w) <= (k + 2 + k / c.writesStarved) * BatchLength(c) + Extra(c, s)
  {
    var k := Pos(s.read.fifo, w);
    var n := k + WriteBatches(c, s.starved, k);
    QuotientStep(k, c.writesStarved);
    QuotientGrows(s.starved + k, c.writesStarved + k, c.writesStarved);
    BatchesGrow(c, n, k + 1 + k / c.writesStarved);
    BatchesIs(c, k + 2 + k / c.writesStarved);
  }

  /** The waiting bound for reads.  From any state a run reaches, an expired read with
      `k` reads ahead of it is gone after (k + 2 + k / writes_starved) * max(1, fifo_batch)
      further dispatches, whatever else happens, and one more if nothing was dispatched
      yet. */
  lemma {:induction false} ExpiredReadLeaves(c: Config, start: int, before: seq<Event>, evs: seq<Event>, w: nat)
    requires c.writesStarved >= 1
    requires var s := Run(c, Init(start), before); var k := Pos(s.read.fifo, w);
      Late(s, w) && Dispatches(evs) >= (k + 2 + k / c.writesStarved) * BatchLength(c) + Extra(c, s)
    ensures !HasId(Run(c, Run(c, Init(start), before), evs).read.fifo, w)
  {
    var s := Run(c, Init(start), before);
    RunKeepsInv(c, Init(start), before);
    StarvedStays(c, Init(start), before);
    LateIsSeen(s.read.fifo, false, s.now + c.expire(false), s.seen, w);
    PatienceBound(c, s, w);
    if HasId(Run(c, s, evs).read.fifo, w) {
      RunRead(c, s, evs, w);
    }
  }

  // ---- Without that setting, reads starve ------------------------------------------------

  function ReadAt(c: Config): Rq {
    Rq(0, false, 0, 1, c.expire(false))
  }

  /** A read arrives and expires. */
  function Before(c: Config): seq<Event> {
    [Add(ReadAt(c)), Tick(c.expire(false) + 1)]
  }

  /** Again and again a write arrives and a request is dispatched. */
  function Rounds(c: Config, n: nat, id: nat, now: int): (evs: seq<Event>)
    ensures |evs| == 2 * n
  {
    if n == 0 then []
    else [Add(Rq(id, true, 0, 1, now + c.expire(true))), Dispatch] + Rounds(c, n - 1, id + 1, now)
  }

  /** Only the read is queued, and nothing is cached. */
  ghost predicate Alone(c: Config, s: State, id: nat) {
    && s.read == Lane([ReadAt(c)], None) && s.write == Lane([], None)
    && forall x :: x in s.seen ==> x < id
  }

  /** The write that has just come is sent. */
  lemma {:induction false} WriteGoesFirst(c: Config, s: State, id: nat)
    requires c.writesStarved == 0 && Alone(c, s, id)
    ensures var t := Step(c, Step(c, s, Add(Rq(id, true, 0, 1, s.now + c.expire(true)))), Dispatch);
      Alone(c, t, id + 1) && t.now == s.now
  {
    var rq := Rq(id, true, 0, 1, s.now + c.expire(true));
    assert id !in s.seen;
    var s1 := Step(c, s, Add(rq));
    assert s1.write.fifo == [rq] by { assert [] + [rq] == [rq]; }
    assert Select(c, s1) == Take(rq, 1, 0);
    assert Without([rq], rq) == [] by { assert [rq][1..] == []; }
    assert Search([rq], 1) == None by { assert [rq][1..] == []; }
  }

  lemma {:induction false} KeepsWaiting(c: Config, s: State, n: nat, id: nat)
    requires c.writesStarved == 0 && Alone(c, s, id)
    ensures Alone(c, Run(c, s, Rounds(c, n, id, s.now)), id + n) && Dispatches(Rounds(c, n, id, s.now)) == n
    decreases n
  {
    if n > 0 {
      var rq := Rq(id, true, 0, 1, s.now + c.expire(true));
      var rest := Rounds(c, n - 1, id + 1, s.now);
      var evs := Rounds(c, n, id, s.now);
      assert evs[0] == Add(rq) && evs[1..][0] == Dispatch && evs[1..][1..] == rest;
      WriteGoesFirst(c, s, id);
      KeepsWaiting(c, Step(c, Step(c, s, Add(rq)), Dispatch), n - 1, id + 1);
      assert Dispatches(evs) == Dispatches(evs[1..]) == 1 + Dispatches(rest);
    }
  }

  lemma {:induction false} BeforeState(c: Config)
    ensures var s := Run(c, Init(0), Before(c)); Alone(c, s, 1) && s.now == c.expire(false) + 1
  {
    var a, t := Add(ReadAt(c)), Tick(c.expire(false) + 1);
    assert Before(c)[1..] == [t] && [t][1..] == [];
    var s1 := Step(c, Init(0), a);
    assert [] + [ReadAt(c)] == [ReadAt(c)];
    assert Run(c, Init(0), Before(c)) == Run(c, s1, [t]) == Run(c, Step(c, s1, t), []);
  }

  /** With `writes_starved` zero there is no bound: for every number of dispatches, a run
      in which an expired read, the oldest one, is still queued after them. */
  lemma {:induction false} ReadStarves(c: Config, n: nat)
    requires c.writesStarved == 0
    ensures var s := Run(c, Init(0), Before(c)); var evs := Rounds(c, n, 1, s.now);
      Late(s, 0) && Pos(s.read.fifo, 0) == 0 && Dispatches(evs) == n && Late(Run(c, s, evs), 0)
  {
    var s := Run(c, Init(0), Before(c));
    BeforeState(c);
    KeepsWaiting(c, s, n, 1);
    NowStays(c, s, n, 1);
  }

  lemma {:induction false} NowStays(c: Config, s: State, n: nat, id: nat)
    requires c.writesStarved == 0 && Alone(c, s, id)
    ensures Run(c, s, Rounds(c, n, id, s.now)).now == s.now
    decreases n
  {
    if n > 0 {
      var rq := Rq(id, true, 0, 1, s.now + c.expire(true));
      var evs := Rounds(c, n, id, s.now);
      assert evs[0] == Add(rq) && evs[1..][0] == Dispatch && evs[1..][1..] == Rounds(c, n - 1, id + 1, s.now);
      WriteGoesFirst(c, s, id);
      NowStays(c, Step(c, Step(c, s, Add(rq)), Dispatch), n - 1, id + 1);
    }
  }
}
