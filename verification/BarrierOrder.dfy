/**
 What every step of the barrier protocol keeps: the dispatch list stays in the
 order of the barriers, the driver holds only what the current stage allows, and
 no request is lost.
 */
module BarrierOrder {
  import opened Barrier

  // ---- What every step keeps ---------------------------------------------

  /** The colour bit is the parity of the barriers that went before. */
  predicate Fair(rq: Req) {
    rq.color == (rq.epoch % 2 == 1)
  }

  /** Where a request belongs: its epoch, then the sequence that closes it. */
  function Key(w: Who, epoch: nat): nat {
    match w
    case PreFlush => 8 * epoch + 1
    case Bar => 8 * epoch + 2
    case PostFlush => 8 * epoch + 3
    case Orig(rq) => if rq.cls.Hard? then 8 * rq.epoch + 4 else 8 * rq.epoch
  }

  function NextKey(w: Who, epoch: nat): nat {
    if w.Orig? && w.rq.cls.Hard? then Key(w, epoch) + 1 else Key(w, epoch)
  }

  ghost predicate AtLeast(q: seq<Entry>, epoch: nat, k: nat) {
    q == [] || ((IsSpecial(q[0].who) || k <= Key(q[0].who, epoch)) && AtLeast(q[1..], epoch, k))
  }

  /** One entry of the dispatch list; `cur` is the current stage, 0 when idle. */
  predicate EntryOk(e: Entry, epoch: nat, cur: nat) {
    match e.who
    case Orig(rq) =>
      (rq.cls.Special? && e.stop) ||
      (&& Fair(rq) && epoch <= rq.epoch
       && (0 < cur && rq.cls.Hard? ==> epoch < rq.epoch)
       && (DRAIN < cur ==> epoch < rq.epoch)
       && (e.started ==> rq.cls.Fs? && rq.epoch == epoch)
       && (rq.cls.Hard? ==> e.stop)
       && (!e.stop && 0 < cur ==> epoch < rq.epoch)
       && !rq.cls.Special?)
    case _ => 0 < cur && e.stop && (e.started ==> cur == ReqSeq(Req(0, Fs, false, 0), e.who))
  }

  /** The dispatch list is in order. */
  ghost predicate QueueOk(q: seq<Entry>, epoch: nat, cur: nat) {
    q == [] ||
    (&& EntryOk(q[0], epoch, cur) && QueueOk(q[1..], epoch, cur)
     && (IsSpecial(q[0].who) || AtLeast(q[1..], epoch, NextKey(q[0].who, epoch))))
  }

  /** The driver holds nothing but the current epoch, and after the drain no
      ordinary file system request at all. */
  ghost predicate DriverOk(d: seq<Who>, epoch: nat, cur: nat) {
    d == [] ||
    (&& DriverOk(d[1..], epoch, cur)
     && match d[0]
        case Orig(rq) => rq.cls.Special? || (rq.cls.Fs? && Fair(rq) && rq.epoch == epoch && cur <= DRAIN)
        case _ => cur == ReqSeq(Req(0, Fs, false, 0), d[0]))
  }

  function CountFs(d: seq<Who>): nat {
    if d == [] then 0 else (if Accounted(d[0]) then 1 else 0) + CountFs(d[1..])
  }

  function CountIn(q: seq<Entry>, w: Who): nat {
    if q == [] then 0 else (if q[0].who == w then 1 else 0) + CountIn(q[1..], w)
  }

  function CountAt(d: seq<Who>, w: Who): nat {
    if d == [] then 0 else (if d[0] == w then 1 else 0) + CountAt(d[1..], w)
  }

  /** A sequence request exists exactly once while its stage is not complete. */
  ghost predicate SequenceOk(s: State) {
    && CountIn(s.queue, PreFlush) + CountAt(s.driver, PreFlush) == (if s.ordseq.started && !s.ordseq.preflush then 1 else 0)
    && CountIn(s.queue, Bar) + CountAt(s.driver, Bar) == (if s.ordseq.started && !s.ordseq.bar then 1 else 0)
    && CountIn(s.queue, PostFlush) + CountAt(s.driver, PostFlush) == (if s.ordseq.started && !s.ordseq.postflush then 1 else 0)
  }

  /** Nothing is lost: where a request that is not complete can be. */
  ghost predicate Somewhere(s: State, rq: Req) {
    match rq.cls
    case Special(_) => true
    case Fs => rq in s.done || rq in s.sorted || 0 < CountIn(s.queue, Orig(rq)) || 0 < CountAt(s.driver, Orig(rq))
    case Hard(_) => if rq.epoch < s.epoch then rq in s.done
                    else 0 < CountIn(s.queue, Orig(rq)) || (s.ordseq.started && rq == s.orig)
  }

  /** Requests on the list are no newer than the barriers that were added. */
  ghost predicate Bounded(q: seq<Entry>, n: nat) {
    q == [] ||
    (&& Bounded(q[1..], n)
     && (IsFs(q[0].who) ==> q[0].who.rq.epoch < n || (q[0].who.rq.cls.Fs? && q[0].who.rq.epoch == n)))
  }

  /** The lists, the counters and the sequence bits agree. */
  ghost predicate Core(s: State) {
    && QueueOk(s.queue, s.epoch, CurSeq(s.ordseq)) && DriverOk(s.driver, s.epoch, CurSeq(s.ordseq))
    && s.inFlight == CountFs(s.driver) && SequenceOk(s) && !s.bug
    && (s.ordseq.started ==> s.orig.cls.Hard? && s.orig.epoch == s.epoch < |s.bars| && Fair(s.orig) && CurSeq(s.ordseq) < DONE)
    && (!s.ordseq.started ==> s.ordseq == IDLE)
    && s.epoch <= |s.bars| && Bounded(s.queue, |s.bars|)
  }

  ghost predicate Past(s: State) {
    && (forall rq :: rq in s.sorted ==> rq.cls.Fs? && Fair(rq) && rq.epoch == |s.bars|)
    && (forall rq :: rq in s.done && rq.cls.Hard? ==> rq.epoch < s.epoch)
    && (forall rq :: rq in s.issued && !rq.cls.Special? ==> rq.epoch <= s.epoch)
    && (forall k :: 0 <= k < |s.bars| ==> s.bars[k] in s.log && s.bars[k].epoch == k && (s.epoch <= k ==> s.bars[k].cls.Hard?))
  }

  ghost predicate Inv(s: State) {
    Core(s) && Past(s) && forall rq :: rq in s.log ==> Somewhere(s, rq)
  }

  // ---- Lists -------------------------------------------------------------

  lemma AtLeastLess(q: seq<Entry>, epoch: nat, k: nat, k': nat)
    requires AtLeast(q, epoch, k) && k' <= k
    ensures AtLeast(q, epoch, k')
  {
  }

  lemma {:induction false} AtLeastSuffix(q: seq<Entry>, epoch: nat, k: nat, i: nat)
    requires AtLeast(q, epoch, k) && i <= |q|
    ensures AtLeast(q[i..], epoch, k)
  {
    if i > 0 {
      AtLeastSuffix(q[1..], epoch, k, i - 1);
      assert q[1..][i - 1..] == q[i..];
    }
  }

  /** A list in order starts no earlier than the current epoch. */
  lemma QueueFromEpoch(q: seq<Entry>, epoch: nat, cur: nat)
    requires QueueOk(q, epoch, cur)
    ensures AtLeast(q, epoch, 8 * epoch)
    ensures DRAIN < cur ==> AtLeast(q, epoch, 8 * epoch + 1)
  {
  }

  lemma {:induction false} EntryOf(q: seq<Entry>, epoch: nat, cur: nat, k: nat, w: Who)
    requires QueueOk(q, epoch, cur) && 0 < CountIn(q, w)
    ensures exists e :: EntryOk(e, epoch, cur) && e.who == w
    ensures AtLeast(q, epoch, k) && !IsSpecial(w) ==> k <= Key(w, epoch)
  {
    if q[0].who == w {
      assert EntryOk(q[0], epoch, cur);
    } else {
      EntryOf(q[1..], epoch, cur, k, w);
    }
  }

  lemma SplitAt<T>(q: seq<T>, i: nat)
    requires 0 < i < |q|
    ensures Without(q, i) == [q[0]] + Without(q[1..], i - 1)
  {
    assert q[..i] == [q[0]] + q[1..][..i - 1];
    assert q[i + 1..] == q[1..][i..];
  }

  lemma WithoutFirst<T>(q: seq<T>)
    requires q != []
    ensures Without(q, 0) == q[1..]
  {
  }

  lemma {:induction false} QueueWithout(q: seq<Entry>, i: nat, epoch: nat, cur: nat, k: nat, n: nat, w: Who)
    requires i < |q|
    ensures QueueOk(q, epoch, cur) ==> QueueOk(Without(q, i), epoch, cur)
    ensures AtLeast(q, epoch, k) ==> AtLeast(Without(q, i), epoch, k)
    ensures Bounded(q, n) ==> Bounded(Without(q, i), n)
    ensures CountIn(Without(q, i), w) == CountIn(q, w) - (if q[i].who == w then 1 else 0)
    decreases |q|
  {
    if i == 0 {
      WithoutFirst(q);
    } else {
      SplitAt(q, i);
      QueueWithout(q[1..], i - 1, epoch, cur, k, n, w);
      QueueWithout(q[1..], i - 1, epoch, cur, NextKey(q[0].who, epoch), n, w);
      assert Without(q, i)[1..] == Without(q[1..], i - 1);
    }
  }

  lemma {:induction false} DriverWithout(d: seq<Who>, i: nat, epoch: nat, cur: nat, w: Who)
    requires i < |d|
    ensures DriverOk(d, epoch, cur) ==> DriverOk(Without(d, i), epoch, cur) && DriverOk([d[i]], epoch, cur)
    ensures CountFs(Without(d, i)) == CountFs(d) - (if Accounted(d[i]) then 1 else 0)
    ensures CountAt(Without(d, i), w) == CountAt(d, w) - (if d[i] == w then 1 else 0)
    decreases |d|
  {
    if i == 0 {
      WithoutFirst(d);
    } else {
      SplitAt(d, i);
      DriverWithout(d[1..], i - 1, epoch, cur, w);
      assert Without(d, i)[1..] == Without(d[1..], i - 1);
    }
  }

  lemma {:induction false} DriverAppend(d: seq<Who>, x: Who, epoch: nat, cur: nat, w: Who)
    ensures DriverOk(d, epoch, cur) && DriverOk([x], epoch, cur) ==> DriverOk(d + [x], epoch, cur)
    ensures CountFs(d + [x]) == CountFs(d) + (if Accounted(x) then 1 else 0)
    ensures CountAt(d + [x], w) == CountAt(d, w) + (if x == w then 1 else 0)
    decreases |d|
  {
    if d == [] {
      assert d + [x] == [x] && [x][1..] == [];
    } else {
      assert (d + [x])[1..] == d[1..] + [x];
      DriverAppend(d[1..], x, epoch, cur, w);
    }
  }

  /** No entry belongs after key `k`. */
  ghost predicate AtMost(q: seq<Entry>, epoch: nat, k: nat) {
    q == [] || ((IsSpecial(q[0].who) || NextKey(q[0].who, epoch) <= k) && AtMost(q[1..], epoch, k))
  }

  lemma PutFirst<T>(q: seq<T>, e: T)
    ensures Put(q, 0, e) == [e] + q
  {
    assert q[..0] == [];
  }

  lemma PutLater<T>(q: seq<T>, i: nat, e: T)
    requires 0 < i <= |q|
    ensures Put(q, i, e) == [q[0]] + Put(q[1..], i - 1, e)
  {
    assert q[..i] == [q[0]] + q[1..][..i - 1];
    assert q[i..] == q[1..][i - 1..];
  }

  /** An entry that fits between its neighbours keeps the list in order. */
  lemma {:induction false} QueuePut(q: seq<Entry>, i: nat, e: Entry, epoch: nat, cur: nat)
    requires i <= |q| && QueueOk(q, epoch, cur) && EntryOk(e, epoch, cur)
    requires IsSpecial(e.who) || (AtMost(q[..i], epoch, Key(e.who, epoch)) && AtLeast(q[i..], epoch, NextKey(e.who, epoch)))
    ensures QueueOk(Put(q, i, e), epoch, cur)
    decreases |q|
  {
    if i == 0 {
      PutFirst(q, e);
      assert q[0..] == q && ([e] + q)[1..] == q;
    } else {
      PutLater(q, i, e);
      assert q[..i][1..] == q[1..][..i - 1] && q[i..] == q[1..][i - 1..];
      QueuePut(q[1..], i - 1, e, epoch, cur);
      assert Put(q, i, e)[1..] == Put(q[1..], i - 1, e);
      if !IsSpecial(q[0].who) { AtLeastPut(q[1..], i - 1, e, epoch, NextKey(q[0].who, epoch)); }
    }
  }

  lemma {:induction false} AtLeastPut(q: seq<Entry>, i: nat, e: Entry, epoch: nat, k: nat)
    requires i <= |q| && AtLeast(q, epoch, k) && (IsSpecial(e.who) || k <= Key(e.who, epoch))
    ensures AtLeast(Put(q, i, e), epoch, k)
    decreases |q|
  {
    if i == 0 {
      PutFirst(q, e);
      assert ([e] + q)[1..] == q;
    } else {
      PutLater(q, i, e);
      AtLeastPut(q[1..], i - 1, e, epoch, k);
      assert Put(q, i, e)[1..] == Put(q[1..], i - 1, e);
    }
  }

  lemma {:induction false} CountPut(q: seq<Entry>, i: nat, e: Entry, n: nat, w: Who)
    requires i <= |q|
    ensures CountIn(Put(q, i, e), w) == CountIn(q, w) + (if e.who == w then 1 else 0)
    ensures Bounded(Put(q, i, e), n) <==> Bounded(q, n) && Bounded([e], n)
    decreases |q|
  {
    if i == 0 {
      PutFirst(q, e);
      assert ([e] + q)[1..] == q && [e][1..] == [];
    } else {
      PutLater(q, i, e);
      CountPut(q[1..], i - 1, e, n, w);
      assert Put(q, i, e)[1..] == Put(q[1..], i - 1, e);
    }
  }

  // ---- The front of the list ---------------------------------------------

  /** Special requests at the head of the list. */
  function Leading(q: seq<Entry>): (n: nat)
    ensures n <= |q|
  {
    if q == [] || !IsSpecial(q[0].who) then 0 else 1 + Leading(q[1..])
  }

  /** The first other request is the earliest of all. */
  lemma {:induction false} FirstIsLeast(q: seq<Entry>, epoch: nat, cur: nat, w: Who)
    requires QueueOk(q, epoch, cur) && 0 < CountIn(q, w) && !IsSpecial(w)
    ensures var n := Leading(q);
            n < |q| && Key(q[n].who, epoch) <= Key(w, epoch) && (q[n].who != w ==> NextKey(q[n].who, epoch) <= Key(w, epoch))
  {
    if q[0].who != w {
      if IsSpecial(q[0].who) {
        FirstIsLeast(q[1..], epoch, cur, w);
      } else {
        EntryOf(q[1..], epoch, cur, NextKey(q[0].who, epoch), w);
      }
    }
  }

  lemma {:induction false} LeadingEntry(q: seq<Entry>, epoch: nat, cur: nat, n: nat)
    requires QueueOk(q, epoch, cur) && Leading(q) < |q| && Bounded(q, n)
    ensures EntryOk(q[Leading(q)], epoch, cur) && !IsSpecial(q[Leading(q)].who)
    ensures Bounded([q[Leading(q)]], n)
  {
    if IsSpecial(q[0].who) { LeadingEntry(q[1..], epoch, cur, n); }
  }

  /** The first file system request is at most one barrier ahead: any barrier in
      between is itself on the list, before it. */
  lemma FirstIsNear(s: State)
    requires Inv(s) && Leading(s.queue) < |s.queue|
    requires var w := s.queue[Leading(s.queue)].who; IsFs(w)
    ensures var rq := s.queue[Leading(s.queue)].who.rq;
            if s.ordseq.started then rq.epoch <= s.epoch + 1 else rq.epoch == s.epoch
  {
    var e := s.queue[Leading(s.queue)];
    LeadingEntry(s.queue, s.epoch, CurSeq(s.ordseq), |s.bars|);
    var k := if s.ordseq.started then s.epoch + 1 else s.epoch;
    if k < e.who.rq.epoch {
      var b := s.bars[k];
      assert Somewhere(s, b);
      FirstIsLeast(s.queue, s.epoch, CurSeq(s.ordseq), Orig(b));
    }
  }

  /** What blk_ordered_req_seq says about the first such request. */
  lemma FirstReqSeq(s: State)
    requires Inv(s) && s.ordseq.started && Leading(s.queue) < |s.queue|
    requires IsFs(s.queue[Leading(s.queue)].who)
    ensures var rq := s.queue[Leading(s.queue)].who.rq;
            ReqSeq(s.orig, Orig(rq)) == if rq.epoch == s.epoch then DRAIN else DONE
  {
    FirstIsNear(s);
    LeadingEntry(s.queue, s.epoch, CurSeq(s.ordseq), |s.bars|);
  }

  // ---- Moving from stage to stage ----------------------------------------

  ghost predicate OnlySpecials(d: seq<Who>) {
    d == [] || (IsSpecial(d[0]) && OnlySpecials(d[1..]))
  }

  lemma OnlySpecialsOk(d: seq<Who>, epoch: nat, cur: nat)
    requires OnlySpecials(d)
    ensures DriverOk(d, epoch, cur)
  {
  }

  lemma DriverEmptied(d: seq<Who>, epoch: nat, cur: nat)
    requires DriverOk(d, epoch, cur) && CountFs(d) == 0 && CountAt(d, PreFlush) == 0 && CountAt(d, PostFlush) == 0
    ensures OnlySpecials(d)
  {
  }

  /** After the drain, with the request of the stage off the list, the list fits
      every later stage. */
  lemma NextStage(q: seq<Entry>, epoch: nat, cur: nat, cur': nat, w: Who)
    requires QueueOk(q, epoch, cur) && AtLeast(q, epoch, 8 * epoch + 1) && 0 < cur && DRAIN < cur'
    requires cur == DRAIN || (!w.Orig? && cur == ReqSeq(Req(0, Fs, false, 0), w) && CountIn(q, w) == 0)
    ensures QueueOk(q, epoch, cur')
  {
  }

  /** With no sequence request left on the list, the next epoch begins. */
  lemma {:induction false} NextEpoch(q: seq<Entry>, epoch: nat, cur: nat, k: nat)
    requires QueueOk(q, epoch, cur) && AtLeast(q, epoch, 8 * epoch + 1)
    requires cur == 0 ==> AtLeast(q, epoch, 8 * epoch + 5)
    requires CountIn(q, PreFlush) == 0 && CountIn(q, Bar) == 0 && CountIn(q, PostFlush) == 0
    ensures QueueOk(q, epoch + 1, 0)
    ensures AtLeast(q, epoch, k) ==> AtLeast(q, epoch + 1, k)
  {
    if q != [] {
      NextEpoch(q[1..], epoch, cur, k);
      NextEpoch(q[1..], epoch, cur, NextKey(q[0].who, epoch));
    }
  }

  /** Everything but the sequence requests is ready for a later stage: the drain
      is over and the driver has nothing that waits for it. */
  ghost predicate Drained(s: State) {
    && s.ordseq.started && QueueOk(s.queue, s.epoch, CurSeq(s.ordseq)) && AtLeast(s.queue, s.epoch, 8 * s.epoch + 1)
    && OnlySpecials(s.driver) && s.inFlight == CountFs(s.driver) && !s.bug
    && s.orig.cls.Hard? && s.orig.epoch == s.epoch < |s.bars| && Fair(s.orig)
    && Bounded(s.queue, |s.bars|)
  }

  lemma SpecialsHaveNone(d: seq<Who>, w: Who)
    requires OnlySpecials(d) && !IsSpecial(w)
    ensures CountAt(d, w) == 0
  {
  }

  /** Setting the bits of a stage, `w` being its request, moves on. */
  lemma StageDoneCore(s: State, add: OrdSeq, w: Who)
    requires Drained(s) && !Overlap(s.ordseq, add) && (s.ordseq.drain || add.drain)
    requires var o := Merged(s.ordseq, add);
             && CountIn(s.queue, PreFlush) == (if o.preflush then 0 else 1)
             && CountIn(s.queue, Bar) == (if o.bar then 0 else 1)
             && CountIn(s.queue, PostFlush) == (if o.postflush then 0 else 1)
    requires var cur := CurSeq(s.ordseq);
             cur == DRAIN || (!w.Orig? && cur == ReqSeq(Req(0, Fs, false, 0), w) && CountIn(s.queue, w) == 0)
    ensures Core(CompleteSeq(s, add))
  {
    var o, cur := Merged(s.ordseq, add), CurSeq(s.ordseq);
    SpecialsHaveNone(s.driver, PreFlush);
    SpecialsHaveNone(s.driver, Bar);
    SpecialsHaveNone(s.driver, PostFlush);
    if CurSeq(o) == DONE {
      NextEpoch(s.queue, s.epoch, cur, 0);
      OnlySpecialsOk(s.driver, s.epoch + 1, 0);
    } else {
      NextStage(s.queue, s.epoch, cur, CurSeq(o), w);
      OnlySpecialsOk(s.driver, s.epoch, CurSeq(o));
    }
  }

  /** Ending a sequence completes exactly its barrier. */
  lemma StageDoneRest(s: State, add: OrdSeq)
    requires s.ordseq.started && s.orig.cls.Hard? && s.orig.epoch == s.epoch
    requires QueueOk(s.queue, s.epoch, CurSeq(s.ordseq))
    requires Past(s) && forall rq :: rq in s.log ==> Somewhere(s, rq)
    ensures var s' := CompleteSeq(s, add); Past(s') && forall rq :: rq in s'.log ==> Somewhere(s', rq)
  {
    var s' := CompleteSeq(s, add);
    forall rq | rq in s'.log ensures Somewhere(s', rq) {
      assert Somewhere(s, rq);
      if rq.cls.Hard? && rq.epoch == s.epoch && rq != s.orig {
        EntryOf(s.queue, s.epoch, CurSeq(s.ordseq), 0, Orig(rq));
      }
    }
  }

  // ---- Completion --------------------------------------------------------

  lemma DriverHas(d: seq<Who>, epoch: nat, cur: nat, w: Who)
    requires DriverOk(d, epoch, cur) && !w.Orig? && cur != ReqSeq(Req(0, Fs, false, 0), w)
    ensures CountAt(d, w) == 0
  {
  }

  /** Past the drain, only the request of the current stage is at the driver. */
  lemma DriverAfterStage(d: seq<Who>, epoch: nat, cur: nat, w: Who)
    requires DriverOk(d, epoch, cur) && DRAIN < cur && !w.Orig? && cur == ReqSeq(Req(0, Fs, false, 0), w)
    requires CountAt(d, w) == 0
    ensures OnlySpecials(d)
  {
  }

  /** Taking a request from the driver, which completes or is requeued. */
  lemma TakenCore(s: State, i: nat)
    requires Core(s) && i < |s.driver|
    ensures var w := s.driver[i];
            && DriverOk(Without(s.driver, i), s.epoch, CurSeq(s.ordseq)) && DriverOk([w], s.epoch, CurSeq(s.ordseq))
            && Less(s.inFlight, w) == CountFs(Without(s.driver, i))
            && !(Accounted(w) && s.inFlight == 0)
  {
    DriverWithout(s.driver, i, s.epoch, CurSeq(s.ordseq), s.driver[i]);
  }

  lemma CompleteOrig(s: State, i: nat)
    requires Inv(s) && i < |s.driver| && s.driver[i].Orig?
    ensures var s1 := s.(driver := Without(s.driver, i), inFlight := Less(s.inFlight, s.driver[i]),
                         done := s.done + {s.driver[i].rq});
            Inv(s1)
  {
    var w := s.driver[i];
    var s1 := s.(driver := Without(s.driver, i), inFlight := Less(s.inFlight, w), done := s.done + {w.rq});
    TakenCore(s, i);
    DriverWithout(s.driver, i, 0, 0, PreFlush);
    DriverWithout(s.driver, i, 0, 0, Bar);
    DriverWithout(s.driver, i, 0, 0, PostFlush);
    forall rq | rq in s1.log ensures Somewhere(s1, rq) {
      assert Somewhere(s, rq);
      DriverWithout(s.driver, i, 0, 0, Orig(rq));
    }
  }

  lemma CheckDrainKeepsInv(s: State)
    requires Inv(s)
    ensures Inv(CheckDrain(s))
  {
    if CheckDrain(s) != s {
      var q, e := s.queue, s.epoch;
      if q != [] {
        assert Leading(q) == 0;
        if IsFs(q[0].who) { FirstReqSeq(s); }
        AtLeastLess(q[1..], e, NextKey(q[0].who, e), 8 * e + 1);
      }
      DriverHas(s.driver, e, DRAIN, PreFlush);
      DriverHas(s.driver, e, DRAIN, Bar);
      DriverHas(s.driver, e, DRAIN, PostFlush);
      DriverEmptied(s.driver, e, DRAIN);
      StageDoneCore(s, IDLE.(drain := true), PreFlush);
      StageDoneRest(s, IDLE.(drain := true));
    }
  }

  lemma CompleteStage(s: State, i: nat, add: OrdSeq)
    requires Inv(s) && i < |s.driver| && !s.driver[i].Orig?
    requires add == IDLE.(preflush := s.driver[i].PreFlush?, bar := s.driver[i].Bar?, postflush := s.driver[i].PostFlush?)
    ensures var s1 := s.(driver := Without(s.driver, i), inFlight := Less(s.inFlight, s.driver[i]));
            CheckDrain(s1) == s1 && Inv(CompleteSeq(s1, add))
  {
    var w, cur := s.driver[i], CurSeq(s.ordseq);
    var s1 := s.(driver := Without(s.driver, i), inFlight := Less(s.inFlight, w));
    TakenCore(s, i);
    DriverWithout(s.driver, i, s.epoch, cur, w);
    assert CountAt(s1.driver, w) == 0 && CountIn(s.queue, w) == 0;
    DriverAfterStage(s1.driver, s.epoch, cur, w);
    QueueFromEpoch(s.queue, s.epoch, cur);
    OthersQueued(s, w);
    StageDoneCore(s1, add, w);
    forall rq | rq in s1.log ensures Somewhere(s1, rq) {
      assert Somewhere(s, rq);
      DriverWithout(s.driver, i, 0, 0, Orig(rq));
    }
    StageDoneRest(s1, add);
  }

  /** The sequence requests of other stages are on the list, if anywhere. */
  lemma OthersQueued(s: State, w: Who)
    requires Core(s) && !w.Orig? && CurSeq(s.ordseq) == ReqSeq(Req(0, Fs, false, 0), w)
    ensures w != PreFlush ==> CountAt(s.driver, PreFlush) == 0
    ensures w != Bar ==> CountAt(s.driver, Bar) == 0
    ensures w != PostFlush ==> CountAt(s.driver, PostFlush) == 0
  {
    if w != PreFlush { DriverHas(s.driver, s.epoch, CurSeq(s.ordseq), PreFlush); }
    if w != Bar { DriverHas(s.driver, s.epoch, CurSeq(s.ordseq), Bar); }
    if w != PostFlush { DriverHas(s.driver, s.epoch, CurSeq(s.ordseq), PostFlush); }
  }

  lemma CompleteKeepsInv(s: State, i: nat)
    requires Inv(s) && i < |s.driver|
    ensures Inv(Complete(s, i))
  {
    TakenCore(s, i);
    match s.driver[i]
    case Orig(rq) =>
      CompleteOrig(s, i);
      CheckDrainKeepsInv(s.(driver := Without(s.driver, i), inFlight := Less(s.inFlight, s.driver[i]), done := s.done + {rq}));
    case PreFlush => CompleteStage(s, i, IDLE.(preflush := true));
    case Bar => CompleteStage(s, i, IDLE.(bar := true));
    case PostFlush => CompleteStage(s, i, IDLE.(postflush := true));
  }

  // ---- Dequeue and requeue -----------------------------------------------

  lemma {:induction false} EntryAt(q: seq<Entry>, i: nat, epoch: nat, cur: nat, n: nat)
    requires QueueOk(q, epoch, cur) && i < |q| && Bounded(q, n)
    ensures EntryOk(q[i], epoch, cur) && Bounded([q[i]], n)
  {
    if i > 0 { EntryAt(q[1..], i - 1, epoch, cur, n); }
  }

  lemma DequeueKeepsInv(s: State, i: nat)
    requires Inv(s) && i < |s.queue| && s.queue[i].started
    ensures Inv(Dequeue(s, i))
  {
    var w, e, cur, s' := s.queue[i].who, s.epoch, CurSeq(s.ordseq), Dequeue(s, i);
    EntryAt(s.queue, i, e, cur, |s.bars|);
    DequeueCounts(s, i, PreFlush);
    DequeueCounts(s, i, Bar);
    DequeueCounts(s, i, PostFlush);
    assert DriverOk([w][1..], e, cur);
    assert DriverOk([w], e, cur);
    forall rq | rq in s'.log ensures Somewhere(s', rq) {
      assert Somewhere(s, rq);
      DequeueCounts(s, i, Orig(rq));
    }
  }

  /** A dequeued request moves from the list to the driver. */
  lemma DequeueCounts(s: State, i: nat, w: Who)
    requires i < |s.queue| && QueueOk(s.queue, s.epoch, CurSeq(s.ordseq)) && Bounded(s.queue, |s.bars|)
    ensures var s' := Dequeue(s, i); var moved := if s.queue[i].who == w then 1 else 0;
            && CountIn(s'.queue, w) == CountIn(s.queue, w) - moved && CountAt(s'.driver, w) == CountAt(s.driver, w) + moved
            && QueueOk(s'.queue, s.epoch, CurSeq(s.ordseq)) && Bounded(s'.queue, |s.bars|)
            && CountFs(s'.driver) == CountFs(s.driver) + (if Accounted(s.queue[i].who) then 1 else 0)
            && (DriverOk(s.driver, s.epoch, CurSeq(s.ordseq)) && DriverOk([s.queue[i].who], s.epoch, CurSeq(s.ordseq))
                ==> DriverOk(s'.driver, s.epoch, CurSeq(s.ordseq)))
  {
    QueueWithout(s.queue, i, s.epoch, CurSeq(s.ordseq), 0, |s.bars|, w);
    DriverAppend(s.driver, s.queue[i].who, s.epoch, CurSeq(s.ordseq), w);
  }

  /** Every stage number is at least the drain's. */
  lemma ReqSeqLow(orig: Req, w: Who)
    ensures DRAIN <= ReqSeq(orig, w)
  {
  }

  /** The list holds nothing before the request of the current stage. */
  lemma NothingBefore(q: seq<Entry>, epoch: nat, cur: nat, w: Who)
    requires QueueOk(q, epoch, cur) && !w.Orig? && cur == ReqSeq(Req(0, Fs, false, 0), w)
    requires PREFLUSH < cur ==> CountIn(q, PreFlush) == 0
    requires BAR < cur ==> CountIn(q, Bar) == 0
    ensures AtLeast(q, epoch, Key(w, epoch))
  {
  }

  lemma {:induction false} LeadingAtMost(q: seq<Entry>, epoch: nat, k: nat)
    ensures AtMost(q[..Leading(q)], epoch, k)
  {
    if q != [] && IsSpecial(q[0].who) {
      LeadingAtMost(q[1..], epoch, k);
      assert q[..Leading(q)][1..] == q[1..][..Leading(q[1..])];
    }
  }

  /** The requeue walk passes exactly the requests of earlier stages that are in
      front. */
  lemma {:induction false} RequeuePosIsRight(orig: Req, q: seq<Entry>, seqOf: nat)
    ensures var at := RequeuePos(orig, q, seqOf);
            && (forall j :: 0 <= j < at ==> ReqSeq(orig, q[j].who) < seqOf)
            && (at < |q| ==> seqOf <= ReqSeq(orig, q[at].who))
  {
    if q != [] && ReqSeq(orig, q[0].who) < seqOf {
      RequeuePosIsRight(orig, q[1..], seqOf);
      var at := RequeuePos(orig, q, seqOf);
      forall j | 0 <= j < at ensures ReqSeq(orig, q[j].who) < seqOf {
        if 0 < j { assert q[j] == q[1..][j - 1]; }
      }
    }
  }

  /** The requeue walk stops at the first request that is not special. */
  lemma RequeuePosIsLeading(orig: Req, q: seq<Entry>, seqOf: nat)
    requires DRAIN < seqOf
    requires Leading(q) < |q| ==> seqOf <= ReqSeq(orig, q[Leading(q)].who)
    ensures RequeuePos(orig, q, seqOf) == Leading(q)
  {
  }

  lemma RequeueStagePos(s: State, w: Who)
    requires Inv(s) && s.ordseq.started && !w.Orig? && CurSeq(s.ordseq) == ReqSeq(s.orig, w)
    ensures RequeuePos(s.orig, s.queue, ReqSeq(s.orig, w)) == Leading(s.queue)
    ensures AtMost(s.queue[..Leading(s.queue)], s.epoch, Key(w, s.epoch))
    ensures AtLeast(s.queue[Leading(s.queue)..], s.epoch, Key(w, s.epoch))
  {
    var q, n, e, cur := s.queue, Leading(s.queue), s.epoch, CurSeq(s.ordseq);
    NothingBefore(q, e, cur, w);
    AtLeastSuffix(q, e, Key(w, e), n);
    LeadingAtMost(q, e, Key(w, e));
    if n < |q| {
      LeadingEntry(q, e, cur, |s.bars|);
      if IsFs(q[n].who) { FirstReqSeq(s); }
      assert q[n..][0] == q[n];
    }
    RequeuePosIsLeading(s.orig, q, ReqSeq(s.orig, w));
  }

  lemma RequeueQueue(s: State, i: nat)
    requires Inv(s) && i < |s.driver|
    ensures QueueOk(Requeue(s, i).queue, s.epoch, CurSeq(s.ordseq))
    ensures Bounded([Entry(s.driver[i], false, true)], |s.bars|)
  {
    var w, q, e, cur := s.driver[i], s.queue, s.epoch, CurSeq(s.ordseq);
    TakenCore(s, i);
    var entry := Entry(w, false, true);
    assert [entry][1..] == [];
    QueueFromEpoch(q, e, cur);
    assert q[0..] == q && q[..0] == [];
    if w.Orig? {
      if q != [] { ReqSeqLow(s.orig, q[0].who); }
      QueuePut(q, 0, entry, e, cur);
    } else {
      RequeueStagePos(s, w);
      QueuePut(q, Leading(q), entry, e, cur);
    }
  }

  lemma RequeueKeepsInv(s: State, i: nat)
    requires Inv(s) && i < |s.driver|
    ensures Inv(Requeue(s, i))
  {
    var s' := Requeue(s, i);
    TakenCore(s, i);
    RequeueQueue(s, i);
    RequeueCounts(s, i, PreFlush);
    RequeueCounts(s, i, Bar);
    RequeueCounts(s, i, PostFlush);
    forall rq | rq in s'.log ensures Somewhere(s', rq) {
      assert Somewhere(s, rq);
      RequeueCounts(s, i, Orig(rq));
    }
  }

  lemma RequeueCounts(s: State, i: nat, w: Who)
    requires i < |s.driver|
    ensures var s' := Requeue(s, i); var moved := if s.driver[i] == w then 1 else 0;
            && CountAt(s'.driver, w) == CountAt(s.driver, w) - moved && CountIn(s'.queue, w) == CountIn(s.queue, w) + moved
            && (Bounded(s'.queue, |s.bars|) <==> Bounded(s.queue, |s.bars|) && Bounded([Entry(s.driver[i], false, true)], |s.bars|))
  {
    DriverWithout(s.driver, i, 0, 0, w);
    var at := if s.ordseq.started then RequeuePos(s.orig, s.queue, ReqSeq(s.orig, s.driver[i])) else 0;
    CountPut(s.queue, at, Entry(s.driver[i], false, true), |s.bars|, w);
  }

  // ---- Starting a sequence -----------------------------------------------

  lemma MarkHeadKeepsInv(s: State)
    requires Inv(s) && s.queue != []
    requires var w := s.queue[0].who;
             match w
             case Orig(rq) => rq.cls.Special? || (rq.cls.Fs? && rq.epoch == s.epoch)
             case _ => CurSeq(s.ordseq) == ReqSeq(s.orig, w)
    ensures Inv(MarkHead(s))
  {
    var s', h := MarkHead(s), s.queue[0];
    var h' := h.(started := true);
    assert s'.queue[1..] == s.queue[1..];
    assert EntryOk(h', s.epoch, CurSeq(s.ordseq));
    forall w ensures CountIn(s'.queue, w) == CountIn(s.queue, w) {
    }
    forall rq | rq in s'.log ensures Somewhere(s', rq) {
      assert Somewhere(s, rq);
    }
  }

  /** Behind the barrier at the head everything is newer, so a sequence can start. */
  lemma {:induction false} RestBehind(q: seq<Entry>, epoch: nat, cur: nat)
    requires QueueOk(q, epoch, 0) && AtLeast(q, epoch, 8 * epoch + 5) && 0 < cur
    ensures QueueOk(q, epoch, cur)
    ensures CountIn(q, PreFlush) == 0 && CountIn(q, Bar) == 0 && CountIn(q, PostFlush) == 0
  {
    if q != [] { RestBehind(q[1..], epoch, cur); }
  }

  /** One more sequence request in front. */
  lemma OneInFront(w: Who, want: bool, q: seq<Entry>, epoch: nat, cur: nat, n: nat)
    requires !w.Orig? && 0 < cur && QueueOk(q, epoch, cur) && AtLeast(q, epoch, Key(w, epoch)) && Bounded(q, n)
    ensures var q' := One(w, want) + q;
            QueueOk(q', epoch, cur) && AtLeast(q', epoch, Key(w, epoch)) && Bounded(q', n)
  {
    var q' := One(w, want) + q;
    if want {
      assert q'[1..] == q && q'[0] == Entry(w, false, true);
    } else {
      assert q' == q;
    }
  }

  lemma OneCounts(w: Who, want: bool, q: seq<Entry>, x: Who)
    ensures CountIn(One(w, want) + q, x) == CountIn(q, x) + (if want && x == w then 1 else 0)
  {
    if want {
      assert (One(w, want) + q)[1..] == q;
    } else {
      assert One(w, want) + q == q;
    }
  }

  /** The barrier at the head closes the current epoch. */
  lemma HeadBarrier(s: State)
    requires Inv(s) && !s.ordseq.started && s.queue != [] && s.queue[0].who.Orig? && s.queue[0].who.rq.cls.Hard?
    ensures var b := s.queue[0].who.rq;
            && b.epoch == s.epoch < |s.bars| && Fair(b)
            && AtLeast(s.queue[1..], s.epoch, 8 * s.epoch + 5)
            && forall rq :: rq in s.log && rq.cls.Hard? && rq.epoch == s.epoch ==> rq == b
  {
    var b, q := s.queue[0].who.rq, s.queue;
    assert Leading(q) == 0;
    FirstIsNear(s);
    forall rq | rq in s.log && rq.cls.Hard? && rq.epoch == s.epoch ensures rq == b {
      assert Somewhere(s, rq);
      FirstIsLeast(q, s.epoch, 0, Orig(rq));
    }
  }

  lemma SequenceQueue(s: State, b: Req, cur: nat)
    requires Inv(s) && !s.ordseq.started && s.queue != [] && s.queue[0].who == Orig(b) && b.cls.Hard? && 0 < cur
    ensures var q := Sequence(s, b);
            && QueueOk(q, s.epoch, cur) && AtLeast(q, s.epoch, 8 * s.epoch + 1) && Bounded(q, |s.bars|)
            && CountIn(q, PreFlush) == (if s.mode.preflush then 1 else 0)
            && CountIn(q, Bar) == (if s.mode.bar && !b.cls.empty then 1 else 0)
            && CountIn(q, PostFlush) == (if s.mode.postflush && !b.cls.empty then 1 else 0)
  {
    SequenceInOrder(s, b, cur);
    SequenceCounts(s, b, PreFlush);
    SequenceCounts(s, b, Bar);
    SequenceCounts(s, b, PostFlush);
  }

  lemma SequenceInOrder(s: State, b: Req, cur: nat)
    requires Inv(s) && !s.ordseq.started && s.queue != [] && s.queue[0].who == Orig(b) && b.cls.Hard? && 0 < cur
    ensures var q := Sequence(s, b);
            QueueOk(q, s.epoch, cur) && AtLeast(q, s.epoch, 8 * s.epoch + 1) && Bounded(q, |s.bars|)
  {
    HeadBarrier(s);
    var e, r := s.epoch, s.queue[1..];
    RestBehind(r, e, cur);
    StagesInOrder(r, s.mode.preflush, s.mode.bar && !b.cls.empty, s.mode.postflush && !b.cls.empty, e, cur, |s.bars|);
  }

  /** The stages that are wanted, in front of what is newer. */
  lemma StagesInOrder(r: seq<Entry>, pre: bool, bar: bool, post: bool, e: nat, cur: nat, n: nat)
    requires QueueOk(r, e, cur) && AtLeast(r, e, 8 * e + 5) && Bounded(r, n) && 0 < cur
    ensures var q := One(PreFlush, pre) + (One(Bar, bar) + (One(PostFlush, post) + r));
            QueueOk(q, e, cur) && AtLeast(q, e, 8 * e + 1) && Bounded(q, n)
  {
    var q3 := One(PostFlush, post) + r;
    var q2 := One(Bar, bar) + q3;
    AtLeastLess(r, e, 8 * e + 5, Key(PostFlush, e));
    OneInFront(PostFlush, post, r, e, cur, n);
    AtLeastLess(q3, e, Key(PostFlush, e), Key(Bar, e));
    OneInFront(Bar, bar, q3, e, cur, n);
    AtLeastLess(q2, e, Key(Bar, e), Key(PreFlush, e));
    OneInFront(PreFlush, pre, q2, e, cur, n);
  }

  lemma SequenceCounts(s: State, b: Req, w: Who)
    requires s.queue != [] && b.cls.Hard?
    ensures CountIn(Sequence(s, b), w) == CountIn(s.queue[1..], w)
              + (if w == PreFlush && s.mode.preflush then 1 else 0)
              + (if w == Bar && s.mode.bar && !b.cls.empty then 1 else 0)
              + (if w == PostFlush && s.mode.postflush && !b.cls.empty then 1 else 0)
  {
    var r := s.queue[1..];
    var bar, post := s.mode.bar && !b.cls.empty, s.mode.postflush && !b.cls.empty;
    OneCounts(PostFlush, post, r, w);
    OneCounts(Bar, bar, One(PostFlush, post) + r, w);
    OneCounts(PreFlush, s.mode.preflush, One(Bar, bar) + (One(PostFlush, post) + r), w);
  }

  lemma BegunRest(s: State, b: Req)
    requires Inv(s) && !s.ordseq.started && s.queue != [] && s.queue[0].who == Orig(b) && b.cls.Hard?
    ensures var s1 := Begun(s, b); Past(s1) && forall rq :: rq in s1.log ==> Somewhere(s1, rq)
  {
    var s1 := Begun(s, b);
    HeadBarrier(s);
    forall rq | rq in s1.log ensures Somewhere(s1, rq) {
      assert Somewhere(s, rq);
      SequenceCounts(s, b, Orig(rq));
    }
  }

  lemma {:induction false} IdleDriver(d: seq<Who>, epoch: nat)
    requires DriverOk(d, epoch, 0)
    ensures DriverOk(d, epoch, DRAIN) && CountAt(d, PreFlush) == 0 && CountAt(d, Bar) == 0 && CountAt(d, PostFlush) == 0
    ensures CountFs(d) == 0 ==> OnlySpecials(d)
  {
    if d != [] { IdleDriver(d[1..], epoch); }
  }

  lemma StartCore(s: State, b: Req)
    requires Inv(s) && !s.ordseq.started && s.queue != [] && s.queue[0].who == Orig(b) && b.cls.Hard?
    ensures Core(CompleteSeq(Begun(s, b), Skipped(s, b)))
  {
    HeadBarrier(s);
    SequenceQueue(s, b, DRAIN);
    IdleDriver(s.driver, s.epoch);
    if s.inFlight == 0 {
      StageDoneCore(Begun(s, b), Skipped(s, b), PreFlush);
    } else {
      DrainingCore(s, b);
    }
  }

  lemma DrainingCore(s: State, b: Req)
    requires Inv(s) && !s.ordseq.started && s.queue != [] && s.queue[0].who == Orig(b) && b.cls.Hard? && s.inFlight > 0
    ensures Core(CompleteSeq(Begun(s, b), Skipped(s, b)))
  {
    HeadBarrier(s);
    SequenceQueue(s, b, DRAIN);
    IdleDriver(s.driver, s.epoch);
    var s' := CompleteSeq(Begun(s, b), Skipped(s, b));
    assert CurSeq(s'.ordseq) == DRAIN;
    assert SequenceOk(s');
  }

  lemma StartKeepsInv(s: State)
    requires Inv(s) && !s.ordseq.started && s.queue != [] && s.queue[0].who.Orig? && s.queue[0].who.rq.cls.Hard?
    ensures Inv(Start(s))
  {
    var b := s.queue[0].who.rq;
    StartCore(s, b);
    BegunRest(s, b);
    HeadBarrier(s);
    SequenceQueue(s, b, DRAIN);
    StageDoneRest(Begun(s, b), Skipped(s, b));
  }

  // ---- The remaining steps -----------------------------------------------

  /** A sequence that has started past the drain has its next request in front. */
  lemma StageAtHead(s: State)
    requires Inv(s) && !s.ordseq.started && s.queue != [] && s.queue[0].who.Orig? && s.queue[0].who.rq.cls.Hard?
    ensures var s1 := Start(s);
            && (s1.ordseq.started && s1.ordseq.drain ==>
                  s1.queue != [] && !s1.queue[0].who.Orig? && CurSeq(s1.ordseq) == ReqSeq(s1.orig, s1.queue[0].who))
            && (!s1.ordseq.started ==> s1.queue == s.queue[1..])
  {
    var b := s.queue[0].who.rq;
    var r := s.queue[1..];
    var bar, post := s.mode.bar && !b.cls.empty, s.mode.postflush && !b.cls.empty;
    assert Start(s).queue == Sequence(s, b);
    if !s.mode.preflush {
      assert Sequence(s, b) == One(Bar, bar) + (One(PostFlush, post) + r);
      if !bar {
        assert Sequence(s, b) == One(PostFlush, post) + r;
        if !post { assert Sequence(s, b) == r; }
      }
    }
  }

  lemma {:induction false} NextKeepsInv(s: State)
    requires Inv(s)
    ensures Inv(Next(s))
    decreases |s.queue|
  {
    if s.queue != [] {
      var w := s.queue[0].who;
      if !s.ordseq.started {
        if w.Orig? && w.rq.cls.Hard? {
          StartKeepsInv(s);
          StageAtHead(s);
          var s1 := Start(s);
          if !s1.ordseq.started {
            NextKeepsInv(s1);
          } else if s1.queue != [] && s1.ordseq.drain {
            MarkHeadKeepsInv(s1);
          }
        } else {
          if IsFs(w) { FirstIsNear(s); }
          MarkHeadKeepsInv(s);
        }
      } else if IsSpecial(w) {
        MarkHeadKeepsInv(s);
      } else {
        if IsFs(w) { FirstReqSeq(s); }
        StageOfHead(s);
        if ReqSeq(s.orig, w) <= CurSeq(s.ordseq) {
          MarkHeadKeepsInv(s);
        }
      }
    }
  }

  /** A sequence request on the list belongs to a stage that is not over. */
  lemma StageOfHead(s: State)
    requires Core(s) && s.ordseq.started && s.queue != []
    ensures !s.queue[0].who.Orig? ==> CurSeq(s.ordseq) <= ReqSeq(s.orig, s.queue[0].who)
  {
    assert 0 < CountIn(s.queue, s.queue[0].who);
  }

  /** What may be passed stands behind the last barrier on the list. */
  lemma {:induction false} LooseIsNew(q: seq<Entry>, i: nat, epoch: nat, cur: nat, b: Req)
    requires QueueOk(q, epoch, cur) && i <= |q| && Loose(q[i..]) && b.cls.Hard? && 0 < CountIn(q, Orig(b))
    ensures AtLeast(q[i..], epoch, 8 * b.epoch + 5)
  {
    if i == 0 {
      assert q[0..] == q;
      LooseHasNoBarrier(q, epoch, cur, b);
    } else {
      assert q[i..] == q[1..][i - 1..];
      if q[0].who == Orig(b) {
        AtLeastSuffix(q[1..], epoch, 8 * b.epoch + 5, i - 1);
      } else {
        LooseIsNew(q[1..], i - 1, epoch, cur, b);
      }
    }
  }

  lemma LooseHasNoBarrier(q: seq<Entry>, epoch: nat, cur: nat, b: Req)
    requires QueueOk(q, epoch, cur) && Loose(q) && b.cls.Hard?
    ensures CountIn(q, Orig(b)) == 0
  {
  }

  lemma {:induction false} QueueSuffix(q: seq<Entry>, i: nat, epoch: nat, cur: nat)
    requires QueueOk(q, epoch, cur) && i <= |q|
    ensures QueueOk(q[i..], epoch, cur)
  {
    if i > 0 {
      QueueSuffix(q[1..], i - 1, epoch, cur);
      assert q[i..] == q[1..][i - 1..];
    }
  }

  /** Ordinary requests of epoch `n` or newer, when the list allows no older. */
  lemma LooseFrom(q: seq<Entry>, epoch: nat, cur: nat, n: nat)
    requires QueueOk(q, epoch, cur) && Loose(q)
    requires n == epoch || (n == epoch + 1 && 0 < cur) || (0 < n && AtLeast(q, epoch, 8 * (n - 1) + 5))
    ensures AtLeast(q, epoch, 8 * n)
  {
  }

  lemma {:induction false} BoundedAtMost(q: seq<Entry>, i: nat, epoch: nat, cur: nat, n: nat)
    requires Bounded(q, n) && QueueOk(q, epoch, cur) && i <= |q| && epoch <= n && (0 < cur ==> epoch < n)
    ensures AtMost(q[..i], epoch, 8 * n)
  {
    if i > 0 {
      BoundedAtMost(q[1..], i - 1, epoch, cur, n);
      assert q[..i][1..] == q[1..][..i - 1];
    }
  }

  lemma DispatchQueue(s: State, rq: Req, at: nat)
    requires Inv(s) && CanDispatch(s, rq, at)
    ensures QueueOk(Dispatch(s, rq, at).queue, s.epoch, CurSeq(s.ordseq))
  {
    var q, n, e, cur := s.queue, |s.bars|, s.epoch, CurSeq(s.ordseq);
    QueueSuffix(q, at, e, cur);
    if n != e && !(n == e + 1 && s.ordseq.started) {
      var b := s.bars[n - 1];
      assert Somewhere(s, b);
      LooseIsNew(q, at, e, cur, b);
    }
    LooseFrom(q[at..], e, cur, n);
    BoundedAtMost(q, at, e, cur, n);
    QueuePut(q, at, Entry(Orig(rq), false, false), e, cur);
  }

  lemma DispatchKeepsInv(s: State, rq: Req, at: nat)
    requires Inv(s) && CanDispatch(s, rq, at)
    ensures Inv(Dispatch(s, rq, at))
  {
    var s', entry := Dispatch(s, rq, at), Entry(Orig(rq), false, false);
    DispatchQueue(s, rq, at);
    assert Bounded([entry][1..], |s.bars|) && Bounded([entry], |s.bars|);
    CountPut(s.queue, at, entry, |s.bars|, PreFlush);
    CountPut(s.queue, at, entry, |s.bars|, Bar);
    CountPut(s.queue, at, entry, |s.bars|, PostFlush);
    forall x | x in s'.log ensures Somewhere(s', x) {
      assert Somewhere(s, x);
      CountPut(s.queue, at, entry, |s.bars|, Orig(x));
    }
  }

  lemma {:induction false} DispatchAllKeepsInv(s: State, moves: seq<(Req, nat)>)
    requires Inv(s)
    ensures Inv(DispatchAll(s, moves))
    decreases |moves|
  {
    if moves != [] && CanDispatch(s, moves[0].0, moves[0].1) {
      DispatchKeepsInv(s, moves[0].0, moves[0].1);
      DispatchAllKeepsInv(Dispatch(s, moves[0].0, moves[0].1), moves[1..]);
    }
  }

  lemma {:induction false} BoundedMore(q: seq<Entry>, n: nat)
    requires Bounded(q, n)
    ensures Bounded(q, n + 1)
  {
    if q != [] { BoundedMore(q[1..], n); }
  }

  lemma PutLast(q: seq<Entry>, e: Entry)
    ensures Put(q, |q|, e) == q + [e]
  {
    assert q[|q|..] == [] && q[..|q|] == q;
  }

  /** A new request that is put at position `i` of the list. */
  function Listed(s: State, cls: Cls, i: nat): State
    requires i <= |s.queue|
  {
    Enlist(s, cls).(queue := Put(s.queue, i, Entry(Orig(Newest(s, cls)), false, true)))
  }

  /** The colour is that of the current epoch. */
  predicate InColour(s: State) {
    s.color == (|s.bars| % 2 == 1)
  }

  lemma ListedKeepsInv(s: State, cls: Cls, i: nat)
    requires Inv(s) && i <= |s.queue| && !Turns(s, cls) && (cls.Special? || InColour(s))
    requires cls.Special? || (s.sorted == {} && i == |s.queue|)
    requires cls.Hard? ==> s.sorted == {}
    ensures Inv(Listed(s, cls, i))
  {
    var s', rq, n, e, cur := Listed(s, cls, i), Newest(s, cls), |s.bars|, s.epoch, CurSeq(s.ordseq);
    var entry := Entry(Orig(rq), false, true);
    var n' := |s'.bars|;
    assert s.queue[|s.queue|..] == [];
    BoundedAtMost(s.queue, i, e, cur, n);
    AtMostMore(s.queue[..i], e, 8 * n, Key(Orig(rq), e));
    QueuePut(s.queue, i, entry, e, cur);
    BoundedMore(s.queue, n);
    assert Bounded([entry][1..], n') && Bounded([entry], n');
    CountPut(s.queue, i, entry, n', PreFlush);
    CountPut(s.queue, i, entry, n', Bar);
    CountPut(s.queue, i, entry, n', PostFlush);
    forall x | x in s'.log ensures Somewhere(s', x) {
      CountPut(s.queue, i, entry, n', Orig(x));
      if x in s.log { assert Somewhere(s, x); }
    }
  }

  lemma AtMostMore(q: seq<Entry>, epoch: nat, k: nat, k': nat)
    requires AtMost(q, epoch, k) && k <= k'
    ensures AtMost(q, epoch, k')
  {
  }

  // ---- Before the first file system request ----------------------------------

  predicate SpecialEntries(q: seq<Entry>) {
    q == [] || (IsSpecial(q[0].who) && SpecialEntries(q[1..]))
  }

  /** Until a file system request is added there is none anywhere. */
  ghost predicate Fresh(s: State) {
    AllSpecial(Classes(s.log)) ==>
      SpecialEntries(s.queue) && OnlySpecials(s.driver) && s.sorted == {} && s.ordseq == IDLE
  }

  lemma {:induction false} SpecialsFitAnywhere(q: seq<Entry>, epoch: nat, cur: nat, epoch': nat)
    requires QueueOk(q, epoch, cur) && SpecialEntries(q)
    ensures QueueOk(q, epoch', cur)
  {
    if q != [] { SpecialsFitAnywhere(q[1..], epoch, cur, epoch'); }
  }

  lemma {:induction false} NoHardAmong(log: seq<Req>, rq: Req)
    requires AllSpecial(Classes(log)) && rq in log
    ensures rq.cls.Special?
  {
    var n := |log| - 1;
    assert Classes(log)[..n] == Classes(log[..n]);
    if rq != log[n] {
      assert log == log[..n] + [log[n]];
      NoHardAmong(log[..n], rq);
    }
  }

  /** A hard special request that begins an epoch, put at position `i`. */
  lemma TurnKeepsInv(s: State, cls: Cls, i: nat)
    requires Inv(s) && Fresh(s) && i <= |s.queue| && Turns(s, cls)
    ensures Inv(Listed(s, cls, i))
  {
    var s', rq, n, e := Listed(s, cls, i), Newest(s, cls), |s.bars|, s.epoch;
    var entry := Entry(Orig(rq), false, true);
    SpecialsFitAnywhere(s.queue, e, 0, e + 1);
    QueuePut(s.queue, i, entry, e + 1, 0);
    OnlySpecialsOk(s.driver, e + 1, 0);
    BoundedMore(s.queue, n);
    assert Bounded([entry][1..], n + 1) && Bounded([entry], n + 1);
    CountPut(s.queue, i, entry, n + 1, PreFlush);
    CountPut(s.queue, i, entry, n + 1, Bar);
    CountPut(s.queue, i, entry, n + 1, PostFlush);
    if e < n { NoHardAmong(s.log, s.bars[e]); }
    forall x | x in s'.log ensures Somewhere(s', x) {
      if x in s.log { NoHardAmong(s.log, x); }
    }
  }

  lemma {:induction false} DispatchAllKeepsFresh(s: State, moves: seq<(Req, nat)>)
    requires Fresh(s)
    ensures Fresh(DispatchAll(s, moves))
    ensures var s' := DispatchAll(s, moves); s'.log == s.log && s'.bars == s.bars && s'.color == s.color
    decreases |moves|
  {
    if moves != [] && CanDispatch(s, moves[0].0, moves[0].1) {
      DispatchAllKeepsFresh(Dispatch(s, moves[0].0, moves[0].1), moves[1..]);
    }
  }

  lemma {:induction false} SpecialsPut(q: seq<Entry>, i: nat, e: Entry)
    requires SpecialEntries(q) && IsSpecial(e.who) && i <= |q|
    ensures SpecialEntries(Put(q, i, e))
    decreases |q|
  {
    if i == 0 {
      PutFirst(q, e);
      assert ([e] + q)[1..] == q;
    } else {
      PutLater(q, i, e);
      SpecialsPut(q[1..], i - 1, e);
      assert Put(q, i, e)[1..] == Put(q[1..], i - 1, e);
    }
  }

  lemma {:induction false} SpecialsWithout(q: seq<Entry>, i: nat)
    requires SpecialEntries(q) && i < |q|
    ensures SpecialEntries(Without(q, i)) && IsSpecial(q[i].who)
    decreases |q|
  {
    if i == 0 {
      WithoutFirst(q);
    } else {
      SplitAt(q, i);
      SpecialsWithout(q[1..], i - 1);
      assert Without(q, i)[1..] == Without(q[1..], i - 1);
    }
  }

  lemma {:induction false} DriverSpecials(d: seq<Who>, i: nat)
    requires OnlySpecials(d) && i < |d|
    ensures OnlySpecials(Without(d, i)) && IsSpecial(d[i])
    decreases |d|
  {
    if i == 0 {
      WithoutFirst(d);
    } else {
      SplitAt(d, i);
      DriverSpecials(d[1..], i - 1);
      assert Without(d, i)[1..] == Without(d[1..], i - 1);
    }
  }

  lemma {:induction false} SpecialsAppend(d: seq<Who>, w: Who)
    requires OnlySpecials(d) && IsSpecial(w)
    ensures OnlySpecials(d + [w])
  {
    if d == [] {
      assert d + [w] == [w] && [w][1..] == [];
    } else {
      assert (d + [w])[1..] == d[1..] + [w];
      SpecialsAppend(d[1..], w);
    }
  }

  lemma {:induction false} EnlistFresh(s: State, cls: Cls)
    requires AllSpecial(Classes(Enlist(s, cls).log))
    ensures cls.Special? && AllSpecial(Classes(s.log))
  {
    var l := Enlist(s, cls).log;
    assert l[..|l| - 1] == s.log;
    assert Classes(l)[..|l| - 1] == Classes(s.log);
  }

  lemma AddKeepsFresh(s: State, cls: Cls, where: Where)
    requires Fresh(s) && CanAdd(s, cls, where)
    ensures Fresh(Add(s, cls, where))
  {
    var s1 := if where.Back? then DispatchAll(s, where.moves) else s;
    if where.Back? { DispatchAllKeepsFresh(s, where.moves); }
    if AllSpecial(Classes(Enlist(s1, cls).log)) {
      EnlistFresh(s1, cls);
      var e := Entry(Orig(Newest(s1, cls)), false, true);
      PutFirst(s1.queue, e);
      PutLast(s1.queue, e);
      SpecialsPut(s1.queue, 0, e);
      SpecialsPut(s1.queue, |s1.queue|, e);
    }
  }

  lemma {:induction false} NextKeepsFresh(s: State)
    requires Fresh(s)
    ensures Fresh(Next(s)) && Next(s).log == s.log
    decreases |s.queue|
  {
    if s.queue != [] {
      if !s.ordseq.started && s.queue[0].who.Orig? && s.queue[0].who.rq.cls.Hard? {
        var s1 := Start(s);
        if !s1.ordseq.started && |s1.queue| < |s.queue| { NextKeepsFresh(s1); }
      } else {
        assert ([s.queue[0].(started := true)] + s.queue[1..])[1..] == s.queue[1..];
      }
    }
  }

  lemma DequeueKeepsFresh(s: State, i: nat)
    requires Fresh(s) && i < |s.queue|
    ensures Fresh(Dequeue(s, i))
  {
    if AllSpecial(Classes(s.log)) {
      SpecialsWithout(s.queue, i);
      SpecialsAppend(s.driver, s.queue[i].who);
    }
  }

  lemma CompleteKeepsFresh(s: State, i: nat)
    requires Fresh(s) && i < |s.driver|
    ensures Fresh(Complete(s, i))
  {
    if AllSpecial(Classes(s.log)) { DriverSpecials(s.driver, i); }
  }

  lemma RequeueKeepsFresh(s: State, i: nat)
    requires Fresh(s) && i < |s.driver|
    ensures Fresh(Requeue(s, i))
  {
    if AllSpecial(Classes(s.log)) {
      DriverSpecials(s.driver, i);
      SpecialsPut(s.queue, 0, Entry(s.driver[i], false, true));
    }
  }

  lemma StepKeepsFresh(s: State, ev: Event)
    requires Fresh(s)
    ensures Fresh(Step(s, ev))
  {
    match ev
    case EvAdd(cls, where) => if CanAdd(s, cls, where) { AddKeepsFresh(s, cls, where); }
    case EvDispatch(rq, at) =>
    case EvNext => NextKeepsFresh(s);
    case EvDequeue(i) => if i < |s.queue| && s.queue[i].started { DequeueKeepsFresh(s, i); }
    case EvComplete(i) => if i < |s.driver| { CompleteKeepsFresh(s, i); }
    case EvRequeue(i) => if i < |s.driver| { RequeueKeepsFresh(s, i); }
  }

  // ---- Adding ---------------------------------------------------------------------

  lemma AddKeepsInv(s: State, cls: Cls, where: Where)
    requires Inv(s) && Fresh(s) && CanAdd(s, cls, where) && (cls.Special? || InColour(s))
    ensures Inv(Add(s, cls, where))
  {
    match where
    case Sort =>
      var s' := Add(s, cls, where);
      forall x | x in s'.log ensures Somewhere(s', x) {
        if x in s.log { assert Somewhere(s, x); }
      }
    case Front =>
      PutFirst(s.queue, Entry(Orig(Newest(s, cls)), false, true));
      PlacedKeepsInv(s, cls, 0);
    case Back(moves) =>
      var s1 := DispatchAll(s, moves);
      DispatchAllKeepsInv(s, moves);
      DispatchAllKeepsFresh(s, moves);
      PutLast(s1.queue, Entry(Orig(Newest(s1, cls)), false, true));
      PlacedKeepsInv(s1, cls, |s1.queue|);
  }

  lemma PlacedKeepsInv(s: State, cls: Cls, i: nat)
    requires Inv(s) && Fresh(s) && i <= |s.queue| && (cls.Special? || InColour(s))
    requires cls.Special? || (s.sorted == {} && i == |s.queue|)
    ensures Inv(Listed(s, cls, i))
  {
    if Turns(s, cls) {
      TurnKeepsInv(s, cls, i);
    } else {
      ListedKeepsInv(s, cls, i);
    }
  }

  /** A file system request comes while the colour is that of the epoch. */
  predicate InTurn(s: State, ev: Event) {
    ev.EvAdd? && !ev.cls.Special? ==> InColour(s)
  }

  lemma StepKeepsInv(s: State, ev: Event)
    requires Inv(s) && Fresh(s) && InTurn(s, ev)
    ensures Inv(Step(s, ev))
  {
    match ev
    case EvAdd(cls, where) => if CanAdd(s, cls, where) { AddKeepsInv(s, cls, where); }
    case EvDispatch(rq, at) => if CanDispatch(s, rq, at) { DispatchKeepsInv(s, rq, at); }
    case EvNext => NextKeepsInv(s);
    case EvDequeue(i) => if i < |s.queue| && s.queue[i].started { DequeueKeepsInv(s, i); }
    case EvComplete(i) => if i < |s.driver| { CompleteKeepsInv(s, i); }
    case EvRequeue(i) => if i < |s.driver| { RequeueKeepsInv(s, i); }
  }
}
