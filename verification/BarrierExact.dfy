/**
 The barrier promise holds exactly when hard special requests come in pairs or no
 barrier is added at all: for every other order of arrival there is a run that
 breaks it.
 */
module BarrierExact {
  import opened Barrier
  import opened BarrierOrder
  import opened BarrierPromise

  /** What barriers promise of a state. */
  ghost predicate Promised(s: State) {
    NoneOvertakes(s) && NoneLeftBehind(s) && SequenceWaits(s) && !s.bug
  }

  /** Requests that arrive in this order are safe on every queue, however they are
      dispatched, requeued and completed meanwhile. */
  ghost predicate Safe(cs: seq<Cls>) {
    forall mode, evs :: Classes(Run(Init(mode), evs).log) <= cs ==> Promised(Run(Init(mode), evs))
  }

  // ---- Even orders are safe ----------------------------------------------

  lemma {:induction false} EvenPrefix(a: seq<Cls>, b: seq<Cls>)
    requires a <= b && Even(b)
    ensures Even(a)
    decreases |b|
  {
    if |a| < |b| {
      EvenPrefix(a, b[..|b| - 1]);
    } else {
      assert a == b;
    }
  }

  lemma EvenIsSafe(cs: seq<Cls>)
    requires Even(cs)
    ensures Safe(cs)
  {
    forall mode, evs | Classes(Run(Init(mode), evs).log) <= cs ensures Promised(Run(Init(mode), evs)) {
      EvenPrefix(Classes(Run(Init(mode), evs).log), cs);
      NothingPassesABarrier(mode, evs);
      BarriersComeLast(mode, evs);
      SequencesWait(mode, evs);
      NoAssertionFails(mode, evs);
    }
  }

  // ---- Building runs -----------------------------------------------------

  /** A device with a write cache that orders by draining and can force a single
      write through: QUEUE_ORDERED_DRAIN_FUA. */
  const FUA := Mode(true, true, false)

  lemma {:induction false} RunAppend(s: State, a: seq<Event>, b: seq<Event>)
    ensures Run(s, a + b) == Run(Run(s, a), b)
    decreases |a|
  {
    if a == [] {
      assert a + b == b;
    } else {
      assert (a + b)[1..] == a[1..] + b;
      RunAppend(Step(s, a[0]), a[1..], b);
    }
  }

  lemma {:induction false} RunOne(s: State, ev: Event)
    ensures Run(s, [ev]) == Step(s, ev)
  {
    assert [ev][1..] == [];
    assert Run(Step(s, ev), []) == Step(s, ev);
  }

  lemma {:induction false} RunThree(s: State, a: Event, b: Event, c: Event)
    ensures Run(s, [a, b, c]) == Step(Step(Step(s, a), b), c)
  {
    assert [a, b, c] == [a] + ([b] + [c]);
    RunAppend(s, [a], [b] + [c]);
    RunAppend(Run(s, [a]), [b], [c]);
    RunOne(s, a);
    RunOne(Step(s, a), b);
    RunOne(Step(Step(s, a), b), c);
  }

  /** Nothing waits, and no drain is under way. */
  ghost predicate Calm(s: State) {
    && s.mode == FUA && s.queue == [] && s.sorted == {} && s.inFlight == CountFs(s.driver)
    && (if s.ordseq.started then CurSeq(s.ordseq) != DRAIN else s.ordseq == IDLE)
    && (forall rq :: rq in s.done ==> rq.id < |s.log|)
  }

  /** From one state to a later one, as far as the older requests go. */
  ghost predicate Later(s: State, s': State) {
    && Calm(s') && s'.ordseq == s.ordseq && s'.orig == s.orig && s'.driver == s.driver && s.log <= s'.log
    && (forall rq: Req :: rq.id < |s.log| ==> (rq in s'.done <==> rq in s.done))
  }

  lemma {:induction false} CountFsAppend(d: seq<Who>, w: Who)
    ensures CountFs(d + [w]) == CountFs(d) + CountFs([w])
  {
    if d == [] {
      assert d + [w] == [w];
    } else {
      assert (d + [w])[1..] == d[1..] + [w];
      CountFsAppend(d[1..], w);
    }
  }

  /** A request that need not wait is added and goes to the driver. */
  function TakeEvs(cls: Cls): seq<Event> {
    [EvAdd(cls, Back([])), EvNext, EvDequeue(0)]
  }

  lemma {:induction false} Take(s: State, cls: Cls)
    requires Calm(s) && (cls.Special? || (cls.Fs? && !s.ordseq.started))
    ensures var s', rq := Run(s, TakeEvs(cls)), Newest(s, cls);
            && Calm(s') && s'.driver == s.driver + [Orig(rq)] && s'.log == s.log + [rq] && s'.done == s.done
            && s'.color == Enlist(s, cls).color && s'.ordseq == s.ordseq && s'.orig == s.orig
  {
    var rq := Newest(s, cls);
    var s1 := Step(s, EvAdd(cls, Back([])));
    assert DispatchAll(s, []) == s;
    assert s1.queue == [Entry(Orig(rq), false, true)];
    var s2 := Step(s1, EvNext);
    assert s2 == MarkHead(s1);
    assert s2.queue == [Entry(Orig(rq), true, true)];
    var s3 := Step(s2, EvDequeue(0));
    WithoutFirst(s2.queue);
    CountFsAppend(s.driver, Orig(rq));
    assert s3.queue == [] && [Orig(rq)][1..] == [];
    RunThree(s, EvAdd(cls, Back([])), EvNext, EvDequeue(0));
  }

  /** The newest request at the driver completes. */
  lemma {:induction false} Finish(s: State, d: seq<Who>, rq: Req)
    requires Calm(s) && s.driver == d + [Orig(rq)] && rq.id < |s.log|
    ensures var s' := Step(s, EvComplete(|d|)); s' == s.(driver := d, inFlight := CountFs(d), done := s.done + {rq})
  {
    assert Without(s.driver, |d|) == d;
    CountFsAppend(d, Orig(rq));
    assert [Orig(rq)][1..] == [];
  }

  function PassEvs(s: State, cls: Cls): seq<Event> {
    TakeEvs(cls) + [EvComplete(|s.driver|)]
  }

  /** A request passes through while what the driver holds stays there. */
  lemma {:induction false} Pass(s: State, cls: Cls)
    requires Calm(s) && (cls.Special? || (cls.Fs? && !s.ordseq.started))
    ensures var s' := Run(s, PassEvs(s, cls));
            && Later(s, s') && Classes(s'.log) == Classes(s.log) + [cls] && s'.color == Enlist(s, cls).color
  {
    var s1 := Run(s, TakeEvs(cls));
    Take(s, cls);
    EnlistClasses(s, cls);
    Finish(s1, s.driver, Newest(s, cls));
    RunAppend(s, TakeEvs(cls), [EvComplete(|s.driver|)]);
    RunOne(s1, EvComplete(|s.driver|));
  }

  predicate NoneHard(cs: seq<Cls>) {
    forall i :: 0 <= i < |cs| ==> !cs[i].Hard?
  }

  lemma {:induction false} PassAll(s: State, cs: seq<Cls>) returns (evs: seq<Event>)
    requires Calm(s) && NoneHard(cs) && !s.ordseq.started
    ensures Later(s, Run(s, evs)) && Classes(Run(s, evs).log) == Classes(s.log) + cs
  {
    if cs == [] {
      evs := [];
    } else {
      var before := PassAll(s, cs[..|cs| - 1]);
      var s1, cls := Run(s, before), cs[|cs| - 1];
      Pass(s1, cls);
      evs := before + PassEvs(s1, cls);
      RunAppend(s, before, PassEvs(s1, cls));
      assert cs == cs[..|cs| - 1] + [cls];
    }
  }

  // ---- A barrier passes, or is held in its last stage --------------------

  /** The driver is shown the first stage of a barrier. */
  lemma {:induction false} ShowBarrier(s: State, b: Req)
    requires s.queue == [Entry(Orig(b), false, true)] && b.cls.Hard? && s.mode == FUA && s.ordseq == IDLE && s.inFlight == 0
    ensures Next(s) == s.(queue := [Entry(PreFlush, true, true)] + One(Bar, !b.cls.empty), orig := b,
                          ordseq := OrdSeq(true, true, false, b.cls.empty, true))
  {
    assert s.queue[1..] == [];
    assert Sequence(s, b) == [Entry(PreFlush, false, true)] + One(Bar, !b.cls.empty);
    var s1 := Start(s);
    assert s1.queue[1..] == One(Bar, !b.cls.empty);
    assert Next(s) == MarkHead(s1);
  }

  lemma {:induction false} HoldFirst(s: State, cls: Cls)
    requires Calm(s) && !s.ordseq.started && s.driver == [] && cls.Hard?
    ensures var rq := Newest(s, cls);
            Run(s, TakeEvs(cls)) == Enlist(s, cls).(queue := One(Bar, !cls.empty), driver := [PreFlush], orig := rq,
                                                    ordseq := OrdSeq(true, true, false, cls.empty, true))
  {
    var rq := Newest(s, cls);
    var s1 := Step(s, EvAdd(cls, Back([])));
    assert DispatchAll(s, []) == s;
    assert s1.queue == [Entry(Orig(rq), false, true)];
    ShowBarrier(s1, rq);
    var s2 := Step(s1, EvNext);
    WithoutFirst(s2.queue);
    assert s2.queue[1..] == One(Bar, !cls.empty);
    RunThree(s, EvAdd(cls, Back([])), EvNext, EvDequeue(0));
  }

  const NEXT_STAGE := [EvComplete(0), EvNext, EvDequeue(0)]

  lemma {:induction false} HoldSecond(s: State)
    requires s.queue == [Entry(Bar, false, true)] && s.driver == [PreFlush] && s.inFlight == 0
    requires s.ordseq == OrdSeq(true, true, false, false, true)
    ensures Run(s, NEXT_STAGE) == s.(queue := [], driver := [Bar], inFlight := 1, ordseq := OrdSeq(true, true, true, false, true))
  {
    var s1 := Step(s, EvComplete(0));
    assert Without(s.driver, 0) == [];
    assert s1 == s.(driver := [], ordseq := OrdSeq(true, true, true, false, true));
    var s2 := Step(s1, EvNext);
    assert s2.queue == [Entry(Bar, true, true)];
    assert Without(s2.queue, 0) == [];
    RunThree(s, EvComplete(0), EvNext, EvDequeue(0));
  }

  function HoldEvs(cls: Cls): seq<Event>
    requires cls.Hard?
  {
    if cls.empty then TakeEvs(cls) else TakeEvs(cls) + NEXT_STAGE
  }

  /** The driver holds the last request of a sequence. */
  ghost predicate LastStage(s: State) {
    && Calm(s) && s.ordseq.started && |s.driver| == 1
    && s.driver[0] == (if s.ordseq.preflush then Bar else PreFlush)
    && s.ordseq == OrdSeq(true, true, s.driver[0] == Bar, s.driver[0] == PreFlush, true)
  }

  lemma {:induction false} HoldBarrier(s: State, cls: Cls)
    requires Calm(s) && !s.ordseq.started && s.driver == [] && cls.Hard?
    ensures var s', rq := Run(s, HoldEvs(cls)), Newest(s, cls);
            LastStage(s') && s'.orig == rq && s'.log == s.log + [rq] && s'.done == s.done && s'.color == !s.color
  {
    HoldFirst(s, cls);
    assert [PreFlush][1..] == [] && [Bar][1..] == [];
    if !cls.empty {
      HoldSecond(Run(s, TakeEvs(cls)));
      RunAppend(s, TakeEvs(cls), NEXT_STAGE);
    }
  }

  lemma {:induction false} PassBarrier(s: State, cls: Cls)
    requires Calm(s) && !s.ordseq.started && s.driver == [] && cls.Hard?
    ensures var s' := Run(s, HoldEvs(cls) + [EvComplete(0)]);
            Calm(s') && !s'.ordseq.started && s'.driver == [] && Classes(s'.log) == Classes(s.log) + [cls]
  {
    var s1 := Run(s, HoldEvs(cls));
    HoldBarrier(s, cls);
    EnlistClasses(s, cls);
    LastStageEnds(s1);
    RunAppend(s, HoldEvs(cls), [EvComplete(0)]);
    RunOne(s1, EvComplete(0));
  }

  lemma {:induction false} LastStageEnds(s: State)
    requires LastStage(s)
    ensures Step(s, EvComplete(0)) == s.(driver := [], inFlight := 0, ordseq := IDLE, done := s.done + {s.orig}, epoch := s.epoch + 1)
  {
    assert Without(s.driver, 0) == [] && s.driver[1..] == [];
    assert CountFs(s.driver) == if s.driver[0] == Bar then 1 else 0;
    var s1 := s.(driver := [], inFlight := 0);
    assert CheckDrain(s1) == s1;
    assert Complete(s, 0) == CompleteSeq(s1, StageBit(s.driver[0]));
  }

  /** Any order of arrival can come to rest. */
  lemma {:induction false} Quiet(cs: seq<Cls>) returns (evs: seq<Event>)
    ensures var s := Run(Init(FUA), evs);
            Calm(s) && !s.ordseq.started && s.driver == [] && Classes(s.log) == cs
  {
    if cs == [] {
      evs := [];
    } else {
      var before := Quiet(cs[..|cs| - 1]);
      var s, cls := Run(Init(FUA), before), cs[|cs| - 1];
      assert cs == cs[..|cs| - 1] + [cls];
      var more := if cls.Hard? then HoldEvs(cls) + [EvComplete(0)] else PassEvs(s, cls);
      if cls.Hard? { PassBarrier(s, cls); } else { Pass(s, cls); }
      evs := before + more;
      RunAppend(Init(FUA), before, more);
    }
  }

  // ---- A file system request is held while special requests pass ---------

  /** The last file system request is still at the driver, itself or as the last
      stage of its sequence, and the colour tells the hard special requests since. */
  ghost predicate Holds(s: State, cs: seq<Cls>, rq: Req) {
    && Calm(s) && Classes(s.log) == cs && rq in s.log && rq.id < |s.log| && rq !in s.done
    && match rq.cls
       case Fs => !s.ordseq.started && s.driver == [Orig(rq)] && s.color == (rq.color != Odd(cs))
       case Hard(_) => LastStage(s) && s.orig == rq && s.color == (rq.color == Odd(cs))
       case Special(_) => false
  }

  lemma {:induction false} HasFs(cs: seq<Cls>, f: nat)
    requires f < |cs| && !cs[f].Special?
    ensures !AllSpecial(cs)
  {
    if f < |cs| - 1 { HasFs(cs[..|cs| - 1], f); }
  }

  /** Request `f` of `cs` is held, and the special requests after it pass. */
  lemma {:induction false} Hold(cs: seq<Cls>, f: nat) returns (evs: seq<Event>, rq: Req)
    requires f < |cs| && !cs[f].Special? && forall j :: f < j < |cs| ==> cs[j].Special?
    ensures Holds(Run(Init(FUA), evs), cs, rq) && rq.cls == cs[f]
    decreases |cs|
  {
    var before, cls := cs[..|cs| - 1], cs[|cs| - 1];
    assert cs == before + [cls];
    if f == |cs| - 1 {
      var quiet := Quiet(before);
      var s := Run(Init(FUA), quiet);
      var more := if cls.Fs? then TakeEvs(cls) else HoldEvs(cls);
      evs, rq := quiet + more, Newest(s, cls);
      RunAppend(Init(FUA), quiet, more);
      HoldFrom(s, cls);
    } else {
      var first;
      first, rq := Hold(before, f);
      var s := Run(Init(FUA), first);
      evs := first + PassEvs(s, cls);
      RunAppend(Init(FUA), first, PassEvs(s, cls));
      HasFs(before, f);
      HoldOn(s, before, rq, cls);
    }
  }

  lemma {:induction false} HoldFrom(s: State, cls: Cls)
    requires Calm(s) && !s.ordseq.started && s.driver == [] && !cls.Special?
    ensures Holds(Run(s, if cls.Fs? then TakeEvs(cls) else HoldEvs(cls)), Classes(s.log) + [cls], Newest(s, cls))
  {
    EnlistClasses(s, cls);
    if cls.Fs? { Take(s, cls); } else { HoldBarrier(s, cls); }
  }

  lemma {:induction false} HoldOn(s: State, cs: seq<Cls>, rq: Req, cls: Cls)
    requires Holds(s, cs, rq) && cls.Special? && !AllSpecial(cs)
    ensures Holds(Run(s, PassEvs(s, cls)), cs + [cls], rq)
  {
    Pass(s, cls);
    assert (cs + [cls])[..|cs|] == cs;
  }

  // ---- Breaking the promise ----------------------------------------------

  /** A file system request is let through while the sequence of an earlier barrier
      still runs: the colours agree. */
  lemma {:induction false} Overtakes(s: State, cs: seq<Cls>, b: Req, cls: Cls)
    requires Holds(s, cs, b) && b.cls.Hard? && Odd(cs) && !cls.Special?
    ensures var s' := Run(s, [EvAdd(cls, Back([])), EvNext]);
            !NoneOvertakes(s') && Classes(s'.log) == cs + [cls]
  {
    var s1 := Step(s, EvAdd(cls, Back([])));
    var rq := Newest(s, cls);
    assert DispatchAll(s, []) == s;
    assert s1.queue == [Entry(Orig(rq), false, true)];
    EnlistClasses(s, cls);
    var s' := Step(s1, EvNext);
    assert [EvAdd(cls, Back([])), EvNext] == [EvAdd(cls, Back([]))] + [EvNext];
    RunAppend(s, [EvAdd(cls, Back([]))], [EvNext]);
    RunOne(s, EvAdd(cls, Back([])));
    RunOne(s1, EvNext);
    assert rq in s'.issued && rq in s'.log && b in s'.log && b !in s'.done && b.id < rq.id;
  }

  /** Two requests are at the driver when a barrier begins.  The one that is not of
      the barrier's colour is requeued behind the sequence and forgotten. */
  function LoseEvs(cls: Cls, i: nat): seq<Event> {
    [EvAdd(cls, Back([])), EvNext, EvRequeue(i)] + [EvComplete(0), EvNext]
  }

  lemma {:induction false} Draining(s: State, b: Req)
    requires s.queue == [Entry(Orig(b), false, true)] && b.cls.Hard? && s.mode == FUA && s.ordseq == IDLE && s.inFlight > 0
    ensures Next(s) == s.(queue := [Entry(PreFlush, false, true)] + One(Bar, !b.cls.empty), orig := b,
                          ordseq := OrdSeq(true, false, false, b.cls.empty, true))
  {
    assert s.queue[1..] == [];
    assert Sequence(s, b) == [Entry(PreFlush, false, true)] + One(Bar, !b.cls.empty);
    assert Next(s) == Start(s);
  }

  lemma {:induction false} WalksToEnd(orig: Req, empty: bool)
    ensures var q := [Entry(PreFlush, false, true)] + One(Bar, !empty); RequeuePos(orig, q, DONE) == |q|
  {
    var q := [Entry(PreFlush, false, true)] + One(Bar, !empty);
    assert q[1..] == One(Bar, !empty);
    assert RequeuePos(orig, One(Bar, !empty), DONE) == |One(Bar, !empty)| by {
      if !empty { assert One(Bar, !empty)[1..] == []; }
    }
  }

  /** The state after the requeue. */
  ghost predicate Misplaced(s: State, w: Who, rest: Who) {
    && s.driver == [rest] && rest.Orig? && s.inFlight == CountFs([rest])
    && s.queue != [] && s.queue[0] == Entry(PreFlush, false, true) && s.orig in s.log
    && s.ordseq.started && !s.ordseq.drain && !s.ordseq.preflush
    && w.Orig? && w.rq in s.log && !w.rq.cls.Special? && w.rq.id < s.orig.id && w.rq !in s.done && w != rest
  }

  lemma {:induction false} Misplaces(s: State, cls: Cls, i: nat)
    requires Calm(s) && !s.ordseq.started && |s.driver| == 2 && i < 2 && cls.Hard? && s.driver[0] != s.driver[1]
    requires s.driver[0].Orig? && s.driver[1].Orig?
    requires var rq := s.driver[i].rq; rq.cls.Fs? && rq in s.log && rq.id < |s.log| && rq !in s.done && rq.color != s.color
    ensures var s' := Run(s, [EvAdd(cls, Back([])), EvNext, EvRequeue(i)]);
            Misplaced(s', s.driver[i], s.driver[1 - i]) && Classes(s'.log) == Classes(s.log) + [cls]
  {
    var b, w, rest := Newest(s, cls), s.driver[i], s.driver[1 - i];
    var s1 := Step(s, EvAdd(cls, Back([])));
    assert DispatchAll(s, []) == s;
    assert s1.queue == [Entry(Orig(b), false, true)];
    EnlistClasses(s, cls);
    TwoInFlight(s.driver, i);
    Draining(s1, b);
    var s2 := Step(s1, EvNext);
    WalksToEnd(b, cls.empty);
    assert ReqSeq(b, w) == DONE;
    var s3 := Step(s2, EvRequeue(i));
    assert s3.queue[0] == s2.queue[0];
    RunThree(s, EvAdd(cls, Back([])), EvNext, EvRequeue(i));
  }

  lemma {:induction false} TwoInFlight(d: seq<Who>, i: nat)
    requires |d| == 2 && i < 2
    ensures CountFs(d) == CountFs([d[i]]) + CountFs([d[1 - i]]) && Without(d, i) == [d[1 - i]]
    ensures CountFs([d[i]]) == if Accounted(d[i]) then 1 else 0
  {
    assert d == [d[0]] + [d[1]] && d == [d[0], d[1]];
    CountFsAppend([d[0]], d[1]);
    assert [d[i]][1..] == [];
  }

  /** The drain ends without the request, and the sequence goes on. */
  lemma {:induction false} Forgets(s: State, w: Who, rest: Who)
    requires Misplaced(s, w, rest)
    ensures var s' := Run(s, [EvComplete(0), EvNext]); !SequenceWaits(s') && s'.log == s.log
  {
    assert Without(s.driver, 0) == [] && [rest][1..] == [];
    assert CountFs([rest]) == if Accounted(rest) then 1 else 0;
    var s0 := s.(driver := [], inFlight := 0, done := s.done + {rest.rq});
    var s1 := Step(s, EvComplete(0));
    assert Complete(s, 0) == CheckDrain(s0);
    assert s1 == s.(driver := [], inFlight := 0, done := s.done + {rest.rq}, ordseq := s.ordseq.(drain := true));
    var s2 := Step(s1, EvNext);
    assert s2 == MarkHead(s1) && StartedIn(s2.queue, PreFlush);
    assert Reached(s2, PreFlush) && !PreFlush.Orig? && w.rq !in s2.done;
    assert [EvComplete(0), EvNext] == [EvComplete(0)] + [EvNext];
    RunAppend(s, [EvComplete(0)], [EvNext]);
    RunOne(s, EvComplete(0));
    RunOne(s1, EvNext);
  }

  lemma {:induction false} Loses(s: State, cls: Cls, i: nat)
    requires Calm(s) && !s.ordseq.started && |s.driver| == 2 && i < 2 && cls.Hard? && s.driver[0] != s.driver[1]
    requires s.driver[0].Orig? && s.driver[1].Orig?
    requires var rq := s.driver[i].rq; rq.cls.Fs? && rq in s.log && rq.id < |s.log| && rq !in s.done && rq.color != s.color
    ensures var s' := Run(s, LoseEvs(cls, i)); !SequenceWaits(s') && Classes(s'.log) == Classes(s.log) + [cls]
  {
    var evs := [EvAdd(cls, Back([])), EvNext, EvRequeue(i)];
    Misplaces(s, cls, i);
    Forgets(Run(s, evs), s.driver[i], s.driver[1 - i]);
    RunAppend(s, evs, [EvComplete(0), EvNext]);
  }

  // ---- Every other order of arrival --------------------------------------

  lemma {:induction false} OddAt(cs: seq<Cls>) returns (k: nat)
    requires !Even(cs)
    ensures k < |cs| && !cs[k].Special? && Odd(cs[..k]) && Even(cs[..k])
  {
    var before := cs[..|cs| - 1];
    if Even(before) {
      k := |cs| - 1;
    } else {
      k := OddAt(before);
      assert before[..k] == cs[..k];
    }
  }

  lemma {:induction false} LastFs(cs: seq<Cls>) returns (f: nat)
    requires Odd(cs)
    ensures f < |cs| - 1 && !cs[f].Special? && forall j :: f < j < |cs| ==> cs[j].Special?
  {
    var before := cs[..|cs| - 1];
    if AllSpecial(before) { NoneOdd(before); }
    f := FindFs(before);
  }

  lemma {:induction false} FindFs(cs: seq<Cls>) returns (f: nat)
    requires !AllSpecial(cs)
    ensures f < |cs| && !cs[f].Special? && forall j :: f < j < |cs| ==> cs[j].Special?
  {
    f := |cs| - 1;
    if cs[f].Special? {
      f := FindFs(cs[..|cs| - 1]);
    }
  }

  lemma {:induction false} NextHard(cs: seq<Cls>) returns (b: nat)
    requires cs != [] && cs[|cs| - 1].Hard?
    ensures b < |cs| && cs[b].Hard? && NoneHard(cs[..b])
  {
    if cs[0].Hard? {
      b := 0;
    } else {
      var c := NextHard(cs[1..]);
      b := c + 1;
      forall i | 0 <= i < b ensures !cs[..b][i].Hard? {
        if 0 < i { assert cs[i] == cs[1..][..c][i - 1]; }
      }
    }
  }

  /** A barrier with a request before it that is held, an odd number of hard special
      requests coming between the two. */
  lemma {:induction false} BreaksAtBarrier(cs: seq<Cls>, f: nat, cls: Cls) returns (evs: seq<Event>)
    requires Odd(cs) && f < |cs| - 1 && cs[f].Fs? && (forall j :: f < j < |cs| ==> cs[j].Special?) && cls.Hard?
    ensures var s := Run(Init(FUA), evs); !SequenceWaits(s) && Classes(s.log) == cs + [cls]
  {
    var before, x := cs[..|cs| - 1], cs[|cs| - 1];
    assert cs == before + [x];
    var first, rq := Hold(before, f);
    var s := Run(Init(FUA), first);
    HasFs(before, f);
    Take(s, x);
    EnlistClasses(s, x);
    var s1 := Run(s, TakeEvs(x));
    assert s1.driver == [Orig(rq), Orig(Newest(s, x))];
    Loses(s1, cls, 0);
    evs := first + (TakeEvs(x) + LoseEvs(cls, 0));
    RunAppend(Init(FUA), first, TakeEvs(x) + LoseEvs(cls, 0));
    RunAppend(s, TakeEvs(x), LoseEvs(cls, 0));
  }

  /** Two requests of different colours are held until the next barrier. */
  lemma {:induction false} BreaksLater(cs: seq<Cls>, f: nat, more: seq<Cls>, cls: Cls) returns (evs: seq<Event>)
    requires Odd(cs) && f < |cs| - 1 && cs[f].Fs? && (forall j :: f < j < |cs| ==> cs[j].Special?)
    requires NoneHard(more) && cls.Hard?
    ensures var s := Run(Init(FUA), evs); !SequenceWaits(s) && Classes(s.log) == cs + [Fs] + more + [cls]
  {
    var first, rq := Hold(cs, f);
    var s := Run(Init(FUA), first);
    Take(s, Fs);
    EnlistClasses(s, Fs);
    var s1, rq' := Run(s, TakeEvs(Fs)), Newest(s, Fs);
    assert s1.driver == [Orig(rq), Orig(rq')] && rq' == s1.log[|s.log|] && rq'.id == |s.log|;
    var pass := PassAll(s1, more);
    var s2 := Run(s1, pass);
    var i := if rq.color != s2.color then 0 else 1;
    assert s2.log[|s.log|] == rq';
    Loses(s2, cls, i);
    evs := first + (TakeEvs(Fs) + (pass + LoseEvs(cls, i)));
    RunAppend(Init(FUA), first, TakeEvs(Fs) + (pass + LoseEvs(cls, i)));
    RunAppend(s, TakeEvs(Fs), pass + LoseEvs(cls, i));
    RunAppend(s1, pass, LoseEvs(cls, i));
  }

  lemma {:induction false} BreaksDuring(cs: seq<Cls>, f: nat, cls: Cls) returns (evs: seq<Event>)
    requires Odd(cs) && f < |cs| - 1 && cs[f].Hard? && (forall j :: f < j < |cs| ==> cs[j].Special?) && !cls.Special?
    ensures var s := Run(Init(FUA), evs); !NoneOvertakes(s) && Classes(s.log) == cs + [cls]
  {
    var first, rq := Hold(cs, f);
    var s := Run(Init(FUA), first);
    Overtakes(s, cs, rq, cls);
    evs := first + [EvAdd(cls, Back([])), EvNext];
    RunAppend(Init(FUA), first, [EvAdd(cls, Back([])), EvNext]);
  }

  /** After an odd number of hard special requests some run breaks the promise, at
      the latest with the next barrier. */
  lemma {:induction false} BreaksBeforeBarrier(cs: seq<Cls>) returns (evs: seq<Event>)
    requires !Even(cs) && cs[|cs| - 1].Hard?
    ensures Classes(Run(Init(FUA), evs).log) <= cs && !Promised(Run(Init(FUA), evs))
  {
    var k := OddAt(cs);
    var f := LastFs(cs[..k]);
    assert cs[..k + 1] == cs[..k] + [cs[k]];
    if cs[f].Hard? {
      evs := BreaksDuring(cs[..k], f, cs[k]);
    } else if cs[k].Hard? {
      evs := BreaksAtBarrier(cs[..k], f, cs[k]);
    } else {
      var b := NextHard(cs[k + 1..]);
      evs := BreaksLater(cs[..k], f, cs[k + 1..][..b], cs[k + 1 + b]);
      assert cs[..k] + [Fs] + cs[k + 1..][..b] + [cs[k + 1 + b]] == cs[..k + 2 + b];
    }
  }

  // ---- No barrier follows -------------------------------------------------

  /** A barrier is held in its last stage while later file system requests wait in
      the elevator. */
  ghost predicate Waits(s: State, cs: seq<Cls>, b: Req) {
    b.cls.Hard? && Holds(s.(sorted := {}), cs, b)
  }

  /** A request joins those in the elevator. */
  lemma {:induction false} WaitMore(s: State, cs: seq<Cls>, b: Req)
    requires Waits(s, cs, b) && !Odd(cs)
    ensures Waits(Step(s, EvAdd(Fs, Sort)), cs + [Fs], b)
  {
    EnlistClasses(s, Fs);
    assert (cs + [Fs])[..|cs|] == cs;
  }

  /** A special request goes past what waits in the elevator. */
  function SlipEvs(s: State, cls: Cls): seq<Event> {
    [EvAdd(cls, Front), EvNext, EvDequeue(0)] + [EvComplete(|s.driver|)]
  }

  /** What waits in the elevator makes no difference to a request put in front. */
  lemma {:induction false} SlipTaken(s: State, cls: Cls)
    requires s.queue == [] && s.ordseq.started && cls.Special?
    ensures Run(s, [EvAdd(cls, Front), EvNext, EvDequeue(0)])
         == Run(s.(sorted := {}), TakeEvs(cls)).(sorted := s.sorted)
  {
    var t := s.(sorted := {});
    var e := Entry(Orig(Newest(s, cls)), false, true);
    assert DispatchAll(t, []) == t && [e] + s.queue == s.queue + [e];
    var s1, t1 := Step(s, EvAdd(cls, Front)), Step(t, EvAdd(cls, Back([])));
    assert s1 == t1.(sorted := s.sorted);
    assert Step(s1, EvNext) == Step(t1, EvNext).(sorted := s.sorted);
    RunThree(s, EvAdd(cls, Front), EvNext, EvDequeue(0));
    RunThree(t, EvAdd(cls, Back([])), EvNext, EvDequeue(0));
  }

  lemma {:induction false} CompleteApart(s: State, i: nat, sorted: set<Req>)
    requires i < |s.driver| && s.driver[i].Orig? && CurSeq(s.ordseq) != DRAIN
    ensures Complete(s.(sorted := sorted), i) == Complete(s, i).(sorted := sorted)
  {
    var w := s.driver[i];
    var s1 := s.(driver := Without(s.driver, i), inFlight := Less(s.inFlight, w), done := s.done + {w.rq},
                 bug := s.bug || (Accounted(w) && s.inFlight == 0));
    assert CheckDrain(s1) == s1 && CheckDrain(s1.(sorted := sorted)) == s1.(sorted := sorted);
  }

  lemma {:induction false} SlipOn(s: State, cs: seq<Cls>, b: Req, cls: Cls)
    requires Waits(s, cs, b) && cls.Special? && !AllSpecial(cs)
    ensures Waits(Run(s, SlipEvs(s, cls)), cs + [cls], b)
  {
    var t, n := s.(sorted := {}), |s.driver|;
    var t1 := Run(t, TakeEvs(cls));
    SlipTaken(s, cls);
    Take(t, cls);
    CompleteApart(t1, n, s.sorted);
    RunAppend(s, [EvAdd(cls, Front), EvNext, EvDequeue(0)], [EvComplete(n)]);
    RunOne(t1.(sorted := s.sorted), EvComplete(n));
    RunAppend(t, TakeEvs(cls), [EvComplete(n)]);
    RunOne(t1, EvComplete(n));
    assert Run(s, SlipEvs(s, cls)).(sorted := {}) == Run(t, PassEvs(t, cls));
    HoldOn(t, cs, b, cls);
  }

  /** The requests `cs[h + 1..n]` come while the barrier `cs[h]` is held. */
  lemma {:induction false} WaitOut(cs: seq<Cls>, h: nat, n: nat) returns (evs: seq<Event>, b: Req)
    requires h < n <= |cs| && cs[h].Hard? && NoneHard(cs[h + 1..n]) && Even(cs[..n])
    ensures Waits(Run(Init(FUA), evs), cs[..n], b)
    decreases n
  {
    if n == h + 1 {
      evs, b := Hold(cs[..n], h);
      assert Run(Init(FUA), evs).(sorted := {}) == Run(Init(FUA), evs);
    } else {
      var m, cls := n - 1, cs[n - 1];
      assert cs[..n] == cs[..m] + [cls] && cs[..n][..m] == cs[..m];
      assert cs[h + 1..n][m - h - 1] == cls;
      NoneHardBefore(cs[h + 1..n], m - h - 1);
      assert cs[h + 1..n][..m - h - 1] == cs[h + 1..m];
      var first;
      first, b := WaitOut(cs, h, m);
      var s := Run(Init(FUA), first);
      var more := if cls.Fs? then [EvAdd(Fs, Sort)] else SlipEvs(s, cls);
      evs := first + more;
      RunAppend(Init(FUA), first, more);
      if cls.Fs? {
        RunOne(s, EvAdd(Fs, Sort));
        WaitMore(s, cs[..m], b);
      } else {
        HasFs(cs[..m], h);
        SlipOn(s, cs[..m], b, cls);
      }
    }
  }

  /** A request of the barrier's colour is dispatched past those that wait and shown
      to the driver. */
  lemma {:induction false} OvertakesAll(s: State, cs: seq<Cls>, b: Req) returns (evs: seq<Event>)
    requires Waits(s, cs, b) && Odd(cs)
    ensures !NoneOvertakes(Run(s, evs)) && Classes(Run(s, evs).log) == cs + [Fs]
  {
    var rq := Newest(s, Fs);
    evs := [EvAdd(Fs, Sort), EvDispatch(rq, 0), EvNext];
    EnlistClasses(s, Fs);
    var s1 := Step(s, EvAdd(Fs, Sort));
    assert s1.queue[0..] == [];
    var s2 := Step(s1, EvDispatch(rq, 0));
    PutFirst(s1.queue, Entry(Orig(rq), false, false));
    assert s2.queue == [Entry(Orig(rq), false, false)];
    var s3 := Step(s2, EvNext);
    RunThree(s, EvAdd(Fs, Sort), EvDispatch(rq, 0), EvNext);
    assert rq in s3.issued && rq in s3.log && b in s3.log && b !in s3.done && b.id < rq.id;
  }

  lemma NoneHardBefore(cs: seq<Cls>, n: nat)
    requires NoneHard(cs) && n <= |cs|
    ensures NoneHard(cs[..n])
  {
  }

  lemma {:induction false} LastHard(cs: seq<Cls>) returns (h: nat)
    requires !NoneHard(cs)
    ensures h < |cs| && cs[h].Hard? && NoneHard(cs[h + 1..])
  {
    h := |cs| - 1;
    while !cs[h].Hard?
      invariant h < |cs| && NoneHard(cs[h + 1..])
      invariant exists i :: 0 <= i <= h && cs[i].Hard?
      decreases h
    {
      assert cs[h..] == [cs[h]] + cs[h + 1..];
      h := h - 1;
    }
  }

  lemma {:induction false} OddStays(cs: seq<Cls>, k: nat)
    requires k < |cs| && !cs[k].Special? && Odd(cs[..k])
    ensures !Even(cs)
    decreases |cs|
  {
    var before := cs[..|cs| - 1];
    if k < |before| {
      assert before[..k] == cs[..k];
      OddStays(before, k);
    }
  }

  /** For every order of arrival that is not even and has a barrier in it, some run
      breaks the promise. */
  lemma {:induction false} OddBreaks(cs: seq<Cls>) returns (evs: seq<Event>)
    requires !Even(cs) && !NoneHard(cs)
    ensures Classes(Run(Init(FUA), evs).log) <= cs && !Promised(Run(Init(FUA), evs))
  {
    var h := LastHard(cs);
    var k := OddAt(cs);
    if k <= h {
      assert cs[..h + 1][..k] == cs[..k];
      OddStays(cs[..h + 1], k);
      evs := BreaksBeforeBarrier(cs[..h + 1]);
    } else {
      evs := BreaksAfterBarrier(cs, h, k);
    }
  }

  lemma {:induction false} BreaksAfterBarrier(cs: seq<Cls>, h: nat, k: nat) returns (evs: seq<Event>)
    requires h < k < |cs| && cs[h].Hard? && NoneHard(cs[h + 1..]) && !cs[k].Special? && Odd(cs[..k]) && Even(cs[..k])
    ensures Classes(Run(Init(FUA), evs).log) <= cs && !Promised(Run(Init(FUA), evs))
  {
    assert cs[h + 1..][k - h - 1] == cs[k];
    NoneHardBefore(cs[h + 1..], k - h - 1);
    assert cs[h + 1..][..k - h - 1] == cs[h + 1..k];
    var first, b := WaitOut(cs, h, k);
    var s := Run(Init(FUA), first);
    var last := OvertakesAll(s, cs[..k], b);
    evs := first + last;
    RunAppend(Init(FUA), first, last);
    assert cs[..k + 1] == cs[..k] + [cs[k]];
  }

  // ---- Without barriers ---------------------------------------------------

  ghost predicate PlainQueue(q: seq<Entry>) {
    q == [] || (q[0].who.Orig? && !q[0].who.rq.cls.Hard? && PlainQueue(q[1..]))
  }

  ghost predicate PlainDriver(d: seq<Who>) {
    d == [] || (d[0].Orig? && !d[0].rq.cls.Hard? && PlainDriver(d[1..]))
  }

  /** No sequence was ever started, and none can be. */
  ghost predicate Plain(s: State) {
    && PlainQueue(s.queue) && PlainDriver(s.driver) && s.ordseq == IDLE && !s.bug
    && s.inFlight == CountFs(s.driver) && forall rq :: rq in s.sorted ==> !rq.cls.Hard?
  }

  lemma {:induction false} PlainPut(q: seq<Entry>, i: nat, e: Entry)
    requires PlainQueue(q) && i <= |q| && e.who.Orig? && !e.who.rq.cls.Hard?
    ensures PlainQueue(Put(q, i, e))
    decreases |q|
  {
    if i == 0 {
      PutFirst(q, e);
      assert ([e] + q)[1..] == q;
    } else {
      PutLater(q, i, e);
      PlainPut(q[1..], i - 1, e);
      assert Put(q, i, e)[1..] == Put(q[1..], i - 1, e);
    }
  }

  lemma {:induction false} PlainWithout(q: seq<Entry>, i: nat)
    requires PlainQueue(q) && i < |q|
    ensures PlainQueue(Without(q, i)) && q[i].who.Orig? && !q[i].who.rq.cls.Hard?
    decreases |q|
  {
    if i == 0 {
      WithoutFirst(q);
    } else {
      SplitAt(q, i);
      PlainWithout(q[1..], i - 1);
      assert Without(q, i)[1..] == Without(q[1..], i - 1);
    }
  }

  lemma {:induction false} PlainTaken(d: seq<Who>, i: nat)
    requires PlainDriver(d) && i < |d|
    ensures PlainDriver(Without(d, i)) && d[i].Orig? && !d[i].rq.cls.Hard?
    decreases |d|
  {
    if i == 0 {
      WithoutFirst(d);
    } else {
      SplitAt(d, i);
      PlainTaken(d[1..], i - 1);
      assert Without(d, i)[1..] == Without(d[1..], i - 1);
    }
  }

  lemma {:induction false} PlainGiven(d: seq<Who>, w: Who)
    requires PlainDriver(d) && w.Orig? && !w.rq.cls.Hard?
    ensures PlainDriver(d + [w])
  {
    if d == [] {
      assert d + [w] == [w] && [w][1..] == [];
    } else {
      assert (d + [w])[1..] == d[1..] + [w];
      PlainGiven(d[1..], w);
    }
  }

  lemma {:induction false} DispatchAllPlain(s: State, moves: seq<(Req, nat)>)
    requires Plain(s)
    ensures Plain(DispatchAll(s, moves))
    decreases |moves|
  {
    if moves != [] && CanDispatch(s, moves[0].0, moves[0].1) {
      PlainPut(s.queue, moves[0].1, Entry(Orig(moves[0].0), false, false));
      DispatchAllPlain(Dispatch(s, moves[0].0, moves[0].1), moves[1..]);
    }
  }

  lemma {:induction false} AddPlain(s: State, cls: Cls, where: Where)
    requires Plain(s) && !cls.Hard?
    ensures Plain(Add(s, cls, where))
  {
    var s1 := if where.Back? then DispatchAll(s, where.moves) else s;
    if where.Back? { DispatchAllPlain(s, where.moves); }
    var e := Entry(Orig(Newest(s1, cls)), false, true);
    PutFirst(s1.queue, e);
    PutLast(s1.queue, e);
    PlainPut(s1.queue, 0, e);
    PlainPut(s1.queue, |s1.queue|, e);
  }

  lemma {:induction false} CompletePlain(s: State, i: nat)
    requires Plain(s) && i < |s.driver|
    ensures Plain(Complete(s, i))
  {
    PlainTaken(s.driver, i);
    DriverWithout(s.driver, i, 0, 0, s.driver[i]);
  }

  lemma {:induction false} RequeuePlain(s: State, i: nat)
    requires Plain(s) && i < |s.driver|
    ensures Plain(Requeue(s, i))
  {
    PlainTaken(s.driver, i);
    DriverWithout(s.driver, i, 0, 0, s.driver[i]);
    PlainPut(s.queue, 0, Entry(s.driver[i], false, true));
  }

  lemma {:induction false} StepPlain(s: State, ev: Event)
    requires Plain(s) && (ev.EvAdd? && CanAdd(s, ev.cls, ev.where) ==> !ev.cls.Hard?)
    ensures Plain(Step(s, ev))
  {
    match ev
    case EvAdd(cls, where) => if CanAdd(s, cls, where) { AddPlain(s, cls, where); }
    case EvDispatch(rq, at) =>
      if CanDispatch(s, rq, at) { PlainPut(s.queue, at, Entry(Orig(rq), false, false)); }
    case EvNext =>
      if s.queue != [] { assert MarkHead(s).queue[1..] == s.queue[1..]; }
    case EvDequeue(i) =>
      if i < |s.queue| && s.queue[i].started {
        PlainWithout(s.queue, i);
        PlainGiven(s.driver, s.queue[i].who);
        DriverAppend(s.driver, s.queue[i].who, 0, 0, s.queue[i].who);
      }
    case EvComplete(i) => if i < |s.driver| { CompletePlain(s, i); }
    case EvRequeue(i) => if i < |s.driver| { RequeuePlain(s, i); }
  }

  predicate NoBarrier(log: seq<Req>) {
    forall rq :: rq in log ==> !rq.cls.Hard?
  }

  lemma {:induction false} ClassAt(log: seq<Req>, i: nat)
    requires i < |log|
    ensures Classes(log)[i] == log[i].cls
  {
    if i < |log| - 1 { ClassAt(log[..|log| - 1], i); }
  }

  lemma {:induction false} RunPlain(s: State, evs: seq<Event>)
    requires Plain(s) && NoBarrier(Run(s, evs).log)
    ensures Plain(Run(s, evs))
    decreases |evs|
  {
    if evs != [] {
      var s1 := Step(s, evs[0]);
      StepAdds(s, evs[0]);
      LogGrows(s1, evs[1..]);
      if evs[0].EvAdd? && CanAdd(s, evs[0].cls, evs[0].where) {
        assert s1.log[|s.log|] in Run(s, evs).log;
      }
      StepPlain(s, evs[0]);
      RunPlain(s1, evs[1..]);
    }
  }

  lemma {:induction false} PlainReaches(q: seq<Entry>, d: seq<Who>, w: Who)
    requires PlainQueue(q) && PlainDriver(d) && !w.Orig?
    ensures !StartedIn(q, w) && CountAt(d, w) == 0
    decreases |q| + |d|
  {
    if q != [] {
      PlainReaches(q[1..], d, w);
    } else if d != [] {
      PlainReaches(q, d[1..], w);
    }
  }

  lemma PlainIsPromised(s: State)
    requires Plain(s) && NoBarrier(s.log)
    ensures Promised(s)
  {
    forall w | Reached(s, w) && !w.Orig? ensures false {
      PlainReaches(s.queue, s.driver, w);
    }
  }

  /** Without barriers there is nothing to break. */
  lemma NoBarrierIsSafe(cs: seq<Cls>)
    requires NoneHard(cs)
    ensures Safe(cs)
  {
    forall mode, evs | Classes(Run(Init(mode), evs).log) <= cs ensures Promised(Run(Init(mode), evs)) {
      var log := Run(Init(mode), evs).log;
      forall i | 0 <= i < |log| ensures !log[i].cls.Hard? {
        ClassAt(log, i);
        assert Classes(log)[i] == cs[i];
      }
      assert Plain(Init(mode));
      RunPlain(Init(mode), evs);
      PlainIsPromised(Run(Init(mode), evs));
    }
  }

  /** The exact condition, for every order of arrival: it is safe if and only if no
      barrier is in it, or an even number of hard special requests stands between any
      two consecutive file system requests. */
  lemma {:induction false} EvenIsExact(cs: seq<Cls>)
    ensures Safe(cs) <==> Even(cs) || NoneHard(cs)
  {
    if Even(cs) {
      EvenIsSafe(cs);
    } else if NoneHard(cs) {
      NoBarrierIsSafe(cs);
    } else {
      var evs := OddBreaks(cs);
    }
  }
}
