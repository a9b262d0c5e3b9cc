/**
 The promise of I/O barriers, over all runs in which hard special requests come in
 pairs, and a run in which one comes alone.
 */
module BarrierPromise {
  import opened Barrier
  import opened BarrierOrder

  // ---- The barrier promise -----------------------------------------------

  /** Requests are numbered in the order of arrival, and epochs follow it. */
  ghost predicate LogOk(log: seq<Req>, n: nat) {
    && (forall i :: 0 <= i < |log| ==> log[i].id == i && log[i].epoch <= n && (log[i].cls.Hard? ==> log[i].epoch < n))
    && (forall i, j :: 0 <= i < j < |log| ==>
          log[i].epoch <= log[j].epoch && (log[i].cls.Hard? ==> log[i].epoch < log[j].epoch))
  }

  lemma {:induction false} NextKeepsLog(s: State)
    ensures Next(s).log == s.log && Next(s).bars == s.bars && Next(s).color == s.color
    decreases |s.queue|
  {
    if s.queue != [] && !s.ordseq.started && s.queue[0].who.Orig? && s.queue[0].who.rq.cls.Hard? {
      var s1 := Start(s);
      if !s1.ordseq.started && |s1.queue| < |s.queue| { NextKeepsLog(s1); }
    }
  }

  lemma {:induction false} DispatchAllKeepsLog(s: State, moves: seq<(Req, nat)>)
    ensures var s' := DispatchAll(s, moves); s'.log == s.log && s'.bars == s.bars && s'.color == s.color && s'.epoch == s.epoch
    decreases |moves|
  {
    if moves != [] && CanDispatch(s, moves[0].0, moves[0].1) {
      DispatchAllKeepsLog(Dispatch(s, moves[0].0, moves[0].1), moves[1..]);
    }
  }

  lemma LogAppend(log: seq<Req>, n: nat, rq: Req, n': nat)
    requires LogOk(log, n) && rq.id == |log| && rq.epoch == n && n <= n' && (rq.cls.Hard? ==> n < n')
    ensures LogOk(log + [rq], n')
  {
  }

  /** An odd number of hard special requests came since the last file system
      request; before the first one they do not matter. */
  predicate Odd(cs: seq<Cls>) {
    if cs == [] then false
    else
      var c, before := cs[|cs| - 1], cs[..|cs| - 1];
      if !c.Special? then false
      else if c.hard && !AllSpecial(before) then !Odd(before)
      else Odd(before)
  }

  /** Between any two consecutive file system requests an even number of hard
      special requests is added. */
  predicate Even(cs: seq<Cls>) {
    cs == [] || (Even(cs[..|cs| - 1]) && (cs[|cs| - 1].Special? || !Odd(cs[..|cs| - 1])))
  }

  /** The colour is that of the epoch exactly when no hard special request came
      alone. */
  predicate InStep(s: State) {
    InColour(s) == !Odd(Classes(s.log))
  }

  /** Everything a step keeps. */
  ghost predicate Sound(s: State) {
    Inv(s) && Fresh(s) && LogOk(s.log, |s.bars|) && InStep(s)
  }

  lemma {:induction false} EnlistClasses(s: State, cls: Cls)
    ensures Classes(Enlist(s, cls).log) == Classes(s.log) + [cls]
  {
    var l := Enlist(s, cls).log;
    assert l[..|l| - 1] == s.log;
  }

  lemma {:induction false} NoneOdd(cs: seq<Cls>)
    requires AllSpecial(cs)
    ensures !Odd(cs)
  {
    if cs != [] { NoneOdd(cs[..|cs| - 1]); }
  }

  lemma EnlistInStep(s: State, cls: Cls)
    requires InStep(s) && Even(Classes(Enlist(s, cls).log))
    ensures InStep(Enlist(s, cls)) && (cls.Special? || InColour(s))
  {
    var cs := Classes(s.log);
    EnlistClasses(s, cls);
    assert (cs + [cls])[..|cs|] == cs;
    if AllSpecial(cs) { NoneOdd(cs); }
  }

  /** The histories of adding that two states share. */
  predicate SameAdds(s: State, t: State) {
    s.log == t.log && s.bars == t.bars && s.color == t.color
  }

  lemma AddAdds(s: State, cls: Cls, where: Where)
    ensures SameAdds(Add(s, cls, where), Enlist(s, cls))
  {
    if where.Back? { DispatchAllKeepsLog(s, where.moves); }
  }

  lemma CompleteAdds(s: State, i: nat)
    requires i < |s.driver|
    ensures SameAdds(Complete(s, i), s)
  {
  }

  /** What a step adds. */
  lemma {:induction false} StepAdds(s: State, ev: Event)
    ensures SameAdds(Step(s, ev), if ev.EvAdd? && CanAdd(s, ev.cls, ev.where) then Enlist(s, ev.cls) else s)
  {
    match ev
    case EvAdd(cls, where) => AddAdds(s, cls, where);
    case EvNext => NextKeepsLog(s);
    case EvComplete(i) => if i < |s.driver| { CompleteAdds(s, i); }
    case _ =>
  }

  lemma StepKeepsSound(s: State, ev: Event)
    requires Sound(s) && Even(Classes(Step(s, ev).log))
    ensures Sound(Step(s, ev))
  {
    StepAdds(s, ev);
    if ev.EvAdd? && CanAdd(s, ev.cls, ev.where) {
      EnlistInStep(s, ev.cls);
      LogAppend(s.log, |s.bars|, Newest(s, ev.cls), |Enlist(s, ev.cls).bars|);
      AddKeepsInv(s, ev.cls, ev.where);
    } else {
      KeepsInvElse(s, ev);
    }
    StepKeepsFresh(s, ev);
  }

  lemma KeepsInvElse(s: State, ev: Event)
    requires Inv(s) && Fresh(s) && !(ev.EvAdd? && CanAdd(s, ev.cls, ev.where))
    ensures Inv(Step(s, ev))
  {
    if !ev.EvAdd? { StepKeepsInv(s, ev); }
  }

  lemma {:induction false} LogGrows(s: State, evs: seq<Event>)
    ensures s.log <= Run(s, evs).log
    decreases |evs|
  {
    if evs != [] {
      StepAdds(s, evs[0]);
      LogGrows(Step(s, evs[0]), evs[1..]);
    }
  }

  lemma {:induction false} EvenBefore(a: seq<Req>, b: seq<Req>)
    requires a <= b && Even(Classes(b))
    ensures Even(Classes(a))
    decreases |b|
  {
    if |a| < |b| {
      assert Classes(b)[..|b| - 1] == Classes(b[..|b| - 1]);
      EvenBefore(a, b[..|b| - 1]);
    } else {
      assert a == b;
    }
  }

  lemma {:induction false} RunKeepsSound(s: State, evs: seq<Event>)
    requires Sound(s) && Even(Classes(Run(s, evs).log))
    ensures Sound(Run(s, evs))
    decreases |evs|
  {
    if evs != [] {
      var s1 := Step(s, evs[0]);
      LogGrows(s1, evs[1..]);
      EvenBefore(s1.log, Run(s, evs).log);
      StepKeepsSound(s, evs[0]);
      RunKeepsSound(s1, evs[1..]);
    }
  }

  predicate StartedIn(q: seq<Entry>, w: Who) {
    q != [] && ((q[0].who == w && q[0].started) || StartedIn(q[1..], w))
  }

  /** The driver has been given request `w` of the running sequence. */
  predicate Reached(s: State, w: Who) {
    StartedIn(s.queue, w) || 0 < CountAt(s.driver, w)
  }

  /** A sequence request reaches the driver in its own stage only. */
  lemma ReachedInStage(s: State, w: Who)
    requires Inv(s) && !w.Orig? && Reached(s, w)
    ensures s.ordseq.started && CurSeq(s.ordseq) == ReqSeq(s.orig, w)
  {
    if StartedIn(s.queue, w) {
      StartedInStage(s.queue, s.epoch, CurSeq(s.ordseq), w);
    } else if CurSeq(s.ordseq) != ReqSeq(s.orig, w) {
      DriverHas(s.driver, s.epoch, CurSeq(s.ordseq), w);
    }
  }

  lemma StartedInStage(q: seq<Entry>, epoch: nat, cur: nat, w: Who)
    requires QueueOk(q, epoch, cur) && !w.Orig? && StartedIn(q, w)
    ensures cur == ReqSeq(Req(0, Fs, false, 0), w)
  {
  }

  /** Past the drain, what came before the barrier is complete. */
  lemma EarlierIsDone(s: State, rq: Req)
    requires Inv(s) && rq in s.log && !rq.cls.Special?
    requires rq.epoch < s.epoch || (rq.epoch == s.epoch && rq.cls.Fs? && s.ordseq.started && DRAIN < CurSeq(s.ordseq))
    ensures rq in s.done
  {
    assert Somewhere(s, rq);
    if rq.cls.Fs? && rq !in s.done {
      if 0 < CountIn(s.queue, Orig(rq)) {
        EntryOf(s.queue, s.epoch, CurSeq(s.ordseq), 0, Orig(rq));
      } else if 0 < CountAt(s.driver, Orig(rq)) {
        DriverEntry(s.driver, s.epoch, CurSeq(s.ordseq), rq);
      }
    }
  }

  lemma DriverEntry(d: seq<Who>, epoch: nat, cur: nat, rq: Req)
    requires DriverOk(d, epoch, cur) && 0 < CountAt(d, Orig(rq)) && !rq.cls.Special?
    ensures rq.epoch == epoch && cur <= DRAIN
  {
  }

  lemma EpochOrder(log: seq<Req>, n: nat, a: Req, b: Req)
    requires LogOk(log, n) && a in log && b in log && a.id < b.id
    ensures a.epoch <= b.epoch && (a.cls.Hard? ==> a.epoch < b.epoch)
  {
    assert log[a.id] == a && log[b.id] == b;
  }

  /** No file system request reaches the driver before a barrier added earlier
      is complete. */
  ghost predicate NoneOvertakes(s: State) {
    forall b, rq :: b in s.log && b.cls.Hard? && rq in s.log && rq in s.issued && !rq.cls.Special? && b.id < rq.id ==> b in s.done
  }

  /** A barrier is complete only when all that was added before it is. */
  ghost predicate NoneLeftBehind(s: State) {
    forall b, rq :: b in s.done && b in s.log && b.cls.Hard? && rq in s.log && !rq.cls.Special? && rq.id < b.id ==> rq in s.done
  }

  /** A request of a barrier's sequence reaches the driver only when all that was
      added before the barrier is complete, and then only in its own stage. */
  ghost predicate SequenceWaits(s: State) {
    forall w :: Reached(s, w) && !w.Orig? ==>
      && s.ordseq.started && CurSeq(s.ordseq) == ReqSeq(s.orig, w) && s.orig in s.log
      && forall rq :: rq in s.log && !rq.cls.Special? && rq.id < s.orig.id ==> rq in s.done
  }

  lemma InvNoneOvertakes(s: State)
    requires Inv(s) && LogOk(s.log, |s.bars|)
    ensures NoneOvertakes(s)
  {
    forall b, rq | b in s.log && b.cls.Hard? && rq in s.log && rq in s.issued && !rq.cls.Special? && b.id < rq.id
      ensures b in s.done
    {
      EpochOrder(s.log, |s.bars|, b, rq);
      EarlierIsDone(s, b);
    }
  }

  lemma InvNoneLeftBehind(s: State)
    requires Inv(s) && LogOk(s.log, |s.bars|)
    ensures NoneLeftBehind(s)
  {
    forall b, rq | b in s.done && b in s.log && b.cls.Hard? && rq in s.log && !rq.cls.Special? && rq.id < b.id
      ensures rq in s.done
    {
      EpochOrder(s.log, |s.bars|, rq, b);
      EarlierIsDone(s, rq);
    }
  }

  /** The barrier of the running sequence is the one whose turn it is. */
  lemma OrigInLog(s: State)
    requires Inv(s) && s.ordseq.started
    ensures s.orig == s.bars[s.epoch] && s.orig in s.log
  {
    var b := s.bars[s.epoch];
    assert Somewhere(s, b);
    if b != s.orig { EntryOf(s.queue, s.epoch, CurSeq(s.ordseq), 0, Orig(b)); }
  }

  lemma InvSequenceWaits(s: State)
    requires Inv(s) && LogOk(s.log, |s.bars|)
    ensures SequenceWaits(s)
  {
    forall w | Reached(s, w) && !w.Orig?
      ensures s.ordseq.started && CurSeq(s.ordseq) == ReqSeq(s.orig, w) && s.orig in s.log
      ensures forall rq :: rq in s.log && !rq.cls.Special? && rq.id < s.orig.id ==> rq in s.done
    {
      ReachedInStage(s, w);
      OrigInLog(s);
      forall rq | rq in s.log && !rq.cls.Special? && rq.id < s.orig.id ensures rq in s.done {
        EpochOrder(s.log, |s.bars|, rq, s.orig);
        EarlierIsDone(s, rq);
      }
    }
  }

  lemma {:induction false} InitOk(mode: Mode)
    ensures Sound(Init(mode))
  {
    var s := Init(mode);
    assert Core(s);
    assert Past(s);
    assert s.log == [];
  }

  lemma ReachableSound(mode: Mode, evs: seq<Event>)
    requires Even(Classes(Run(Init(mode), evs).log))
    ensures Sound(Run(Init(mode), evs))
  {
    InitOk(mode);
    RunKeepsSound(Init(mode), evs);
  }

  /** The promise, in every run in which hard special requests come in pairs. */
  lemma NothingPassesABarrier(mode: Mode, evs: seq<Event>)
    requires Even(Classes(Run(Init(mode), evs).log))
    ensures NoneOvertakes(Run(Init(mode), evs))
  {
    ReachableSound(mode, evs);
    InvNoneOvertakes(Run(Init(mode), evs));
  }

  lemma BarriersComeLast(mode: Mode, evs: seq<Event>)
    requires Even(Classes(Run(Init(mode), evs).log))
    ensures NoneLeftBehind(Run(Init(mode), evs))
  {
    ReachableSound(mode, evs);
    InvNoneLeftBehind(Run(Init(mode), evs));
  }

  lemma SequencesWait(mode: Mode, evs: seq<Event>)
    requires Even(Classes(Run(Init(mode), evs).log))
    ensures SequenceWaits(Run(Init(mode), evs))
  {
    ReachableSound(mode, evs);
    InvSequenceWaits(Run(Init(mode), evs));
  }

  /** The kernel's own assertions never fail: no stage completes twice, no
      request comes late to its stage, and the count in flight does not underflow. */
  lemma NoAssertionFails(mode: Mode, evs: seq<Event>)
    requires Even(Classes(Run(Init(mode), evs).log))
    ensures !Run(Init(mode), evs).bug
  {
    ReachableSound(mode, evs);
  }

  /** All bits of `o` are set in `o'`. */
  predicate Includes(o': OrdSeq, o: OrdSeq) {
    && (o.started ==> o'.started) && (o.drain ==> o'.drain) && (o.preflush ==> o'.preflush)
    && (o.bar ==> o'.bar) && (o.postflush ==> o'.postflush)
  }

  /** A step either leaves the running sequence with at least the bits it had, so
      that its stage does not fall back, or ends it together with its barrier. */
  ghost predicate Advances(s: State, s': State) {
    || (&& s'.epoch == s.epoch && s'.orig == s.orig && Includes(s'.ordseq, s.ordseq) && s'.ordseq.started
        && CurSeq(s.ordseq) <= CurSeq(s'.ordseq))
    || (s'.epoch == s.epoch + 1 && s'.ordseq == IDLE && s.orig in s'.done)
  }

  lemma {:induction false} DispatchAllKeepsStage(s: State, moves: seq<(Req, nat)>)
    ensures var s' := DispatchAll(s, moves); s'.ordseq == s.ordseq && s'.orig == s.orig && s'.epoch == s.epoch
    decreases |moves|
  {
    if moves != [] && CanDispatch(s, moves[0].0, moves[0].1) {
      DispatchAllKeepsStage(Dispatch(s, moves[0].0, moves[0].1), moves[1..]);
    }
  }

  lemma CompleteSeqAdvances(s: State, add: OrdSeq)
    requires s.ordseq.started
    ensures Advances(s, CompleteSeq(s, add))
  {
  }

  lemma CheckDrainAdvances(s: State)
    requires s.ordseq.started && CurSeq(s.ordseq) < DONE
    ensures Advances(s, CheckDrain(s))
  {
    CompleteSeqAdvances(s, IDLE.(drain := true));
  }

  lemma {:induction false} CompleteAdvances(s: State, i: nat)
    requires Inv(s) && s.ordseq.started && i < |s.driver|
    ensures Advances(s, Complete(s, i))
  {
    var w := s.driver[i];
    TakenCore(s, i);
    var s1 := s.(driver := Without(s.driver, i), inFlight := Less(s.inFlight, w));
    if w.Orig? {
      CheckDrainAdvances(s1.(done := s1.done + {w.rq}));
    } else {
      assert DriverOk([w], s.epoch, CurSeq(s.ordseq)) && CheckDrain(s1) == s1;
      CompleteSeqAdvances(s1, StageBit(w));
    }
  }

  /** The bit of the stage a sequence request carries out. */
  function StageBit(w: Who): OrdSeq
    requires !w.Orig?
  {
    match w
    case PreFlush => IDLE.(preflush := true)
    case Bar => IDLE.(bar := true)
    case PostFlush => IDLE.(postflush := true)
  }

  lemma {:induction false} StagesOnlyAdvance(s: State, ev: Event)
    requires Inv(s) && Fresh(s) && s.ordseq.started
    ensures Advances(s, Step(s, ev))
  {
    match ev
    case EvAdd(cls, where) =>
      if where.Back? {
        DispatchAllKeepsStage(s, where.moves);
        DispatchAllKeepsLog(s, where.moves);
      }
    case EvComplete(i) => if i < |s.driver| { CompleteAdvances(s, i); }
    case _ =>
  }

  // ---- Hard special requests ---------------------------------------------

  const FIRST := Req(0, Fs, false, 0)
  const SPECIAL := Req(1, Special(true), false, 0)
  const BARRIER := Req(2, Hard(false), true, 0)

  /** A request goes to the driver. */
  function Opening(): seq<Event> {
    [EvAdd(Fs, Sort), EvDispatch(FIRST, 0), EvNext, EvDequeue(0)]
  }

  /** A hard special request follows it, and a barrier arrives. */
  function Middle(): seq<Event> {
    [EvAdd(Special(true), Front), EvNext, EvDequeue(0), EvAdd(Hard(false), Back([]))]
  }

  /** The request is requeued while the barrier waits for it. */
  function Ending(): seq<Event> {
    [EvNext, EvRequeue(0), EvComplete(0), EvNext]
  }

  lemma {:induction false} RunFour(s: State, evs: seq<Event>)
    requires |evs| == 4
    ensures Run(s, evs) == Step(Step(Step(Step(s, evs[0]), evs[1]), evs[2]), evs[3])
  {
    var s1 := Step(s, evs[0]);
    var s2 := Step(s1, evs[1]);
    var s3 := Step(s2, evs[2]);
    assert Run(s, evs) == Run(s1, evs[1..]);
    assert Run(s1, evs[1..]) == Run(s2, evs[1..][1..]);
    assert Run(s2, evs[1..][1..]) == Run(s3, evs[1..][1..][1..]);
    assert evs[1..][1..][1..] == [evs[3]];
  }

  lemma {:induction false} OpeningState(s: State)
    requires s == Init(Mode(false, true, false))
    ensures var s' := Run(s, Opening());
            && s'.queue == [] && s'.driver == [Orig(FIRST)] && s'.inFlight == 1 && s'.sorted == {} && !s'.color
            && s'.ordseq == IDLE && s'.log == [FIRST] && s'.bars == [] && s'.done == {} && s'.mode == s.mode
  {
    RunFour(s, Opening());
    var s1 := Step(s, EvAdd(Fs, Sort));
    assert s1.queue[0..] == [];
    var s2 := Step(s1, EvDispatch(FIRST, 0));
    assert s2.queue == [Entry(Orig(FIRST), false, false)];
  }

  lemma {:induction false} MiddleState(s: State)
    requires s.queue == [] && s.driver == [Orig(FIRST)] && s.inFlight == 1 && s.sorted == {} && !s.color
    requires s.ordseq == IDLE && s.log == [FIRST] && s.bars == [] && s.done == {}
    ensures var s' := Run(s, Middle());
            && s'.queue == [Entry(Orig(BARRIER), false, true)] && s'.driver == [Orig(FIRST), Orig(SPECIAL)] && s'.inFlight == 1
            && s'.ordseq == IDLE && s'.log == [FIRST, SPECIAL, BARRIER] && s'.done == {} && s'.mode == s.mode
  {
    RunFour(s, Middle());
    var s1 := Step(s, EvAdd(Special(true), Front));
    assert s1.queue == [Entry(Orig(SPECIAL), false, true)];
    var s2 := Step(s1, EvNext);
    assert s2.queue == [Entry(Orig(SPECIAL), true, true)];
    var s3 := Step(s2, EvDequeue(0));
    assert s3.queue == [] && s3.driver == [Orig(FIRST), Orig(SPECIAL)];
    assert DispatchAll(s3, []) == s3;
  }

  /** The requeue walk takes the request for one that was added after the barrier. */
  lemma {:induction false} EndingState(s: State)
    requires s.queue == [Entry(Orig(BARRIER), false, true)] && s.driver == [Orig(FIRST), Orig(SPECIAL)] && s.inFlight == 1
    requires s.ordseq == IDLE && s.log == [FIRST, SPECIAL, BARRIER] && s.done == {} && s.mode == Mode(false, true, false)
    ensures var s' := Run(s, Ending());
            && s'.queue == [Entry(Bar, true, true), Entry(Orig(FIRST), false, true)]
            && s'.orig == BARRIER && s'.log == s.log && s'.done == {SPECIAL}
  {
    RunFour(s, Ending());
    var s1 := Step(s, EvNext);
    assert Sequence(s, BARRIER) == [Entry(Bar, false, true)];
    assert s1.queue == [Entry(Bar, false, true)] && s1.driver == s.driver && s1.ordseq == OrdSeq(true, false, true, false, true);
    var s2 := Step(s1, EvRequeue(0));
    assert RequeuePos(BARRIER, s1.queue, DONE) == 1 by { assert s1.queue[1..] == []; }
    assert s2.queue == [Entry(Bar, false, true), Entry(Orig(FIRST), false, true)] && s2.driver == [Orig(SPECIAL)];
    var s3 := Step(s2, EvComplete(0));
    assert s3.ordseq == OrdSeq(true, true, true, false, true) && s3.queue == s2.queue;
  }

  /** One hard special request is enough to break the promise: the barrier write
      reaches the driver although an earlier request is still on the list. */
  lemma {:induction false} HardSpecialBreaksTheWait()
    ensures var s := Run(Run(Run(Init(Mode(false, true, false)), Opening()), Middle()), Ending());
            && Reached(s, Bar) && s.orig == BARRIER && FIRST in s.log && FIRST.id < s.orig.id && FIRST !in s.done
            && !SequenceWaits(s)
  {
    OpeningState(Init(Mode(false, true, false)));
    MiddleState(Run(Init(Mode(false, true, false)), Opening()));
    EndingState(Run(Run(Init(Mode(false, true, false)), Opening()), Middle()));
    BrokenState(Run(Run(Run(Init(Mode(false, true, false)), Opening()), Middle()), Ending()));
  }

  lemma BrokenState(s: State)
    requires s.queue == [Entry(Bar, true, true), Entry(Orig(FIRST), false, true)]
    requires s.orig == BARRIER && s.log == [FIRST, SPECIAL, BARRIER] && s.done == {SPECIAL}
    ensures Reached(s, Bar) && FIRST in s.log && FIRST !in s.done && !SequenceWaits(s)
  {
    assert FIRST == s.log[0] && FIRST.id < s.orig.id;
    assert Reached(s, Bar) && !Bar.Orig?;
  }
}
