/**
 What the device sees of a barrier: the order in which it completes requests.

 Everything before a barrier is complete, then the cache is flushed, the barrier
 written and the cache flushed again, as the mode of the queue asks, and only then
 does anything after the barrier complete.
 */
module BarrierDisk {
  import opened Barrier
  import opened BarrierOrder
  import opened BarrierPromise

  /** One completion by the device, and the barrier whose sequence ran then. */
  datatype Fin = Fin(who: Who, bar: Req)

  function Ends(s: State, ev: Event): seq<Fin> {
    if ev.EvComplete? && ev.i < |s.driver| then [Fin(s.driver[ev.i], s.orig)] else []
  }

  /** All completions of a run, in order. */
  function Trace(s: State, evs: seq<Event>): seq<Fin>
    decreases |evs|
  {
    if evs == [] then [] else Ends(s, evs[0]) + Trace(Step(s, evs[0]), evs[1..])
  }

  /** The device work done for a barrier, in order. */
  function Stages(tr: seq<Fin>, b: Req): seq<Who> {
    if tr == [] then []
    else Stages(tr[..|tr| - 1], b) + Work(tr[|tr| - 1], b)
  }

  function Work(f: Fin, b: Req): seq<Who> {
    if !f.who.Orig? && f.bar == b then [f.who] else []
  }

  /** A barrier without data is neither written nor flushed behind. */
  predicate Asks(mode: Mode, b: Req, w: Who) {
    match w
    case PreFlush => mode.preflush
    case Bar => mode.bar && b.cls.Hard? && !b.cls.empty
    case PostFlush => mode.postflush && b.cls.Hard? && !b.cls.empty
    case Orig(_) => false
  }

  function If(w: Who, c: bool): seq<Who> {
    if c then [w] else []
  }

  /** What the device has to do for a barrier. */
  function Asked(mode: Mode, b: Req): seq<Who> {
    If(PreFlush, Asks(mode, b, PreFlush)) + If(Bar, Asks(mode, b, Bar)) + If(PostFlush, Asks(mode, b, PostFlush))
  }

  /** The part of it that the stages of the running sequence have behind them. */
  function Passed(o: OrdSeq, mode: Mode, b: Req): seq<Who> {
    If(PreFlush, o.preflush && Asks(mode, b, PreFlush)) + If(Bar, o.bar && Asks(mode, b, Bar))
    + If(PostFlush, o.postflush && Asks(mode, b, PostFlush))
  }

  function Progress(s: State, b: Req): seq<Who> {
    if b.epoch < s.epoch then Asked(s.mode, b)
    else if s.ordseq.started && b == s.orig then Passed(s.ordseq, s.mode, b)
    else []
  }

  /** Completions are ranked by the epoch and, within it, by the stage. */
  function Rank(f: Fin): nat {
    match f.who
    case Orig(rq) => 8 * rq.epoch
    case PreFlush => 8 * f.bar.epoch + 1
    case Bar => 8 * f.bar.epoch + 2
    case PostFlush => 8 * f.bar.epoch + 3
  }

  /** The rank of what may complete now. */
  function Now(s: State): nat {
    8 * s.epoch + (if CurSeq(s.ordseq) == PREFLUSH then 1 else if CurSeq(s.ordseq) == BAR then 2
                   else if CurSeq(s.ordseq) == POSTFLUSH then 3 else 0)
  }

  ghost predicate Ranked(s: State, tr: seq<Fin>) {
    && (forall i :: 0 <= i < |tr| && !IsSpecial(tr[i].who) ==> Rank(tr[i]) <= Now(s))
    && (forall i, j :: 0 <= i < j < |tr| && !IsSpecial(tr[i].who) && !IsSpecial(tr[j].who) ==> Rank(tr[i]) <= Rank(tr[j]))
  }

  /** Only what is not asked for is skipped, and what is asked for comes in turn. */
  predicate Staged(s: State) {
    s.ordseq.started ==>
      var o, pre, bar, post := s.ordseq, Asks(s.mode, s.orig, PreFlush), Asks(s.mode, s.orig, Bar), Asks(s.mode, s.orig, PostFlush);
      && (!pre ==> o.preflush) && (!bar ==> o.bar) && (!post ==> o.postflush)
      && (pre && o.preflush ==> o.drain)
      && (bar && o.bar ==> o.drain && o.preflush)
      && (post && o.postflush ==> o.drain && o.preflush && o.bar)
  }

  ghost predicate Recorded(s: State, tr: seq<Fin>) {
    forall b :: b in s.log && b.cls.Hard? ==> Stages(tr, b) == Progress(s, b)
  }

  ghost predicate HasEnded(tr: seq<Fin>, rq: Req) {
    exists i :: 0 <= i < |tr| && tr[i].who == Orig(rq)
  }

  ghost predicate Finished(s: State, tr: seq<Fin>) {
    forall rq: Req :: rq.cls.Fs? ==> (rq in s.done <==> HasEnded(tr, rq))
  }

  /** The device works for barriers that were added. */
  ghost predicate Known(log: seq<Req>, tr: seq<Fin>) {
    forall i :: 0 <= i < |tr| && !tr[i].who.Orig? ==> tr[i].bar in log && tr[i].bar.cls.Hard?
  }

  /** Everything the completions so far tell. */
  ghost predicate Told(s: State, tr: seq<Fin>) {
    Ranked(s, tr) && Staged(s) && Recorded(s, tr) && Finished(s, tr) && Known(s.log, tr)
  }

  // ---- Steps that complete nothing ----------------------------------------

  /** The part of a state that completions are about. */
  predicate SameStage(s: State, t: State) {
    t.mode == s.mode && t.ordseq == s.ordseq && t.orig == s.orig && t.epoch == s.epoch && t.done == s.done
  }

  lemma SameStageTold(s: State, t: State, tr: seq<Fin>)
    requires Told(s, tr) && SameStage(s, t) && t.log == s.log
    ensures Told(t, tr)
  {
    forall b | b in t.log && b.cls.Hard? ensures Stages(tr, b) == Progress(t, b) {
    }
  }

  lemma {:induction false} DispatchAllSameStage(s: State, moves: seq<(Req, nat)>)
    ensures SameStage(s, DispatchAll(s, moves))
    decreases |moves|
  {
    if moves != [] && CanDispatch(s, moves[0].0, moves[0].1) {
      DispatchAllSameStage(Dispatch(s, moves[0].0, moves[0].1), moves[1..]);
    }
  }

  /** No device work has been done yet for a barrier that is just added. */
  lemma {:induction false} NoWorkYet(tr: seq<Fin>, b: Req, n: nat)
    requires forall i :: 0 <= i < |tr| && !IsSpecial(tr[i].who) ==> Rank(tr[i]) <= n
    requires n <= 8 * b.epoch
    ensures Stages(tr, b) == []
  {
    if tr != [] { NoWorkYet(tr[..|tr| - 1], b, n); }
  }

  lemma EnlistTold(s: State, t: State, cls: Cls, tr: seq<Fin>)
    requires Inv(s) && Fresh(s) && Told(s, tr) && LogOk(s.log, |s.bars|)
    requires t.mode == s.mode && t.ordseq == s.ordseq && t.orig == s.orig && t.done == s.done
    requires t.log == Enlist(s, cls).log && t.epoch == Enlist(s, cls).epoch
    ensures Told(t, tr)
  {
    forall b | b in t.log && b.cls.Hard? ensures Stages(tr, b) == Progress(t, b) {
      if b in s.log {
        if Turns(s, cls) { NoHardAmong(s.log, b); }
      } else {
        NoWorkYet(tr, b, Now(s));
      }
    }
  }

  lemma AddTold(s: State, cls: Cls, where: Where, tr: seq<Fin>)
    requires Inv(s) && Fresh(s) && LogOk(s.log, |s.bars|) && Told(s, tr)
    ensures Told(Add(s, cls, where), tr)
  {
    if where.Back? {
      DispatchAllKeepsLog(s, where.moves);
      DispatchAllSameStage(s, where.moves);
    }
    EnlistTold(s, Add(s, cls, where), cls, tr);
  }

  // ---- Starting a sequence --------------------------------------------------

  /** Starting a sequence does no device work, and skips none that is asked for. */
  lemma StartTold(s: State, tr: seq<Fin>)
    requires Inv(s) && Told(s, tr) && !s.ordseq.started
    requires s.queue != [] && s.queue[0].who.Orig? && s.queue[0].who.rq.cls.Hard?
    ensures Told(Start(s), tr) && Start(s).mode == s.mode
  {
    var t := Start(s);
    StartStaged(s);
    forall b | b in t.log && b.cls.Hard? ensures Stages(tr, b) == Progress(t, b) {
      StartProgress(s, b);
    }
  }

  lemma StartStaged(s: State)
    requires Inv(s) && !s.ordseq.started
    requires s.queue != [] && s.queue[0].who.Orig? && s.queue[0].who.rq.cls.Hard?
    ensures Staged(Start(s)) && Now(s) <= Now(Start(s))
  {
    HeadBarrier(s);
  }

  lemma StartProgress(s: State, b: Req)
    requires Inv(s) && !s.ordseq.started && b in s.log && b.cls.Hard?
    requires s.queue != [] && s.queue[0].who.Orig? && s.queue[0].who.rq.cls.Hard?
    ensures Progress(Start(s), b) == Progress(s, b)
  {
    HeadBarrier(s);
  }

  lemma {:induction false} NextTold(s: State, tr: seq<Fin>)
    requires Inv(s) && Told(s, tr)
    ensures Told(Next(s), tr) && Next(s).mode == s.mode
    decreases |s.queue|
  {
    if s.queue != [] && !s.ordseq.started && s.queue[0].who.Orig? && s.queue[0].who.rq.cls.Hard? {
      var s1 := Start(s);
      StartKeepsInv(s);
      StartTold(s, tr);
      if !s1.ordseq.started && |s1.queue| < |s.queue| {
        NextTold(s1, tr);
      } else {
        SameStageTold(s1, Next(s), tr);
      }
    } else {
      SameStageTold(s, Next(s), tr);
    }
  }

  // ---- Completions ------------------------------------------------------------

  lemma StagesMore(tr: seq<Fin>, f: Fin, b: Req)
    ensures Stages(tr + [f], b) == Stages(tr, b) + Work(f, b)
  {
    assert (tr + [f])[..|tr|] == tr;
  }

  lemma EndedMore(tr: seq<Fin>, f: Fin, rq: Req)
    ensures HasEnded(tr + [f], rq) <==> HasEnded(tr, rq) || f.who == Orig(rq)
  {
    if HasEnded(tr, rq) {
      var i :| 0 <= i < |tr| && tr[i].who == Orig(rq);
      assert (tr + [f])[i].who == Orig(rq);
    }
    assert (tr + [f])[|tr|] == f;
  }

  /** What completes has the rank of the moment. */
  lemma RankedMore(s: State, t: State, tr: seq<Fin>, f: Fin)
    requires Ranked(s, tr) && Now(s) <= Now(t) && (IsSpecial(f.who) || Rank(f) == Now(s))
    ensures Ranked(t, tr + [f])
  {
  }

  /** The barrier of the running sequence is the only one of its epoch. */
  lemma CurrentBarrier(s: State, b: Req)
    requires Inv(s) && s.ordseq.started && b in s.log && b.cls.Hard? && b.epoch == s.epoch
    ensures b == s.orig
  {
    assert Somewhere(s, b);
    if b != s.orig { EntryOf(s.queue, s.epoch, CurSeq(s.ordseq), 0, Orig(b)); }
  }

  /** Completing a stage, in a state whose stages are recorded. */
  lemma BitProgress(s: State, w: Who, b: Req)
    requires Inv(s) && Staged(s) && s.ordseq.started && !w.Orig? && CurSeq(s.ordseq) == ReqSeq(s.orig, w)
    requires b in s.log && b.cls.Hard?
    ensures Progress(CompleteSeq(s, StageBit(w)), b) == Progress(s, b) + Work(Fin(w, s.orig), b)
  {
    if b.epoch == s.epoch { CurrentBarrier(s, b); }
  }

  lemma BitStaged(s: State, w: Who)
    requires Inv(s) && Staged(s) && s.ordseq.started && !w.Orig? && CurSeq(s.ordseq) == ReqSeq(s.orig, w)
    ensures Staged(CompleteSeq(s, StageBit(w))) && Now(s) <= Now(CompleteSeq(s, StageBit(w)))
  {
  }

  lemma DrainProgress(s: State, b: Req)
    requires Inv(s) && Staged(s) && b in s.log && b.cls.Hard?
    ensures Progress(CheckDrain(s), b) == Progress(s, b)
  {
    if s.ordseq.started && b.epoch == s.epoch { CurrentBarrier(s, b); }
  }

  lemma DrainStaged(s: State)
    requires Inv(s) && Staged(s)
    ensures Staged(CheckDrain(s)) && Now(s) <= Now(CheckDrain(s))
  {
  }

  lemma FinishedMore(s: State, t: State, tr: seq<Fin>, f: Fin)
    requires Finished(s, tr)
    requires forall rq: Req :: rq.cls.Fs? ==> (rq in t.done <==> rq in s.done || f.who == Orig(rq))
    ensures Finished(t, tr + [f])
  {
    forall rq: Req | rq.cls.Fs? ensures rq in t.done <==> HasEnded(tr + [f], rq) {
      EndedMore(tr, f, rq);
    }
  }

  /** The state after the driver has given a request back. */
  function Taken(s: State, i: nat): State
    requires i < |s.driver|
  {
    var t := s.(driver := Without(s.driver, i), inFlight := Less(s.inFlight, s.driver[i]));
    if s.driver[i].Orig? then t.(done := t.done + {s.driver[i].rq}) else t
  }

  /** A request that is not of the sequence completes in the drain of its own epoch. */
  lemma {:induction false} OrigTold(s: State, i: nat, tr: seq<Fin>)
    requires Inv(s) && Told(s, tr) && i < |s.driver| && s.driver[i].Orig?
    ensures Told(Complete(s, i), tr + [Fin(s.driver[i], s.orig)])
  {
    var f, t := Fin(s.driver[i], s.orig), Complete(s, i);
    OrigStep(s, i);
    DrainStaged(Taken(s, i));
    RankedMore(s, t, tr, f);
    OrigFinished(s, i, tr);
    OrigRecorded(s, i, tr);
  }

  lemma OrigStep(s: State, i: nat)
    requires Inv(s) && i < |s.driver| && s.driver[i].Orig?
    ensures Complete(s, i) == CheckDrain(Taken(s, i)) && Inv(Taken(s, i))
    ensures IsSpecial(s.driver[i]) || Rank(Fin(s.driver[i], s.orig)) == Now(s)
  {
    TakenCore(s, i);
    CompleteOrig(s, i);
    assert DriverOk([s.driver[i]], s.epoch, CurSeq(s.ordseq));
  }

  lemma OrigFinished(s: State, i: nat, tr: seq<Fin>)
    requires Inv(s) && Finished(s, tr) && i < |s.driver| && s.driver[i].Orig?
    ensures Finished(Complete(s, i), tr + [Fin(s.driver[i], s.orig)])
  {
    OrigStep(s, i);
    FinishedMore(s, Complete(s, i), tr, Fin(s.driver[i], s.orig));
  }

  lemma SameProgress(s: State, t: State, b: Req)
    requires SameStage(s, t)
    ensures Progress(s, b) == Progress(t, b)
  {
  }

  lemma OrigRecorded(s: State, i: nat, tr: seq<Fin>)
    requires Inv(s) && Staged(s) && Recorded(s, tr) && i < |s.driver| && s.driver[i].Orig?
    ensures Recorded(Complete(s, i), tr + [Fin(s.driver[i], s.orig)])
  {
    var f, t := Fin(s.driver[i], s.orig), Complete(s, i);
    OrigStep(s, i);
    forall b | b in t.log && b.cls.Hard? ensures Stages(tr + [f], b) == Progress(t, b) {
      StagesMore(tr, f, b);
      DrainProgress(Taken(s, i), b);
    }
  }

  /** A request of the sequence completes in its own stage. */
  lemma {:induction false} StageTold(s: State, i: nat, tr: seq<Fin>)
    requires Inv(s) && Told(s, tr) && i < |s.driver| && !s.driver[i].Orig?
    ensures Told(Complete(s, i), tr + [Fin(s.driver[i], s.orig)])
  {
    var w := s.driver[i];
    var f, t := Fin(w, s.orig), Complete(s, i);
    StageStep(s, i);
    BitStaged(s, w);
    RankedMore(s, t, tr, f);
    FinishedMore(s, t, tr, f);
    OrigInLog(s);
    StageRecorded(s, i, tr);
  }

  lemma StageRecorded(s: State, i: nat, tr: seq<Fin>)
    requires Inv(s) && Staged(s) && Recorded(s, tr) && i < |s.driver| && !s.driver[i].Orig?
    ensures Recorded(Complete(s, i), tr + [Fin(s.driver[i], s.orig)])
  {
    var f, t := Fin(s.driver[i], s.orig), Complete(s, i);
    StageStep(s, i);
    forall b | b in t.log && b.cls.Hard? ensures Stages(tr + [f], b) == Progress(t, b) {
      StageRecordedOf(s, i, tr, b);
    }
  }

  lemma StageRecordedOf(s: State, i: nat, tr: seq<Fin>, b: Req)
    requires Inv(s) && Staged(s) && i < |s.driver| && !s.driver[i].Orig?
    requires b in s.log && b.cls.Hard? && Stages(tr, b) == Progress(s, b)
    ensures Stages(tr + [Fin(s.driver[i], s.orig)], b) == Progress(Complete(s, i), b)
  {
    StageStep(s, i);
    StagesMore(tr, Fin(s.driver[i], s.orig), b);
    BitProgress(s, s.driver[i], b);
    SameProgress(Complete(s, i), CompleteSeq(s, StageBit(s.driver[i])), b);
  }

  /** Such a completion only sets the bit of its stage. */
  lemma StageStep(s: State, i: nat)
    requires Inv(s) && i < |s.driver| && !s.driver[i].Orig?
    ensures var t, u := Complete(s, i), CompleteSeq(s, StageBit(s.driver[i]));
      && SameStage(t, u) && t.log == u.log
      && s.ordseq.started && CurSeq(s.ordseq) == ReqSeq(s.orig, s.driver[i])
  {
    TakenCore(s, i);
    assert DriverOk([s.driver[i]], s.epoch, CurSeq(s.ordseq));
    CompleteStage(s, i, StageBit(s.driver[i]));
  }

  // ---- Runs -----------------------------------------------------------------------

  lemma {:induction false} StepTold(s: State, ev: Event, tr: seq<Fin>)
    requires Inv(s) && Fresh(s) && LogOk(s.log, |s.bars|) && Told(s, tr)
    ensures Told(Step(s, ev), tr + Ends(s, ev))
  {
    assert Ends(s, ev) == [] ==> tr + Ends(s, ev) == tr;
    match ev
    case EvAdd(cls, where) => if CanAdd(s, cls, where) { AddTold(s, cls, where, tr); }
    case EvNext => NextTold(s, tr);
    case EvComplete(i) =>
      if i < |s.driver| {
        if s.driver[i].Orig? { OrigTold(s, i, tr); } else { StageTold(s, i, tr); }
      }
    case _ =>
      OthersSameStage(s, ev);
      SameStageTold(s, Step(s, ev), tr);
  }

  lemma OthersSameStage(s: State, ev: Event)
    requires ev.EvDispatch? || ev.EvDequeue? || ev.EvRequeue?
    ensures SameStage(s, Step(s, ev)) && Step(s, ev).log == s.log
  {
  }

  lemma {:induction false} RunTold(s: State, evs: seq<Event>, tr: seq<Fin>)
    requires Sound(s) && Told(s, tr) && Even(Classes(Run(s, evs).log))
    ensures Told(Run(s, evs), tr + Trace(s, evs))
    decreases |evs|
  {
    TraceSplits(s, evs, tr);
    if evs != [] {
      var s1 := Step(s, evs[0]);
      LogGrows(s1, evs[1..]);
      EvenBefore(s1.log, Run(s, evs).log);
      StepKeepsSound(s, evs[0]);
      StepTold(s, evs[0], tr);
      RunTold(s1, evs[1..], tr + Ends(s, evs[0]));
    }
  }

  lemma {:induction false} TraceSplits(s: State, evs: seq<Event>, tr: seq<Fin>)
    ensures evs == [] ==> tr + Trace(s, evs) == tr
    ensures evs != [] ==> tr + Trace(s, evs) == tr + Ends(s, evs[0]) + Trace(Step(s, evs[0]), evs[1..])
  {
  }

  lemma {:induction false} ModeStays(s: State, evs: seq<Event>)
    ensures Run(s, evs).mode == s.mode
    decreases |evs|
  {
    if evs != [] {
      StepKeepsMode(s, evs[0]);
      ModeStays(Step(s, evs[0]), evs[1..]);
    }
  }

  lemma StepKeepsMode(s: State, ev: Event)
    ensures Step(s, ev).mode == s.mode
  {
    match ev
    case EvAdd(cls, where) => if where.Back? { DispatchAllSameStage(s, where.moves); }
    case EvNext => NextKeepsMode(s);
    case _ =>
  }

  lemma {:induction false} NextKeepsMode(s: State)
    ensures Next(s).mode == s.mode
    decreases |s.queue|
  {
    if s.queue != [] && !s.ordseq.started && s.queue[0].who.Orig? && s.queue[0].who.rq.cls.Hard? {
      var s1 := Start(s);
      if !s1.ordseq.started && |s1.queue| < |s.queue| { NextKeepsMode(s1); }
    }
  }

  lemma {:induction false} ReachableTold(mode: Mode, evs: seq<Event>, s: State)
    requires s == Init(mode) && Even(Classes(Run(s, evs).log))
    ensures Sound(Run(s, evs)) && Run(s, evs).mode == mode && Told(Run(s, evs), Trace(s, evs))
  {
    assert Sound(s) by { InitOk(mode); }
    AllTold(s, evs);
  }

  lemma {:induction false} AllTold(s: State, evs: seq<Event>)
    requires Sound(s) && s.log == [] && s.done == {} && s.ordseq == IDLE && Even(Classes(Run(s, evs).log))
    ensures Sound(Run(s, evs)) && Run(s, evs).mode == s.mode && Told(Run(s, evs), Trace(s, evs))
  {
    NothingTold(s);
    RunKeepsSound(s, evs);
    RunTold(s, evs, []);
    ModeStays(s, evs);
    assert [] + Trace(s, evs) == Trace(s, evs);
  }

  lemma NothingTold(s: State)
    requires s.log == [] && s.done == {} && s.ordseq == IDLE
    ensures Told(s, [])
  {
  }

  // ---- The promise ------------------------------------------------------------------

  /** For a barrier that is complete the device has done exactly what the mode asks,
      each once and in order: flush, write, flush. */
  lemma {:induction false} BarrierIsOnDisk(mode: Mode, evs: seq<Event>, b: Req)
    requires Even(Classes(Run(Init(mode), evs).log))
    requires b in Run(Init(mode), evs).log && b.cls.Hard? && b in Run(Init(mode), evs).done
    ensures Stages(Trace(Init(mode), evs), b) == Asked(mode, b)
  {
    ReachableTold(mode, evs, Init(mode));
  }

  lemma {:induction false} ToldInOrder(s: State, tr: seq<Fin>, i: nat, rq: Req)
    requires Inv(s) && LogOk(s.log, |s.bars|) && Told(s, tr)
    requires i < |tr| && !tr[i].who.Orig? && rq in s.log && rq.cls.Fs?
    ensures rq.id < tr[i].bar.id ==> HasEnded(tr, rq)
    ensures forall j :: 0 <= j < |tr| && tr[j].who == Orig(rq) ==> (rq.id < tr[i].bar.id ==> j < i) && (tr[i].bar.id < rq.id ==> i < j)
  {
    var b := tr[i].bar;
    if rq.id < b.id {
      EpochOrder(s.log, |s.bars|, rq, b);
      EarlierIsDone(s, rq);
    } else if b.id < rq.id {
      EpochOrder(s.log, |s.bars|, b, rq);
    }
  }

  /** Whatever it does for a barrier comes after all that was added before the
      barrier, which has completed, and before all that was added after. */
  lemma {:induction false} InOrderOnDisk(mode: Mode, evs: seq<Event>, i: nat, rq: Req)
    requires Even(Classes(Run(Init(mode), evs).log))
    requires i < |Trace(Init(mode), evs)| && !Trace(Init(mode), evs)[i].who.Orig?
    requires rq in Run(Init(mode), evs).log && rq.cls.Fs?
    ensures var tr := Trace(Init(mode), evs);
      && tr[i].bar in Run(Init(mode), evs).log && tr[i].bar.cls.Hard?
      && (rq.id < tr[i].bar.id ==> HasEnded(tr, rq))
      && forall j :: 0 <= j < |tr| && tr[j].who == Orig(rq) ==> (rq.id < tr[i].bar.id ==> j < i) && (tr[i].bar.id < rq.id ==> i < j)
  {
    ReachableTold(mode, evs, Init(mode));
    ToldInOrder(Run(Init(mode), evs), Trace(Init(mode), evs), i, rq);
  }
}
