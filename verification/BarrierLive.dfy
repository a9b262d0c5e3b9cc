/**
 Nothing gets stuck: while a sequence runs or a request is on the dispatch list,
 either the driver holds a request or the next call of `elv_next_request` shows it
 one, unless all that was left were barriers that needed no work.
 */
module BarrierLive {
  import opened Barrier
  import opened BarrierOrder
  import opened BarrierPromise

  /** A drain that waits, waits for the driver or for the head of the list. */
  ghost predicate Awake(s: State) {
    s.ordseq.started && CurSeq(s.ordseq) == DRAIN && s.driver == [] ==>
      s.queue != [] && ReqSeq(s.orig, s.queue[0].who) == DRAIN
  }

  /** The elevator cannot put a request before the one a drain waits for. */
  lemma DispatchAwake(s: State, rq: Req, at: nat)
    requires Inv(s) && Awake(s) && CanDispatch(s, rq, at)
    ensures Awake(Dispatch(s, rq, at))
  {
    if s.ordseq.started && CurSeq(s.ordseq) == DRAIN && s.driver == [] {
      if at == 0 {
        assert s.queue[0..] == s.queue;
        LeadingEntry(s.queue, s.epoch, DRAIN, |s.bars|);
        FirstReqSeq(s);
      } else {
        PutLater(s.queue, at, Entry(Orig(rq), false, false));
      }
    }
  }

  lemma {:induction false} DispatchAllAwake(s: State, moves: seq<(Req, nat)>)
    requires Inv(s) && Awake(s)
    ensures Awake(DispatchAll(s, moves))
    decreases |moves|
  {
    if moves != [] && CanDispatch(s, moves[0].0, moves[0].1) {
      DispatchKeepsInv(s, moves[0].0, moves[0].1);
      DispatchAwake(s, moves[0].0, moves[0].1);
      DispatchAllAwake(Dispatch(s, moves[0].0, moves[0].1), moves[1..]);
    }
  }

  lemma {:induction false} NextAwake(s: State)
    requires Inv(s) && Awake(s)
    ensures Awake(Next(s))
    decreases |s.queue|
  {
    if s.queue != [] && !s.ordseq.started && s.queue[0].who.Orig? && s.queue[0].who.rq.cls.Hard? {
      var s1 := Start(s);
      StartKeepsInv(s);
      if !s1.ordseq.started && |s1.queue| < |s.queue| { NextAwake(s1); }
    }
  }

  lemma CompleteAwake(s: State, i: nat)
    requires Inv(s) && i < |s.driver|
    ensures Awake(Complete(s, i))
  {
    TakenCore(s, i);
    if s.queue != [] { ReqSeqLow(s.orig, s.queue[0].who); }
  }

  lemma RequeueAwake(s: State, i: nat)
    requires Inv(s) && i < |s.driver|
    ensures Awake(Requeue(s, i))
  {
    TakenCore(s, i);
    var w := s.driver[i];
    if s.ordseq.started && CurSeq(s.ordseq) == DRAIN {
      assert DriverOk([w], s.epoch, DRAIN);
      if s.queue != [] { ReqSeqLow(s.orig, s.queue[0].who); }
      PutFirst(s.queue, Entry(w, false, true));
    }
  }

  lemma StepKeepsAwake(s: State, ev: Event)
    requires Inv(s) && Awake(s)
    ensures Awake(Step(s, ev))
  {
    match ev
    case EvAdd(cls, where) => if where.Back? { DispatchAllAwake(s, where.moves); }
    case EvDispatch(rq, at) => if CanDispatch(s, rq, at) { DispatchAwake(s, rq, at); }
    case EvNext => NextAwake(s);
    case EvDequeue(i) =>
    case EvComplete(i) => if i < |s.driver| { CompleteAwake(s, i); }
    case EvRequeue(i) => if i < |s.driver| { RequeueAwake(s, i); }
  }

  lemma {:induction false} RunKeepsAwake(s: State, evs: seq<Event>)
    requires Sound(s) && Awake(s) && Even(Classes(Run(s, evs).log))
    ensures Awake(Run(s, evs))
    decreases |evs|
  {
    if evs != [] {
      var s1 := Step(s, evs[0]);
      LogGrows(s1, evs[1..]);
      EvenBefore(s1.log, Run(s, evs).log);
      StepKeepsSound(s, evs[0]);
      StepKeepsAwake(s, evs[0]);
      RunKeepsAwake(s1, evs[1..]);
    }
  }

  /** The request of the current stage, past the drain. */
  function StageRequest(o: OrdSeq): Who {
    if !o.preflush then PreFlush else if !o.bar then Bar else PostFlush
  }

  /** Past the drain, the current stage's request comes first among those that are
      not special. */
  lemma StageIsFirst(s: State)
    requires Inv(s) && s.ordseq.started && DRAIN < CurSeq(s.ordseq) && s.driver == []
    ensures s.queue != [] && (IsSpecial(s.queue[0].who) || ReqSeq(s.orig, s.queue[0].who) == CurSeq(s.ordseq))
  {
    FirstIsLeast(s.queue, s.epoch, CurSeq(s.ordseq), StageRequest(s.ordseq));
    StageOfHead(s);
  }

  lemma ShowsNext(s: State)
    requires Inv(s) && Awake(s) && s.ordseq.started && s.driver == []
    ensures Next(s).queue != [] && Next(s).queue[0].started
  {
    if CurSeq(s.ordseq) > DRAIN { StageIsFirst(s); }
  }

  /** Without a sequence, the head of the list is shown; barriers that need nothing are
      finished on the way. */
  lemma {:induction false} IdleShows(s: State)
    requires Inv(s) && !s.ordseq.started && s.driver == []
    ensures Next(s).queue == [] || Next(s).queue[0].started
    decreases |s.queue|
  {
    if s.queue != [] && s.queue[0].who.Orig? && s.queue[0].who.rq.cls.Hard? {
      StartKeepsInv(s);
      StageAtHead(s);
      if !Start(s).ordseq.started { IdleShows(Start(s)); }
    }
  }

  lemma InitAwake(mode: Mode)
    ensures Awake(Init(mode))
  {
  }

  lemma ReachableAwake(mode: Mode, evs: seq<Event>)
    requires Even(Classes(Run(Init(mode), evs).log))
    ensures Sound(Run(Init(mode), evs)) && Awake(Run(Init(mode), evs))
  {
    InitOk(mode);
    InitAwake(mode);
    RunKeepsSound(Init(mode), evs);
    RunKeepsAwake(Init(mode), evs);
  }

  /** With nothing at the driver, the next call shows it a request if a sequence runs,
      and otherwise if the list is not empty after it. */
  lemma NeverStuck(mode: Mode, evs: seq<Event>)
    requires Even(Classes(Run(Init(mode), evs).log))
    ensures var s := Run(Init(mode), evs);
            s.driver == [] ==> if Next(s).queue == [] then !s.ordseq.started else Next(s).queue[0].started
  {
    var s := Run(Init(mode), evs);
    ReachableAwake(mode, evs);
    if s.driver == [] {
      if s.ordseq.started { ShowsNext(s); } else { IdleShows(s); }
    }
  }
}
