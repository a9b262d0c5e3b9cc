/**
 The request queue as an object: the fields that the block layer updates in
 place, with its BUG_ON and WARN_ON checks as assertions.  Every method carries
 out a step of the barrier protocol.
 */
module BarrierQueue {
  import B = Barrier
  import opened Options
  import opened Barrier
  import opened BarrierOrder
  import opened BarrierPromise

  class RequestQueue {
    const mode: Mode
    var sorted: set<Req>
    var queue: seq<Entry>
    var driver: seq<Who>
    var inFlight: nat
    var ordseq: OrdSeq
    var orig: Req
    var color: bool
    // history
    var log: seq<Req>
    var issued: set<Req>
    var done: set<Req>
    var bars: seq<Req>
    var epoch: nat

    ghost function Now(): State
      reads this
    {
      State(mode, sorted, queue, driver, inFlight, ordseq, orig, color, log, issued, done, bars, epoch, false)
    }

    ghost predicate Valid()
      reads this
    {
      Inv(Now()) && Fresh(Now())
    }

    constructor (mode: Mode)
      ensures Now() == Init(mode)
    {
      this.mode := mode;
      sorted, queue, driver, inFlight := {}, [], [], 0;
      ordseq, orig, color := IDLE, Req(0, Fs, false, 0), false;
      log, issued, done, bars, epoch := [], {}, {}, [], 0;
    }

    /** `blk_ordered_complete_seq`, its BUG_ON being the precondition. */
    method CompleteSeq(add: OrdSeq)
      requires !Overlap(ordseq, add)
      modifies this`ordseq, this`done, this`epoch
      ensures Now() == B.CompleteSeq(old(Now()), add)
    {
      ordseq := Merged(ordseq, add);
      if CurSeq(ordseq) != DONE {
        return;
      }
      ordseq := IDLE;
      done, epoch := done + {orig}, epoch + 1;
    }

    /** `start_ordered`: the sequence requests are pushed at the front, last one
        first. */
    method StartOrdered()
      requires ordseq == IDLE && queue != [] && queue[0].who.Orig? && queue[0].who.rq.cls.Hard?
      modifies this
      ensures Now() == Start(old(Now()))
    {
      var b := queue[0].who.rq;
      var skip := IDLE;
      ordseq := ordseq.(started := true);
      queue, orig := queue[1..], b;
      if mode.postflush && !b.cls.empty {
        queue := [Entry(PostFlush, false, true)] + queue;
      } else {
        skip := skip.(postflush := true);
      }
      if mode.bar && !b.cls.empty {
        queue := [Entry(Bar, false, true)] + queue;
      } else {
        skip := skip.(bar := true);
      }
      if mode.preflush {
        queue := [Entry(PreFlush, false, true)] + queue;
      } else {
        skip := skip.(preflush := true);
      }
      if inFlight == 0 {
        skip := skip.(drain := true);
      }
      assert queue == Sequence(old(Now()), b) && skip == Skipped(old(Now()), b);
      CompleteSeq(skip);
    }

    /** `elv_next_request`: the head of the list, if the barrier rules let the
        driver have it now. */
    method NextRequest() returns (rq: Option<Who>)
      requires Valid()
      modifies this
      ensures Valid() && Now() == Next(old(Now()))
      ensures rq.Some? ==> queue != [] && queue[0].who == rq.value && queue[0].started
      ensures rq.None? ==> issued == old(issued)
      ensures rq.None? ==> queue == [] || (ordseq.started && (!ordseq.drain || !queue[0].started))
    {
      NextKeepsInv(Now());
      NextKeepsFresh(Now());
      while queue != []
        invariant Inv(Now()) && Next(Now()) == old(Next(Now())) && issued == old(issued)
        decreases |queue|
      {
        var again;
        rq, again := DoOrdered();
        if !again {
          return;
        }
      }
      return None;
    }

    /** `blk_do_ordered` for the head of the list; `again` when a barrier needed
        nothing and is complete already. */
    method DoOrdered() returns (rq: Option<Who>, again: bool)
      requires Inv(Now()) && queue != []
      modifies this
      ensures again ==> Inv(Now()) && Next(Now()) == old(Next(Now())) && |queue| < |old(queue)|
      ensures !again ==> Now() == old(Next(Now()))
      ensures !again && rq.Some? ==> queue != [] && queue[0].who == rq.value && queue[0].started
      ensures again || rq.None? ==> issued == old(issued)
      ensures !again && rq.None? ==> queue == [] || (ordseq.started && (!ordseq.drain || !queue[0].started))
    {
      var w := queue[0].who;
      again := false;
      if ordseq.started {
        rq := UnderSequence();
      } else if w.Orig? && w.rq.cls.Hard? {
        rq, again := Begin();
      } else {
        Issue();
        rq := Some(w);
      }
    }

    /** A barrier is at the head of the list and no sequence runs. */
    method Begin() returns (rq: Option<Who>, again: bool)
      requires Inv(Now()) && queue != [] && !ordseq.started && queue[0].who.Orig? && queue[0].who.rq.cls.Hard?
      modifies this
      ensures again ==> Inv(Now()) && Now() == old(Start(Now())) && !ordseq.started && |queue| < |old(queue)|
      ensures !again ==> Now() == old(Next(Now()))
      ensures !again && rq.Some? ==> queue != [] && queue[0].who == rq.value && queue[0].started
      ensures again || rq.None? ==> issued == old(issued)
      ensures !again && rq.None? ==> queue == [] || (ordseq.started && (!ordseq.drain || !queue[0].started))
    {
      StartKeepsInv(Now());
      StageAtHead(Now());
      StartOrdered();
      rq, again := None, !ordseq.started;
      if ordseq.started {
        rq := FirstStage();
      }
    }

    /** A sequence has just begun: its first stage goes at once, if nothing is in
        flight. */
    method FirstStage() returns (rq: Option<Who>)
      requires ordseq.drain ==> queue != []
      modifies this`queue, this`issued
      ensures Now() == if ordseq.drain then MarkHead(old(Now())) else old(Now())
      ensures rq.Some? <==> ordseq.drain
      ensures rq.Some? ==> queue != [] && queue[0].who == rq.value && queue[0].started
    {
      if !ordseq.drain {
        return None;
      }
      rq := Some(queue[0].who);
      Issue();
    }

    /** A sequence is under way: its own requests go in their turn, other file
        system requests wait, and the late-request warning cannot trigger. */
    method UnderSequence() returns (rq: Option<Who>)
      requires Inv(Now()) && queue != [] && ordseq.started
      modifies this`queue, this`issued
      ensures Now() == Next(old(Now()))
      ensures rq.Some? ==> queue != [] && queue[0].who == rq.value && queue[0].started
      ensures rq.None? ==> issued == old(issued) && !queue[0].started
    {
      var w := queue[0].who;
      if !IsSpecial(w) {
        if IsFs(w) { FirstReqSeq(Now()); }
        StageOfHead(Now());
        assert !(ReqSeq(orig, w) < CurSeq(ordseq));
        if ReqSeq(orig, w) > CurSeq(ordseq) {
          return None;
        }
      }
      Issue();
      return Some(w);
    }

    /** The driver is shown the head of the list. */
    method Issue()
      requires queue != []
      modifies this`queue, this`issued
      ensures Now() == MarkHead(old(Now()))
    {
      var h := queue[0];
      queue := [h.(started := true)] + queue[1..];
      if h.who.Orig? { issued := issued + {h.who.rq}; }
    }

    /** `elv_dequeue_request`. */
    method DequeueRequest(i: nat)
      requires Valid() && i < |queue| && queue[i].started
      modifies this
      ensures Valid() && Now() == Step(old(Now()), EvDequeue(i))
    {
      DequeueKeepsInv(Now(), i);
      DequeueKeepsFresh(Now(), i);
      var w := queue[i].who;
      queue, driver := Without(queue, i), driver + [w];
      if Accounted(w) {
        inFlight := inFlight + 1;
      }
    }

    /** The walk of ELEVATOR_INSERT_REQUEUE. */
    method Walk(seqOf: nat) returns (at: nat)
      ensures at == RequeuePos(orig, queue, seqOf)
    {
      at := 0;
      assert queue[0..] == queue;
      while at < |queue| && seqOf > ReqSeq(orig, queue[at].who)
        invariant 0 <= at <= |queue|
        invariant RequeuePos(orig, queue, seqOf) == at + RequeuePos(orig, queue[at..], seqOf)
      {
        assert queue[at..][1..] == queue[at + 1..];
        at := at + 1;
      }
    }

    /** A request leaves the driver; the count in flight must not underflow. */
    method Take(i: nat)
      requires i < |driver| && (Accounted(driver[i]) ==> 0 < inFlight)
      modifies this`driver, this`inFlight
      ensures driver == Without(old(driver), i) && inFlight == Less(old(inFlight), old(driver)[i])
    {
      if Accounted(driver[i]) {
        inFlight := inFlight - 1;
      }
      driver := Without(driver, i);
    }

    method Reinsert(i: nat)
      requires i < |driver| && (Accounted(driver[i]) ==> 0 < inFlight)
      modifies this`driver, this`inFlight, this`queue
      ensures Now() == Requeue(old(Now()), i)
    {
      var w, at := driver[i], 0;
      Take(i);
      if ordseq.started {
        at := Walk(ReqSeq(orig, w));
      }
      queue := Put(queue, at, Entry(w, false, true));
    }

    /** `elv_requeue_request`. */
    method RequeueRequest(i: nat)
      requires Valid() && i < |driver|
      modifies this
      ensures Valid() && Now() == Step(old(Now()), EvRequeue(i))
    {
      RequeueKeepsInv(Now(), i);
      RequeueKeepsFresh(Now(), i);
      TakenCore(Now(), i);
      Reinsert(i);
    }

    /** The drain check at the end of `elv_completed_request`. */
    method CheckDrained()
      modifies this`ordseq, this`done, this`epoch
      ensures Now() == CheckDrain(old(Now()))
    {
      if ordseq.started {
        if inFlight == 0 && CurSeq(ordseq) == DRAIN && (queue == [] || ReqSeq(orig, queue[0].who) > DRAIN) {
          CompleteSeq(IDLE.(drain := true));
        }
      }
    }

    /** An ordinary request completes. */
    method FinishOrig(i: nat)
      requires i < |driver| && driver[i].Orig? && (Accounted(driver[i]) ==> 0 < inFlight)
      modifies this
      ensures Now() == Complete(old(Now()), i)
    {
      var rq := driver[i].rq;
      Take(i);
      done := done + {rq};
      CheckDrained();
    }

    /** A sequence request completes: `pre_flush_end_io`, `bar_end_io` and
        `post_flush_end_io`. */
    method FinishStage(i: nat)
      requires i < |driver| && !driver[i].Orig? && (Accounted(driver[i]) ==> 0 < inFlight)
      requires CurSeq(ordseq) == ReqSeq(orig, driver[i])
      modifies this
      ensures Now() == Complete(old(Now()), i)
    {
      var w := driver[i];
      Take(i);
      CheckDrained();
      assert CurSeq(ordseq) == ReqSeq(orig, w);
      match w {
        case PreFlush => CompleteSeq(IDLE.(preflush := true));
        case Bar => CompleteSeq(IDLE.(bar := true));
        case PostFlush => CompleteSeq(IDLE.(postflush := true));
      }
    }

    /** The driver reports a request complete. */
    method CompleteRequest(i: nat)
      requires Valid() && i < |driver|
      modifies this
      ensures Valid() && Now() == Step(old(Now()), EvComplete(i))
    {
      CompleteKeepsInv(Now(), i);
      CompleteKeepsFresh(Now(), i);
      TakenCore(Now(), i);
      if driver[i].Orig? {
        FinishOrig(i);
      } else {
        assert [driver[i]][0] == driver[i];
        FinishStage(i);
      }
    }

    /** `elv_drain_elevator`: the elevator places its requests as `moves` says. */
    method DrainElevator(moves: seq<(Req, nat)>)
      modifies this`sorted, this`queue
      ensures Now() == DispatchAll(old(Now()), moves)
    {
      var rest := moves;
      while rest != [] && rest[0].0 in sorted && rest[0].1 <= |queue| && Loose(queue[rest[0].1..])
        invariant DispatchAll(Now(), rest) == DispatchAll(old(Now()), moves)
        decreases |rest|
      {
        sorted := sorted - {rest[0].0};
        queue := Put(queue, rest[0].1, Entry(Orig(rest[0].0), false, false));
        rest := rest[1..];
      }
    }

    /** The new request gets the queue's colour, which a hard barrier flag turns. */
    method Color(cls: Cls) returns (rq: Req)
      modifies this`color, this`log, this`bars, this`epoch
      ensures rq == Newest(old(Now()), cls) && Now() == Enlist(old(Now()), cls)
    {
      rq := Req(|log|, cls, color, |bars|);
      if cls.Hard? || (cls.Special? && cls.hard) {
        color := !color;
      }
      if cls.Hard? {
        bars := bars + [rq];
      } else if cls.Special? && cls.hard && AllSpecial(Classes(log)) {
        bars, epoch := bars + [rq], epoch + 1;
      }
      log := log + [rq];
    }

    /** Colouring and insertion in `__elv_add_request` and `elv_insert`. */
    method Insert(cls: Cls, where: Where)
      modifies this
      ensures Now() == Add(old(Now()), cls, where)
    {
      if where.Back? {
        DrainElevator(where.moves);
      }
      var rq := Color(cls);
      match where {
        case Sort => sorted := sorted + {rq};
        case Front => queue := [Entry(Orig(rq), false, true)] + queue;
        case Back(_) => queue := queue + [Entry(Orig(rq), false, true)];
      }
    }

    /** `__elv_add_request`. */
    method AddRequest(cls: Cls, where: Where)
      requires CanAdd(Now(), cls, where)
      modifies this
      ensures Now() == Step(old(Now()), EvAdd(cls, where))
      ensures old(Valid()) && (cls.Special? || old(InColour(Now()))) ==> Valid()
    {
      if Valid() && (cls.Special? || InColour(Now())) {
        AddKeepsInv(Now(), cls, where);
        AddKeepsFresh(Now(), cls, where);
      }
      Insert(cls, where);
    }
  }
}
