/**
 I/O barriers on a queue that orders by draining.

 A barrier request is replaced by a sequence: wait until the requests before it
 are done, flush the cache, write the barrier, flush again.  Requests carry one
 colour bit that tells which side of a barrier they are on.  The model follows
 requests from their arrival, through the elevator, the dispatch list and the
 driver, to their completion, with requeues at any time.
 */
module Barrier {

  /** File system requests, barriers among them, and special requests.  A special
      request may carry the hard barrier flag. */
  datatype Cls = Fs | Hard(empty: bool) | Special(hard: bool)

  /** `color` is REQ_ORDERED_COLOR.  `epoch` is history: how many barriers were
      added before the request, the hard special requests that came before any
      file system request counting as well. */
  datatype Req = Req(id: nat, cls: Cls, color: bool, epoch: nat)

  datatype Who = Orig(rq: Req) | PreFlush | Bar | PostFlush

  /** A request on the dispatch list; `stop` is REQ_SOFTBARRIER or
      REQ_HARDBARRIER. */
  datatype Entry = Entry(who: Who, started: bool, stop: bool)

  /** The bits of `q->ordseq`. */
  datatype OrdSeq = OrdSeq(started: bool, drain: bool, preflush: bool, bar: bool, postflush: bool)

  /** What a drain mode asks for: QUEUE_ORDERED_DO_PREFLUSH, DO_BAR, DO_POSTFLUSH. */
  datatype Mode = Mode(preflush: bool, bar: bool, postflush: bool)

  const DRAIN := 2
  const PREFLUSH := 4
  const BAR := 8
  const POSTFLUSH := 16
  const DONE := 32
  const IDLE := OrdSeq(false, false, false, false, false)

  datatype State = State(
    mode: Mode,
    sorted: set<Req>, queue: seq<Entry>, driver: seq<Who>, inFlight: nat,
    ordseq: OrdSeq, orig: Req, color: bool,
    // history: what was added, issued and completed, the barriers in the order
    // they were added, the number of sequences finished, and whether a kernel
    // assertion failed
    log: seq<Req>, issued: set<Req>, done: set<Req>, bars: seq<Req>, epoch: nat, bug: bool)

  predicate IsFs(w: Who) {
    w.Orig? && !w.rq.cls.Special?
  }

  predicate IsSpecial(w: Who) {
    w.Orig? && w.rq.cls.Special?
  }

  // ---- blk-barrier.c -----------------------------------------------------

  /** `blk_ordered_cur_seq`: the lowest bit not yet set. */
  function CurSeq(o: OrdSeq): nat {
    if !o.started then 0
    else if !o.drain then DRAIN
    else if !o.preflush then PREFLUSH
    else if !o.bar then BAR
    else if !o.postflush then POSTFLUSH
    else DONE
  }

  /** `blk_ordered_req_seq`. */
  function ReqSeq(orig: Req, w: Who): nat {
    match w
    case PreFlush => PREFLUSH
    case Bar => BAR
    case PostFlush => POSTFLUSH
    case Orig(rq) => if rq.cls.Special? || rq.color == orig.color then DRAIN else DONE
  }

  function Merged(o: OrdSeq, add: OrdSeq): OrdSeq {
    OrdSeq(o.started, o.drain || add.drain, o.preflush || add.preflush, o.bar || add.bar, o.postflush || add.postflush)
  }

  predicate Overlap(o: OrdSeq, add: OrdSeq) {
    (o.drain && add.drain) || (o.preflush && add.preflush) || (o.bar && add.bar) || (o.postflush && add.postflush)
  }

  /** `blk_ordered_complete_seq`: bits are set, and the original barrier ends
      with the last one.  A bit set twice trips a BUG_ON. */
  function CompleteSeq(s: State, add: OrdSeq): State {
    var o := Merged(s.ordseq, add);
    var bug := s.bug || Overlap(s.ordseq, add);
    if CurSeq(o) != DONE then s.(ordseq := o, bug := bug)
    else s.(ordseq := IDLE, done := s.done + {s.orig}, epoch := s.epoch + 1, bug := bug)
  }

  function One(w: Who, want: bool): seq<Entry> {
    if want then [Entry(w, false, true)] else []
  }

  /** The list a new sequence starts from. */
  function Sequence(s: State, b: Req): seq<Entry>
    requires s.queue != [] && b.cls.Hard?
  {
    One(PreFlush, s.mode.preflush) +
    (One(Bar, s.mode.bar && !b.cls.empty) + (One(PostFlush, s.mode.postflush && !b.cls.empty) + s.queue[1..]))
  }

  /** The state in which `start_ordered` completes the skipped stages. */
  function Begun(s: State, b: Req): State
    requires s.queue != [] && b.cls.Hard?
  {
    s.(ordseq := IDLE.(started := true), orig := b, queue := Sequence(s, b))
  }

  /** The stages `start_ordered` completes at once. */
  function Skipped(s: State, b: Req): OrdSeq
    requires b.cls.Hard?
  {
    OrdSeq(false, s.inFlight == 0, !s.mode.preflush, !(s.mode.bar && !b.cls.empty), !(s.mode.postflush && !b.cls.empty))
  }

  /** `start_ordered`, the barrier being at the head of the dispatch list. */
  function Start(s: State): State
    requires s.queue != [] && s.queue[0].who.Orig? && s.queue[0].who.rq.cls.Hard?
  {
    var b := s.queue[0].who.rq;
    CompleteSeq(Begun(s, b), Skipped(s, b))
  }

  // ---- elevator.c --------------------------------------------------------

  /** Requests counted in `q->in_flight` while the driver has them. */
  predicate Accounted(w: Who) {
    IsFs(w) || w.Bar?
  }

  function Without<T>(d: seq<T>, i: nat): seq<T>
    requires i < |d|
  {
    d[..i] + d[i + 1..]
  }

  function Put<T>(q: seq<T>, i: nat, e: T): seq<T>
    requires i <= |q|
  {
    q[..i] + [e] + q[i..]
  }

  function Less(n: nat, w: Who): nat {
    if Accounted(w) && n > 0 then n - 1 else n
  }

  /** The head of the dispatch list goes to the driver's attention. */
  function MarkHead(s: State): State
    requires s.queue != []
  {
    var h := s.queue[0];
    s.(queue := [h.(started := true)] + s.queue[1..],
       issued := if h.who.Orig? then s.issued + {h.who.rq} else s.issued)
  }

  /** `elv_next_request` with `blk_do_ordered`, the elevator adding nothing. */
  function Next(s: State): State
    decreases |s.queue|
  {
    if s.queue == [] then s
    else
      var w := s.queue[0].who;
      if !s.ordseq.started then
        if w.Orig? && w.rq.cls.Hard? then
          var s1 := Start(s);
          if !s1.ordseq.started && |s1.queue| < |s.queue| then Next(s1)
          else if s1.queue == [] || !s1.ordseq.drain then s1
          else MarkHead(s1)
        else MarkHead(s)
      else if IsSpecial(w) then MarkHead(s)
      else if ReqSeq(s.orig, w) > CurSeq(s.ordseq) then s
      else MarkHead(s.(bug := s.bug || ReqSeq(s.orig, w) < CurSeq(s.ordseq)))
  }

  /** `elv_dequeue_request` of a request the driver was shown. */
  function Dequeue(s: State, i: nat): State
    requires i < |s.queue|
  {
    var w := s.queue[i].who;
    s.(queue := Without(s.queue, i), driver := s.driver + [w],
       inFlight := if Accounted(w) then s.inFlight + 1 else s.inFlight)
  }

  /** The walk of ELEVATOR_INSERT_REQUEUE. */
  function RequeuePos(orig: Req, q: seq<Entry>, seqOf: nat): (i: nat)
    ensures i <= |q|
  {
    if q == [] || seqOf <= ReqSeq(orig, q[0].who) then 0 else 1 + RequeuePos(orig, q[1..], seqOf)
  }

  /** `elv_requeue_request`. */
  function Requeue(s: State, i: nat): State
    requires i < |s.driver|
  {
    var w := s.driver[i];
    var at := if s.ordseq.started then RequeuePos(s.orig, s.queue, ReqSeq(s.orig, w)) else 0;
    s.(driver := Without(s.driver, i), inFlight := Less(s.inFlight, w),
       bug := s.bug || (Accounted(w) && s.inFlight == 0),
       queue := Put(s.queue, at, Entry(w, false, true)))
  }

  /** The end of `elv_completed_request`: is the drain over? */
  function CheckDrain(s: State): State {
    if && s.ordseq.started && s.inFlight == 0 && CurSeq(s.ordseq) == DRAIN
       && (s.queue == [] || ReqSeq(s.orig, s.queue[0].who) > DRAIN)
    then CompleteSeq(s, IDLE.(drain := true))
    else s
  }

  /** A request completes. */
  function Complete(s: State, i: nat): State
    requires i < |s.driver|
  {
    var w := s.driver[i];
    var s1 := s.(driver := Without(s.driver, i), inFlight := Less(s.inFlight, w),
                 bug := s.bug || (Accounted(w) && s.inFlight == 0));
    match w
    case Orig(rq) => CheckDrain(s1.(done := s1.done + {rq}))
    case PreFlush => CompleteSeq(CheckDrain(s1), IDLE.(preflush := true))
    case Bar => CompleteSeq(CheckDrain(s1), IDLE.(bar := true))
    case PostFlush => CompleteSeq(CheckDrain(s1), IDLE.(postflush := true))
  }

  /** Everything from position `i` on may be passed by `elv_dispatch_sort`. */
  predicate Loose(q: seq<Entry>) {
    q == [] || (!q[0].stop && !q[0].started && Loose(q[1..]))
  }

  /** The elevator hands over one of its requests. */
  predicate CanDispatch(s: State, rq: Req, at: nat) {
    rq in s.sorted && at <= |s.queue| && Loose(s.queue[at..])
  }

  function Dispatch(s: State, rq: Req, at: nat): State
    requires at <= |s.queue|
  {
    s.(sorted := s.sorted - {rq}, queue := Put(s.queue, at, Entry(Orig(rq), false, false)))
  }

  function DispatchAll(s: State, moves: seq<(Req, nat)>): State
    decreases |moves|
  {
    if moves == [] then s
    else if CanDispatch(s, moves[0].0, moves[0].1) then DispatchAll(Dispatch(s, moves[0].0, moves[0].1), moves[1..])
    else s
  }

  datatype Where = Sort | Back(moves: seq<(Req, nat)>) | Front

  /** The classes of the requests added so far. */
  function Classes(log: seq<Req>): (cs: seq<Cls>)
    ensures |cs| == |log|
  {
    if log == [] then [] else Classes(log[..|log| - 1]) + [log[|log| - 1].cls]
  }

  predicate AllSpecial(cs: seq<Cls>) {
    cs == [] || (cs[|cs| - 1].Special? && AllSpecial(cs[..|cs| - 1]))
  }

  /** A hard special request before any file system request begins a new epoch of
      history: it turns the colour, and there is nothing yet to keep apart. */
  predicate Turns(s: State, cls: Cls) {
    cls.Special? && cls.hard && AllSpecial(Classes(s.log))
  }

  /** The new request gets the current colour; a hard barrier flag toggles it. */
  function Enlist(s: State, cls: Cls): State {
    s.(log := s.log + [Newest(s, cls)],
       color := if cls.Hard? || (cls.Special? && cls.hard) then !s.color else s.color,
       bars := if cls.Hard? || Turns(s, cls) then s.bars + [Newest(s, cls)] else s.bars,
       epoch := if Turns(s, cls) then s.epoch + 1 else s.epoch)
  }

  function Newest(s: State, cls: Cls): Req {
    Req(|s.log|, cls, s.color, |s.bars|)
  }

  /** `__elv_add_request`.  A back insertion first empties the elevator. */
  function Add(s: State, cls: Cls, where: Where): State {
    match where
    case Sort => Enlist(s, cls).(sorted := s.sorted + {Newest(s, cls)})
    case Front => Enlist(s, cls).(queue := [Entry(Orig(Newest(s, cls)), false, true)] + s.queue)
    case Back(moves) => AddBack(DispatchAll(s, moves), cls)
  }

  function AddBack(s: State, cls: Cls): State {
    Enlist(s, cls).(queue := s.queue + [Entry(Orig(Newest(s, cls)), false, true)])
  }

  /** How the source places a class of request.  No file system request is put at
      the front; barriers and special requests do not go to the elevator; and a
      forced dispatch leaves the elevator empty. */
  predicate CanAdd(s: State, cls: Cls, where: Where) {
    match where
    case Sort => cls.Fs?
    case Front => cls.Special?
    case Back(moves) => DispatchAll(s, moves).sorted == {}
  }

  datatype Event =
    | EvAdd(cls: Cls, where: Where)
    | EvDispatch(rq: Req, at: nat)
    | EvNext
    | EvDequeue(i: nat)
    | EvComplete(i: nat)
    | EvRequeue(i: nat)

  function Step(s: State, ev: Event): State {
    match ev
    case EvAdd(cls, where) => if CanAdd(s, cls, where) then Add(s, cls, where) else s
    case EvDispatch(rq, at) => if CanDispatch(s, rq, at) then Dispatch(s, rq, at) else s
    case EvNext => Next(s)
    case EvDequeue(i) => if i < |s.queue| && s.queue[i].started then Dequeue(s, i) else s
    case EvComplete(i) => if i < |s.driver| then Complete(s, i) else s
    case EvRequeue(i) => if i < |s.driver| then Requeue(s, i) else s
  }

  function Init(mode: Mode): State {
    State(mode, {}, [], [], 0, IDLE, Req(0, Fs, false, 0), false, [], {}, {}, [], 0, false)
  }

  function Run(s: State, evs: seq<Event>): State
    decreases |evs|
  {
    if evs == [] then s else Run(Step(s, evs[0]), evs[1..])
  }
}
