/**
 The batch and anticipation state machine of the anticipatory scheduler.

 Requests are queued per direction, dispatched in batches of one direction, and
 completed by the driver.  Clock readings and the guesses about process behaviour
 are inputs of each step.  Every assertion of the original that could fail sets
 `bug`.
 */
module AsBatch {
  import opened Options

  datatype RqState = New | Queued | Dispatched | Removed

  /** A request, whether it is synchronous, and the process context it is from. */
  datatype Rq = Rq(id: nat, sync: bool, ioc: nat, state: RqState)

  /** A dispatched request that has not completed. */
  datatype Held = Held(rq: Rq, atDriver: bool)

  datatype Antic = Off | WaitReq | WaitNext | Finished

  datatype As = As(
    syncs: seq<Rq>, asyncs: seq<Rq>, out: seq<Held>,
    sync: bool, changed: bool, newBatch: bool,
    writeMax: nat, writeLeft: nat, idled: bool,
    antic: Antic, ioc: Option<nat>, iocFinished: bool,
    nrDispatched: int, timer: bool, pending: nat, bug: bool)

  /** What one dispatch call reads from the clock and the process statistics;
      `pick` is the position of the cached next request. */
  datatype Hints = Hints(anticipates: bool, readExpired: bool, fifoExpired: bool, timeUp: bool, breaks: bool, pick: nat)

  // ---- Anticipation ---------------------------------------------------------

  predicate Waiting(s: As) {
    s.antic.WaitReq? || s.antic.WaitNext?
  }

  /** `as_antic_stop`. */
  function AnticStop(s: As): As {
    if Waiting(s) then s.(antic := Finished, timer := if s.antic.WaitNext? then false else s.timer) else s
  }

  /** `as_antic_waitnext`. */
  function AnticWaitNext(s: As): As {
    s.(bug := s.bug || !(s.antic.Off? || s.antic.WaitReq?), timer := true, antic := WaitNext)
  }

  /** `as_antic_waitreq`. */
  function AnticWaitReq(s: As): As {
    var t := s.(bug := s.bug || s.antic.Finished?);
    if !s.antic.Off? then t
    else if s.ioc.None? || s.iocFinished then AnticWaitNext(t)
    else t.(antic := WaitReq)
  }

  // ---- Dispatch --------------------------------------------------------------

  function QueueOf(s: As, sync: bool): seq<Rq> {
    if sync then s.syncs else s.asyncs
  }

  function Without(q: seq<Rq>, k: nat): seq<Rq>
    requires k < |q|
  {
    q[..k] + q[k + 1..]
  }

  function Drop(s: As, sync: bool, k: nat): As
    requires k < |QueueOf(s, sync)|
  {
    if sync then s.(syncs := Without(s.syncs, k)) else s.(asyncs := Without(s.asyncs, k))
  }

  /** Anticipation ends, and the process to anticipate on next is noted. */
  function Settled(s: As, rq: Rq, sync: bool): As {
    AnticStop(s).(antic := Off, iocFinished := false,
                  ioc := if sync then Some(rq.ioc) else None,
                  writeLeft := if !sync && s.writeLeft != 0 then s.writeLeft - 1 else s.writeLeft)
  }

  /** A request goes to the dispatch list. */
  function Handed(s: As, rq: Rq): As {
    s.(bug := s.bug || !rq.state.Queued?,
       out := s.out + [Held(rq.(state := Dispatched), false)],
       nrDispatched := s.nrDispatched + 1)
  }

  /** `as_move_to_dispatch`. */
  function MoveToDispatch(s: As, sync: bool, k: nat): As
    requires k < |QueueOf(s, sync)|
  {
    var rq := QueueOf(s, sync)[k];
    Handed(Drop(Settled(s, rq, sync), sync, k), rq)
  }

  /** `as_batch_expired`. */
  predicate BatchExpired(s: As, timeUp: bool) {
    !s.changed && !s.newBatch && (timeUp || (!s.sync && s.writeLeft == 0))
  }

  /** `as_can_anticipate`, given the answer about breaking anticipation. */
  predicate CanAnticipate(s: As, breaks: bool) {
    s.ioc.Some? && !s.antic.Finished? && !breaks
  }

  /** The end of `as_dispatch_request`: send request `k` of the batch direction,
      or wait for the other direction to drain. */
  function Send(s: As, k: nat): As
    requires k < |QueueOf(s, s.sync)|
  {
    if !s.changed then MoveToDispatch(s, s.sync, k)
    else
      var t := s.(bug := s.bug || s.newBatch);
      if s.nrDispatched != 0 then t
      else MoveToDispatch(t.(newBatch := s.sync || s.newBatch, changed := false), s.sync, k)
  }

  /** Start a batch of reads, or of writes after reads. */
  function Switch(s: As): As {
    if s.syncs != [] && !(s.asyncs != [] && s.sync) then
      Send(s.(bug := s.bug || (!s.sync && s.newBatch), changed := s.changed || !s.sync, sync := true), 0)
    else if s.asyncs != [] then
      Send(s.(changed := s.changed || s.sync, newBatch := if s.sync then false else s.newBatch,
              sync := false, writeLeft := s.writeMax, idled := false), 0)
    else s.(bug := true)
  }

  predicate Stays(s: As, h: Hints) {
    !(s.syncs != [] && s.asyncs != [] && BatchExpired(s, h.timeUp))
  }

  /** Continue the current batch, or anticipate, or turn to a new batch. */
  function Continue(s: As, h: Hints): As {
    if s.sync && h.anticipates && h.readExpired && s.syncs != [] then Send(s, 0)
    else if s.sync && h.anticipates && CanAnticipate(s, h.breaks) then AnticWaitReq(s)
    else if QueueOf(s, s.sync) != [] then Send(s, Position(s, h))
    else Switch(s)
  }

  /** Which request of the batch direction is next: the oldest if it has expired,
      else the cached one. */
  function Position(s: As, h: Hints): (k: nat)
    ensures QueueOf(s, s.sync) != [] ==> k < |QueueOf(s, s.sync)|
  {
    if h.fifoExpired || h.pick >= |QueueOf(s, s.sync)| then 0 else h.pick
  }

  /** A write batch notes that it ran out of writes while no reads waited. */
  function Noted(s: As): As {
    if !s.sync && s.syncs == [] && (s.writeLeft == 0 || s.asyncs == []) then s.(idled := true) else s
  }

  /** `as_dispatch_request`, not forced. */
  function Dispatch(s: As, h: Hints): As {
    var t := Noted(s);
    if (s.syncs == [] && s.asyncs == []) || Waiting(s) || s.changed then t
    else if Stays(t, h) then Continue(t, h)
    else Switch(t)
  }

  // ---- Completion ---------------------------------------------------------------

  /** `update_write_batch`. */
  function NewWriteMax(s: As, writeTime: nat, batch: nat): (w: nat)
    ensures w >= 1
  {
    var w :=
      if writeTime > batch && !s.idled then
        (if writeTime > batch * 3 then s.writeMax / 2 else s.writeMax - 1)
      else if writeTime < batch && s.writeLeft == 0 then
        (if batch > writeTime * 3 then s.writeMax * 2 else s.writeMax + 1)
      else s.writeMax;
    if w < 1 then 1 else w
  }

  /** Counting a completion, which may be the last of the old direction. */
  function Counted(s: As, k: nat): As
    requires k < |s.out|
  {
    var ends := s.changed && s.nrDispatched == 1;
    s.(out := s.out[..k] + s.out[k + 1..],
       changed := if ends then false else s.changed,
       newBatch := if ends && s.sync then true else s.newBatch,
       bug := s.bug || s.nrDispatched == 0,
       nrDispatched := s.nrDispatched - 1)
  }

  /** The first read of a new batch to complete starts its clock. */
  function Timed(s: As, sync: bool, writeTime: nat, batch: nat): As {
    if s.newBatch && s.sync == sync
    then s.(writeMax := NewWriteMax(s, writeTime, batch), newBatch := false)
    else s
  }

  /** The process anticipated on has been answered. */
  function Answered(s: As, ioc: nat): As {
    if s.ioc != Some(ioc) then s
    else
      var t := s.(iocFinished := true);
      if t.antic.WaitReq? then AnticWaitNext(t) else t
  }

  /** `as_completed_request`. */
  function Completed(s: As, k: nat, writeTime: nat, batch: nat): As
    requires k < |s.out|
  {
    var rq := s.out[k].rq;
    if !rq.state.Removed? then s.(out := s.out[..k] + s.out[k + 1..], bug := true)
    else Answered(Timed(Counted(s, k), rq.sync, writeTime, batch), rq.ioc)
  }

  // ---- Runs ------------------------------------------------------------------------

  datatype Event =
    | Add(id: nat, isSync: bool, from: nat, good: bool)
    | Merge(isSync: bool, k: nat)
    | Ask(hints: Hints)
    | Activate(k: nat)
    | Deactivate(k: nat)
    | Complete(k: nat, writeTime: nat, batch: nat)
    | Fire
    | Handle

  predicate Enabled(s: As, ev: Event) {
    match ev
    case Add(_, _, _, _) => true
    case Merge(d, k) => k < |QueueOf(s, d)|
    case Ask(_) => true
    case Activate(k) => k < |s.out| && !s.out[k].atDriver
    case Deactivate(k) => k < |s.out| && s.out[k].atDriver
    case Complete(k, _, _) => k < |s.out| && s.out[k].atDriver
    case Fire => s.timer
    case Handle => s.pending > 0
  }

  function Enqueued(s: As, rq: Rq): As {
    if rq.sync then s.(syncs := s.syncs + [rq]) else s.(asyncs := s.asyncs + [rq])
  }

  /** The anticipation part of `as_update_rq`; `good` says the new request breaks
      anticipation. */
  function Noticed(s: As, good: bool): As {
    if !Waiting(s) then s
    else
      var t := s.(bug := s.bug || s.ioc.None?);
      if good then AnticStop(t) else t
  }

  /** `as_add_request`. */
  function Added(s: As, id: nat, sync: bool, ioc: nat, good: bool): As {
    Noticed(Enqueued(s, Rq(id, sync, ioc, Queued)), good)
  }

  function Step(s: As, ev: Event): As
    requires Enabled(s, ev)
  {
    match ev
    case Add(id, d, ioc, good) => Added(s, id, d, ioc, good)
    case Merge(d, k) => Drop(s.(bug := s.bug || !QueueOf(s, d)[k].state.Queued?), d, k)
    case Ask(h) => Dispatch(s, h)
    case Activate(k) =>
      s.(bug := s.bug || !s.out[k].rq.state.Dispatched?,
         out := s.out[k := Held(s.out[k].rq.(state := Removed), true)])
    case Deactivate(k) =>
      s.(bug := s.bug || !s.out[k].rq.state.Removed?,
         out := s.out[k := Held(s.out[k].rq.(state := Dispatched), false)])
    case Complete(k, w, b) => Completed(s, k, w, b)
    case Fire => s.(timer := false, pending := s.pending + 1)
    case Handle =>
      var t := s.(pending := s.pending - 1);
      if Waiting(t) then t.(antic := Finished, bug := t.bug || t.ioc.None?) else t
  }

  predicate CanRun(s: As, evs: seq<Event>)
    decreases |evs|
  {
    evs == [] || (Enabled(s, evs[0]) && CanRun(Step(s, evs[0]), evs[1..]))
  }

  function Run(s: As, evs: seq<Event>): As
    requires CanRun(s, evs)
    decreases |evs|
  {
    if evs == [] then s else Run(Step(s, evs[0]), evs[1..])
  }

  /** `as_init_queue`. */
  function Init(writeMax: nat): As {
    As([], [], [], false, false, false, if writeMax < 2 then 2 else writeMax, 0, false, Off, None, false, 0, false, 0, false)
  }

  // ---- The invariant ---------------------------------------------------------------

  predicate AllQueued(q: seq<Rq>, sync: bool) {
    q == [] || (q[0].sync == sync && q[0].state.Queued? && AllQueued(q[1..], sync))
  }

  /** All outstanding requests have one direction and a state that matches where
      they are. */
  predicate AllOut(out: seq<Held>, sync: bool) {
    out == [] || (HeldOk(out[0], sync) && AllOut(out[1..], sync))
  }

  predicate HeldOk(h: Held, sync: bool) {
    h.rq.sync == sync && h.rq.state == if h.atDriver then Removed else Dispatched
  }

  /** The direction of the outstanding requests: the old one during a change. */
  function Direction(s: As): bool {
    s.sync != s.changed
  }

  predicate BatchOk(s: As) {
    && AllOut(s.out, Direction(s)) && s.nrDispatched == |s.out|
    && (s.changed ==> s.out != [])
    && (s.newBatch ==> s.sync && !s.changed)
    && s.writeMax >= 1
  }

  predicate AnticOk(s: As) {
    && (Waiting(s) ==> s.ioc.Some?)
    && (s.antic.WaitNext? ==> s.timer || s.pending > 0)
  }

  predicate Inv(s: As) {
    && AllQueued(s.syncs, true) && AllQueued(s.asyncs, false)
    && BatchOk(s) && AnticOk(s) && !s.bug
  }

  lemma {:induction false} QueuedAt(q: seq<Rq>, sync: bool, k: nat)
    requires AllQueued(q, sync) && k < |q|
    ensures q[k].sync == sync && q[k].state.Queued? && AllQueued(Without(q, k), sync)
  {
    if k == 0 {
      assert Without(q, 0) == q[1..];
    } else {
      QueuedAt(q[1..], sync, k - 1);
      assert Without(q, k)[0] == q[0] && Without(q, k)[1..] == Without(q[1..], k - 1);
    }
  }

  lemma {:induction false} QueuedAppend(q: seq<Rq>, sync: bool, rq: Rq)
    requires AllQueued(q, sync) && rq.sync == sync && rq.state.Queued?
    ensures AllQueued(q + [rq], sync)
  {
    if q != [] {
      QueuedAppend(q[1..], sync, rq);
      assert (q + [rq])[1..] == q[1..] + [rq];
    }
  }

  lemma {:induction false} OutAppend(out: seq<Held>, sync: bool, h: Held)
    requires AllOut(out, sync) && HeldOk(h, sync)
    ensures AllOut(out + [h], sync)
  {
    if out != [] {
      OutAppend(out[1..], sync, h);
      assert (out + [h])[1..] == out[1..] + [h];
    }
  }

  lemma {:induction false} OutAt(out: seq<Held>, sync: bool, k: nat)
    requires AllOut(out, sync) && k < |out|
    ensures HeldOk(out[k], sync) && AllOut(out[..k] + out[k + 1..], sync)
  {
    var r := out[..k] + out[k + 1..];
    if k == 0 {
      assert r == out[1..];
    } else {
      OutAt(out[1..], sync, k - 1);
      assert r[0] == out[0] && r[1..] == out[1..][..k - 1] + out[1..][k..];
    }
  }

  lemma {:induction false} OutPut(out: seq<Held>, sync: bool, k: nat, h: Held)
    requires AllOut(out, sync) && k < |out| && HeldOk(h, sync)
    ensures AllOut(out[k := h], sync)
  {
    if k == 0 {
      assert out[k := h][1..] == out[1..];
    } else {
      OutPut(out[1..], sync, k - 1, h);
      assert out[k := h][1..] == out[1..][k - 1 := h];
    }
  }

  // ---- Steps keep the invariant ------------------------------------------------------

  lemma DropKeepsInv(s: As, k: nat)
    requires Inv(s) && k < |QueueOf(s, s.sync)|
    ensures var rq := QueueOf(s, s.sync)[k];
      rq.sync == s.sync && rq.state.Queued? && Inv(Drop(Settled(s, rq, s.sync), s.sync, k))
  {
    QueuedAt(QueueOf(s, s.sync), s.sync, k);
  }

  lemma HandKeepsInv(s: As, rq: Rq)
    requires Inv(s) && !s.changed && rq.sync == s.sync && rq.state.Queued?
    ensures Inv(Handed(s, rq))
  {
    OutAppend(s.out, s.sync, Held(rq.(state := Dispatched), false));
  }

  lemma MoveKeepsInv(s: As, k: nat)
    requires Inv(s) && !s.changed && k < |QueueOf(s, s.sync)|
    ensures Inv(MoveToDispatch(s, s.sync, k))
  {
    var rq := QueueOf(s, s.sync)[k];
    DropKeepsInv(s, k);
    HandKeepsInv(Drop(Settled(s, rq, s.sync), s.sync, k), rq);
  }

  /** Everything `Send` needs: the invariant, except that a change of direction
      may have just been decided, with nothing outstanding perhaps. */
  predicate Deciding(s: As) {
    && AllQueued(s.syncs, true) && AllQueued(s.asyncs, false)
    && AllOut(s.out, Direction(s)) && s.nrDispatched == |s.out|
    && (s.newBatch ==> s.sync && !s.changed)
    && s.writeMax >= 1 && AnticOk(s) && !s.bug
  }

  lemma SendKeepsInv(s: As, k: nat)
    requires Deciding(s) && k < |QueueOf(s, s.sync)|
    ensures Inv(Send(s, k))
  {
    if !s.changed {
      MoveKeepsInv(s, k);
    } else if s.nrDispatched == 0 {
      MoveKeepsInv(s.(newBatch := s.sync || s.newBatch, changed := false), k);
    }
  }

  lemma SwitchKeepsInv(s: As)
    requires Inv(s) && !s.changed && (s.syncs != [] || s.asyncs != [])
    ensures Inv(Switch(s))
  {
    if s.syncs != [] && !(s.asyncs != [] && s.sync) {
      SendKeepsInv(s.(bug := s.bug || (!s.sync && s.newBatch), changed := s.changed || !s.sync, sync := true), 0);
    } else {
      SendKeepsInv(s.(changed := s.changed || s.sync, newBatch := if s.sync then false else s.newBatch,
                      sync := false, writeLeft := s.writeMax, idled := false), 0);
    }
  }

  lemma ContinueKeepsInv(s: As, h: Hints)
    requires Inv(s) && !s.changed && !Waiting(s) && (s.syncs != [] || s.asyncs != [])
    ensures Inv(Continue(s, h))
  {
    if s.sync && h.anticipates && h.readExpired && s.syncs != [] {
      SendKeepsInv(s, 0);
    } else if s.sync && h.anticipates && CanAnticipate(s, h.breaks) {
    } else if QueueOf(s, s.sync) != [] {
      SendKeepsInv(s, Position(s, h));
    } else {
      SwitchKeepsInv(s);
    }
  }

  lemma DispatchKeepsInv(s: As, h: Hints)
    requires Inv(s)
    ensures Inv(Dispatch(s, h))
  {
    var t := Noted(s);
    if !((s.syncs == [] && s.asyncs == []) || Waiting(s) || s.changed) {
      if Stays(t, h) {
        ContinueKeepsInv(t, h);
      } else {
        SwitchKeepsInv(t);
      }
    }
  }

  lemma CountedKeepsInv(s: As, k: nat)
    requires Inv(s) && k < |s.out|
    ensures Inv(Counted(s, k)) && s.out[k].rq.sync == Direction(s)
    ensures s.out[k].rq.state == if s.out[k].atDriver then Removed else Dispatched
  {
    OutAt(s.out, Direction(s), k);
    if s.changed && s.nrDispatched == 1 {
      assert s.out[..k] + s.out[k + 1..] == [];
    }
  }

  lemma TimedKeepsInv(s: As, sync: bool, writeTime: nat, batch: nat)
    requires Inv(s)
    ensures Inv(Timed(s, sync, writeTime, batch))
  {
  }

  lemma AnsweredKeepsInv(s: As, ioc: nat)
    requires Inv(s)
    ensures Inv(Answered(s, ioc))
  {
  }

  lemma CompletedKeepsInv(s: As, k: nat, writeTime: nat, batch: nat)
    requires Inv(s) && k < |s.out| && s.out[k].atDriver
    ensures Inv(Completed(s, k, writeTime, batch))
  {
    CountedKeepsInv(s, k);
    TimedKeepsInv(Counted(s, k), s.out[k].rq.sync, writeTime, batch);
    AnsweredKeepsInv(Timed(Counted(s, k), s.out[k].rq.sync, writeTime, batch), s.out[k].rq.ioc);
  }

  lemma AddedKeepsInv(s: As, id: nat, sync: bool, ioc: nat, good: bool)
    requires Inv(s)
    ensures Inv(Added(s, id, sync, ioc, good))
  {
    QueuedAppend(QueueOf(s, sync), sync, Rq(id, sync, ioc, Queued));
    NoticedKeepsInv(Enqueued(s, Rq(id, sync, ioc, Queued)), good);
  }

  lemma NoticedKeepsInv(s: As, good: bool)
    requires Inv(s)
    ensures Inv(Noticed(s, good))
  {
  }

  lemma MergedKeepsInv(s: As, sync: bool, k: nat)
    requires Inv(s) && k < |QueueOf(s, sync)|
    ensures Inv(Step(s, Merge(sync, k)))
  {
    QueuedAt(QueueOf(s, sync), sync, k);
  }

  lemma HandedKeepsInv(s: As, k: nat)
    requires Inv(s) && k < |s.out|
    ensures !s.out[k].atDriver ==> Inv(Step(s, Activate(k)))
    ensures s.out[k].atDriver ==> Inv(Step(s, Deactivate(k)))
  {
    OutAt(s.out, Direction(s), k);
    OutPut(s.out, Direction(s), k, Held(s.out[k].rq.(state := Removed), true));
    OutPut(s.out, Direction(s), k, Held(s.out[k].rq.(state := Dispatched), false));
  }

  lemma StepKeepsInv(s: As, ev: Event)
    requires Inv(s) && Enabled(s, ev)
    ensures Inv(Step(s, ev))
  {
    match ev
    case Add(id, d, ioc, good) => AddedKeepsInv(s, id, d, ioc, good);
    case Merge(d, k) => MergedKeepsInv(s, d, k);
    case Ask(h) => DispatchKeepsInv(s, h);
    case Activate(k) => HandedKeepsInv(s, k);
    case Deactivate(k) => HandedKeepsInv(s, k);
    case Complete(k, w, b) => CompletedKeepsInv(s, k, w, b);
    case Fire =>
    case Handle =>
  }

  lemma {:induction false} RunKeepsInv(s: As, evs: seq<Event>)
    requires Inv(s) && CanRun(s, evs)
    ensures Inv(Run(s, evs))
    decreases |evs|
  {
    if evs != [] {
      StepKeepsInv(s, evs[0]);
      RunKeepsInv(Step(s, evs[0]), evs[1..]);
    }
  }

  // ---- Promises ---------------------------------------------------------------------

  /** Dispatched and not completed requests always share one direction; during a
      batch change there are some, of the old direction. */
  lemma OneDirection(writeMax: nat, evs: seq<Event>, i: nat, j: nat)
    requires CanRun(Init(writeMax), evs)
    requires i < |Run(Init(writeMax), evs).out| && j < |Run(Init(writeMax), evs).out|
    ensures var s := Run(Init(writeMax), evs);
      && s.out[i].rq.sync == s.out[j].rq.sync
      && (s.changed ==> s.out[i].rq.sync != s.sync)
      && (!s.changed ==> s.out[i].rq.sync == s.sync)
  {
    RunKeepsInv(Init(writeMax), evs);
    var s := Run(Init(writeMax), evs);
    OutAt(s.out, Direction(s), i);
    OutAt(s.out, Direction(s), j);
  }

  /** No assertion of the scheduler fails, a batch change waits for requests that
      really are outstanding, and anticipation always has a process and, once the
      awaited request is done, a timer. */
  lemma NoAssertionFails(writeMax: nat, evs: seq<Event>)
    requires CanRun(Init(writeMax), evs)
    ensures var s := Run(Init(writeMax), evs);
      && !s.bug && s.nrDispatched == |s.out|
      && (s.changed ==> s.out != [])
      && (Waiting(s) ==> s.ioc.Some?)
      && (s.antic.WaitNext? ==> s.timer || s.pending > 0)
  {
    RunKeepsInv(Init(writeMax), evs);
  }

  // ---- Writes cannot hold reads off for ever ---------------------------------------------

  /** Writes sent by a run. */
  function WritesSent(s: As, evs: seq<Event>): nat
    requires CanRun(s, evs)
    decreases |evs|
  {
    if evs == [] then 0
    else (if SendsWrite(s, evs[0]) then 1 else 0) + WritesSent(Step(s, evs[0]), evs[1..])
  }

  predicate SendsWrite(s: As, ev: Event)
    requires Enabled(s, ev)
  {
    ev.Ask? && |Step(s, ev).asyncs| < |s.asyncs|
  }

  /** The device stays in a write batch with reads waiting. */
  predicate ReadsWait(s: As, evs: seq<Event>)
    requires CanRun(s, evs)
    decreases |evs|
  {
    !s.sync && s.syncs != [] && (evs != [] ==> ReadsWait(Step(s, evs[0]), evs[1..]))
  }

  /** Only dispatch calls change what a write batch has left. */
  lemma OthersKeepWrites(s: As, ev: Event)
    requires Enabled(s, ev) && !ev.Ask?
    ensures Step(s, ev).writeLeft == s.writeLeft
  {
    if ev.Complete? {
      CompletionKeepsWrites(s, ev.k, ev.writeTime, ev.batch);
    } else if ev.Add? {
      AddKeepsWrites(s, Rq(ev.id, ev.isSync, ev.from, Queued), ev.good);
    }
  }

  lemma AddKeepsWrites(s: As, rq: Rq, good: bool)
    ensures Noticed(Enqueued(s, rq), good).writeLeft == s.writeLeft
  {
  }

  lemma CompletionKeepsWrites(s: As, k: nat, writeTime: nat, batch: nat)
    requires k < |s.out|
    ensures Completed(s, k, writeTime, batch).writeLeft == s.writeLeft
  {
    assert Counted(s, k).writeLeft == s.writeLeft;
    assert Timed(Counted(s, k), s.out[k].rq.sync, writeTime, batch).writeLeft == s.writeLeft;
  }

  lemma OneWrite(s: As, ev: Event)
    requires Inv(s) && Enabled(s, ev) && !s.sync && s.syncs != [] && !Step(s, ev).sync
    ensures Step(s, ev).writeLeft + (if SendsWrite(s, ev) then 1 else 0) <= s.writeLeft
  {
    if !ev.Ask? {
      OthersKeepWrites(s, ev);
    }
  }

  /** While reads wait, a write batch sends no more writes than it has left. */
  lemma {:induction false} WriteBatchIsBounded(s: As, evs: seq<Event>)
    requires Inv(s) && CanRun(s, evs) && ReadsWait(s, evs)
    ensures WritesSent(s, evs) + Run(s, evs).writeLeft <= s.writeLeft
    decreases |evs|
  {
    if evs != [] {
      StepKeepsInv(s, evs[0]);
      assert ReadsWait(Step(s, evs[0]), evs[1..]);
      OneWrite(s, evs[0]);
      WriteBatchIsBounded(Step(s, evs[0]), evs[1..]);
    }
  }
}
