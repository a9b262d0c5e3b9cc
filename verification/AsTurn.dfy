/**
 What the anticipatory scheduler decides, told by its queues and its batch.

 A dispatch call sends nothing, sends one named request of the running batch, waits
 for the process it anticipates on, or turns to the other direction.  Which of them it
 is, is stated here on the state before and after the call.
 */
module AsTurn {
  import opened Options
  import opened AsBatch

  /** Request `k` of a direction was sent, and the batch has that direction. */
  predicate Sent(s: As, sync: bool, k: nat, t: As)
    requires k < |QueueOf(s, sync)|
  {
    var q := QueueOf(s, sync);
    && t.out == s.out + [Held(q[k].(state := Dispatched), false)]
    && QueueOf(t, sync) == q[..k] + q[k + 1..] && QueueOf(t, !sync) == QueueOf(s, !sync)
    && t.sync == sync && !t.changed
    && t.antic.Off? && !t.iocFinished && t.ioc == if sync then Some(q[k].ioc) else None
  }

  predicate NothingSent(s: As, t: As) {
    t.out == s.out && t.syncs == s.syncs && t.asyncs == s.asyncs
  }

  /** The batch turned to the other direction.  With nothing outstanding its oldest
      request was sent; else the change is pending. */
  predicate Turned(s: As, t: As)
    requires QueueOf(s, !s.sync) != []
  {
    && t.sync == !s.sync
    && (s.out == [] ==> Sent(s, !s.sync, 0, t) && t.newBatch == !s.sync)
    && (s.out != [] ==> NothingSent(s, t) && t.changed && !t.newBatch && t.antic == s.antic)
    && (s.sync ==> !t.idled && t.writeLeft == s.writeMax - if s.out == [] then 1 else 0)
  }

  /** Both directions have requests, and the batch has had its time or its writes. */
  predicate TurnDue(s: As, timeUp: bool) {
    && s.syncs != [] && s.asyncs != [] && !s.newBatch
    && (timeUp || (!s.sync && s.writeLeft == 0))
  }

  /** The scheduler holds back for the process of the last read. */
  predicate HoldsBack(s: As, h: Hints) {
    s.sync && h.anticipates && s.ioc.Some? && !s.antic.Finished? && !h.breaks
  }

  /** It waits for that process's request to complete, or for its next request with
      a timer. */
  predicate Awaits(s: As, t: As) {
    && NothingSent(s, t) && t.sync == s.sync && !t.changed && t.ioc == s.ioc
    && t.antic == (if s.iocFinished then WaitNext else WaitReq)
    && (s.iocFinished ==> t.timer)
  }

  /** A dispatch call took the state `s` to `t`. */
  predicate Decides(s: As, h: Hints, t: As) {
    var q := QueueOf(s, s.sync);
    if (s.syncs == [] && s.asyncs == []) || Waiting(s) || s.changed then
      NothingSent(s, t) && t.sync == s.sync && t.changed == s.changed && t.antic == s.antic
    else if TurnDue(s, h.timeUp) then Turned(s, t)
    else if s.sync && h.anticipates && h.readExpired && q != [] then Sent(s, s.sync, 0, t)
    else if HoldsBack(s, h) then Awaits(s, t)
    else if q == [] then QueueOf(s, !s.sync) != [] && Turned(s, t)
    else if h.fifoExpired || h.pick >= |q| then Sent(s, s.sync, 0, t)
    else Sent(s, s.sync, h.pick, t)
  }

  /** A write batch that ran out, of its share or of writes, while no reads waited is
      marked so that it is not timed; a new one starts unmarked. */
  predicate NotesIdle(s: As, t: As) {
    t.idled <==> !(s.sync && !t.sync) && (s.idled || (!s.sync && s.syncs == [] && (s.writeLeft == 0 || s.asyncs == [])))
  }

  lemma MoveSends(s: As, k: nat)
    requires k < |QueueOf(s, s.sync)| && !s.changed
    ensures Sent(s, s.sync, k, MoveToDispatch(s, s.sync, k))
    ensures Send(s, k) == MoveToDispatch(s, s.sync, k)
  {
  }

  lemma SwitchTurns(s: As)
    requires Inv(s) && !s.changed && QueueOf(s, !s.sync) != []
    requires s.syncs != [] || s.sync
    ensures Turned(s, Switch(s))
  {
    if s.sync {
      TurnsToWrites(s);
    } else {
      TurnsToReads(s);
    }
  }

  lemma TurnsToWrites(s: As)
    requires Inv(s) && !s.changed && s.sync && s.asyncs != []
    ensures Turned(s, Switch(s))
  {
    var u := s.(changed := true, newBatch := false, sync := false, writeLeft := s.writeMax, idled := false);
    assert Switch(s) == Send(u, 0);
    if s.out == [] {
      MoveSends(u.(changed := false), 0);
    }
  }

  lemma TurnsToReads(s: As)
    requires Inv(s) && !s.changed && !s.sync && s.syncs != []
    ensures Turned(s, Switch(s))
  {
    var u := s.(changed := true, sync := true);
    assert Switch(s) == Send(u, 0);
    if s.out == [] {
      MoveSends(u.(changed := false, newBatch := true), 0);
    }
  }

  /** Every dispatch call decides by this table. */
  lemma DispatchDecides(s: As, h: Hints)
    requires Inv(s)
    ensures Decides(s, h, Dispatch(s, h))
  {
    if !((s.syncs == [] && s.asyncs == []) || Waiting(s) || s.changed) {
      if TurnDue(s, h.timeUp) {
        assert Noted(s) == s;
        SwitchTurns(s);
      } else {
        BatchGoesOn(s, h);
      }
    }
  }

  lemma BatchGoesOn(s: As, h: Hints)
    requires Inv(s) && !Waiting(s) && !s.changed && !TurnDue(s, h.timeUp)
    requires s.syncs != [] || s.asyncs != []
    ensures Decides(s, h, Continue(Noted(s), h)) && Stays(Noted(s), h)
  {
    var t := Noted(s);
    if QueueOf(s, s.sync) == [] {
      if !HoldsBack(s, h) {
        SwitchTurns(t);
      }
    } else if s.sync && h.anticipates && h.readExpired {
      MoveSends(t, 0);
    } else if !HoldsBack(s, h) {
      MoveSends(t, if h.fifoExpired || h.pick >= |QueueOf(s, s.sync)| then 0 else h.pick);
    }
  }

  lemma MoveKeepsIdled(s: As, sync: bool, k: nat)
    requires k < |QueueOf(s, sync)|
    ensures MoveToDispatch(s, sync, k).idled == s.idled && MoveToDispatch(s, sync, k).sync == s.sync
  {
    var rq := QueueOf(s, sync)[k];
    var t := Settled(s, rq, sync);
    assert t.idled == s.idled && t.sync == s.sync;
    assert Drop(t, sync, k).idled == s.idled && Drop(t, sync, k).sync == s.sync;
  }

  lemma SendKeepsIdled(s: As, k: nat)
    requires k < |QueueOf(s, s.sync)|
    ensures Send(s, k).idled == s.idled && Send(s, k).sync == s.sync
  {
    if !s.changed {
      MoveKeepsIdled(s, s.sync, k);
    } else if s.nrDispatched == 0 {
      MoveKeepsIdled(s.(bug := s.bug || s.newBatch, newBatch := s.sync || s.newBatch, changed := false), s.sync, k);
    }
  }

  lemma SwitchNotesIdle(s: As)
    requires s.syncs != [] || s.asyncs != []
    ensures Switch(s).idled == (s.idled && Switch(s).sync)
  {
    if s.syncs != [] && !(s.asyncs != [] && s.sync) {
      SendKeepsIdled(s.(bug := s.bug || (!s.sync && s.newBatch), changed := s.changed || !s.sync, sync := true), 0);
    } else {
      SendKeepsIdled(s.(changed := s.changed || s.sync, newBatch := if s.sync then false else s.newBatch,
                        sync := false, writeLeft := s.writeMax, idled := false), 0);
    }
  }

  lemma DispatchNotesIdle(s: As, h: Hints)
    requires Inv(s)
    ensures NotesIdle(s, Dispatch(s, h))
  {
    var t := Noted(s);
    if !((s.syncs == [] && s.asyncs == []) || Waiting(s) || s.changed) {
      SwitchNotesIdle(t);
      if Stays(t, h) && QueueOf(s, s.sync) != [] {
        SendKeepsIdled(t, 0);
        SendKeepsIdled(t, Position(t, h));
      }
    }
  }

  // ---- Anticipation ------------------------------------------------------------------

  /** A new request goes to the end of its queue, and ends a wait if it is a good one. */
  lemma AddDecides(s: As, id: nat, sync: bool, ioc: nat, good: bool)
    requires Inv(s)
    ensures var t := Added(s, id, sync, ioc, good);
      && QueueOf(t, sync) == QueueOf(s, sync) + [Rq(id, sync, ioc, Queued)] && QueueOf(t, !sync) == QueueOf(s, !sync)
      && t.out == s.out && t.sync == s.sync && t.changed == s.changed
      && t.antic == (if Waiting(s) && good then Finished else s.antic)
  {
  }

  /** How often a run begins to wait. */
  function Waits(s: As, evs: seq<Event>): nat
    requires CanRun(s, evs)
    decreases |evs|
  {
    if evs == [] then 0
    else (if !Waiting(s) && Waiting(Step(s, evs[0])) then 1 else 0) + Waits(Step(s, evs[0]), evs[1..])
  }

  /** No request is sent in a run. */
  predicate SendsNone(s: As, evs: seq<Event>)
    requires CanRun(s, evs)
    decreases |evs|
  {
    evs == [] || ((evs[0].Ask? ==> Step(s, evs[0]).out == s.out) && SendsNone(Step(s, evs[0]), evs[1..]))
  }

  /** A wait that ends without a request being sent leaves the scheduler finished with
      anticipation, and that it stays. */
  lemma WaitEnds(s: As, ev: Event)
    requires Inv(s) && Enabled(s, ev) && (ev.Ask? ==> Step(s, ev).out == s.out)
    ensures s.antic.Finished? ==> Step(s, ev).antic.Finished?
    ensures Waiting(s) ==> Waiting(Step(s, ev)) || Step(s, ev).antic.Finished?
  {
    match ev
    case Add(id, d, ioc, good) => AddDecides(s, id, d, ioc, good);
    case Ask(h) => DispatchDecides(s, h);
    case Complete(k, w, b) => CompletionDecides(s, k, w, b);
    case _ =>
  }

  /** Between two requests sent, the scheduler waits at most once. */
  lemma {:induction false} WaitsAtMostOnce(s: As, evs: seq<Event>)
    requires Inv(s) && CanRun(s, evs) && SendsNone(s, evs)
    ensures Waits(s, evs) <= if s.antic.Off? then 1 else 0
    decreases |evs|
  {
    if evs != [] {
      StepKeepsInv(s, evs[0]);
      WaitEnds(s, evs[0]);
      WaitsAtMostOnce(Step(s, evs[0]), evs[1..]);
    }
  }

  // ---- Completion -------------------------------------------------------------------

  /** What a completion changes: the change of direction ends with the last outstanding
      request; the clock of a read batch starts with its first completed read, which is
      also when the size of a write batch is set anew. */
  lemma CompletionDecides(s: As, k: nat, writeTime: nat, batch: nat)
    requires Inv(s) && k < |s.out| && s.out[k].atDriver
    ensures var t := Completed(s, k, writeTime, batch);
      && t.out == s.out[..k] + s.out[k + 1..] && t.syncs == s.syncs && t.asyncs == s.asyncs && t.sync == s.sync
      && (t.changed <==> s.changed && |s.out| > 1)
      && (t.newBatch <==> s.changed && s.sync && |s.out| == 1)
      && (!s.newBatch ==> t.writeMax == s.writeMax)
      && t.ioc == s.ioc
      && (t.iocFinished <==> s.iocFinished || s.ioc == Some(s.out[k].rq.ioc))
      && (if s.antic.WaitReq? && s.ioc == Some(s.out[k].rq.ioc) then t.antic.WaitNext? && t.timer else t.antic == s.antic)
  {
    CountedKeepsInv(s, k);
  }

  // ---- The size of a write batch ------------------------------------------------------

  /** A batch that took too long while reads waited shrinks, one that used up its
      writes early grows, by at most a factor of two; any other stays. */
  lemma WriteBatchLearns(s: As, writeTime: nat, batch: nat)
    requires s.writeMax >= 1
    ensures var w := NewWriteMax(s, writeTime, batch);
      && s.writeMax <= 2 * w + 1 && w <= 2 * s.writeMax
      && (w < s.writeMax <==> writeTime > batch && !s.idled && s.writeMax > 1)
      && (w > s.writeMax <==> writeTime < batch && s.writeLeft == 0)
      && (w + 1 < s.writeMax ==> writeTime > 3 * batch)
      && (w > s.writeMax + 1 ==> 3 * writeTime < batch)
      && (writeTime > 3 * batch && !s.idled ==> 2 * w <= s.writeMax || w == 1)
      && (3 * writeTime < batch && s.writeLeft == 0 ==> w == 2 * s.writeMax)
  {
  }

  /** The longer a batch took, the fewer writes the next one gets. */
  lemma SlowerMeansFewer(s: As, a: nat, b: nat, batch: nat)
    requires a <= b && s.writeMax >= 1
    ensures NewWriteMax(s, a, batch) >= NewWriteMax(s, b, batch)
  {
  }

  // ---- Reads cannot hold writes off -----------------------------------------------------

  /** Reads sent by a run. */
  function ReadsSent(s: As, evs: seq<Event>): nat
    requires CanRun(s, evs)
    decreases |evs|
  {
    if evs == [] then 0
    else (if evs[0].Ask? && |Step(s, evs[0]).syncs| < |s.syncs| then 1 else 0) + ReadsSent(Step(s, evs[0]), evs[1..])
  }

  /** The device stays in a read batch with reads and writes waiting. */
  predicate BothWait(s: As, evs: seq<Event>)
    requires CanRun(s, evs)
    decreases |evs|
  {
    && s.sync && !s.changed && s.syncs != [] && s.asyncs != []
    && (evs != [] ==> BothWait(Step(s, evs[0]), evs[1..]))
  }

  predicate TimeIsUp(evs: seq<Event>) {
    evs == [] || ((evs[0].Ask? ==> evs[0].hints.timeUp) && TimeIsUp(evs[1..]))
  }

  /** Such a dispatch call finds an anticipation that had begun already. */
  lemma LateStep(s: As, ev: Event)
    requires Inv(s) && Enabled(s, ev) && s.sync && !s.changed && !s.newBatch
    requires s.syncs != [] && s.asyncs != []
    requires ev.Ask? ==> ev.hints.timeUp
    requires Step(s, ev).sync
    ensures !Step(s, ev).newBatch
    ensures ev.Ask? ==> Waiting(s) && Step(s, ev).syncs == s.syncs
  {
    match ev
    case Ask(h) => DispatchDecides(s, h);
    case Complete(k, w, b) => CompletionDecides(s, k, w, b);
    case _ =>
  }

  /** Once the time of a read batch is up and writes wait, no read is sent before the
      turn to writes. */
  lemma {:induction false} ReadBatchIsBounded(s: As, evs: seq<Event>)
    requires Inv(s) && !s.newBatch && CanRun(s, evs) && BothWait(s, evs) && TimeIsUp(evs)
    ensures ReadsSent(s, evs) == 0
    decreases |evs|
  {
    if evs != [] {
      var t := Step(s, evs[0]);
      StepKeepsInv(s, evs[0]);
      assert BothWait(t, evs[1..]);
      LateStep(s, evs[0]);
      ReadBatchIsBounded(t, evs[1..]);
    }
  }
}
