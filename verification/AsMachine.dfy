/**
 The anticipatory scheduler's data, updated in place, with its BUG_ON and WARN_ON
 checks as assertions.  Every method carries out a step of the state machine.
 */
module AsMachine {
  import opened Options
  import opened AsBatch
  import AsTurn

  /** `struct as_data`, without what only feeds the statistics. */
  class AsData {
    var syncs: seq<Rq>
    var asyncs: seq<Rq>
    var out: seq<Held>
    var sync: bool
    var changed: bool
    var newBatch: bool
    var writeMax: nat
    var writeLeft: nat
    var idled: bool
    var antic: Antic
    var ioc: Option<nat>
    var iocFinished: bool
    var nrDispatched: int
    var timer: bool
    var pending: nat

    ghost function Now(): As
      reads this
    {
      As(syncs, asyncs, out, sync, changed, newBatch, writeMax, writeLeft, idled, antic, ioc, iocFinished,
         nrDispatched, timer, pending, false)
    }

    ghost predicate Valid()
      reads this
    {
      Inv(Now())
    }

    constructor (max: nat)
      ensures Now() == Init(max) && Valid()
    {
      syncs, asyncs, out, sync, changed, newBatch := [], [], [], false, false, false;
      writeMax, writeLeft, idled := if max < 2 then 2 else max, 0, false;
      antic, ioc, iocFinished, nrDispatched, timer, pending := Off, None, false, 0, false, 0;
    }

    /** `as_antic_stop`. */
    method StopWaiting()
      modifies this`antic, this`timer
      ensures Now() == AnticStop(old(Now()))
    {
      if antic.WaitReq? || antic.WaitNext? {
        if antic.WaitNext? {
          timer := false;
        }
        antic := Finished;
      }
    }

    /** `as_antic_waitnext`, its BUG_ON being the precondition. */
    method StartTimer()
      requires antic.Off? || antic.WaitReq?
      modifies this`antic, this`timer
      ensures Now() == AnticWaitNext(old(Now()))
    {
      timer, antic := true, WaitNext;
    }

    /** `as_antic_waitreq`. */
    method StartWaiting()
      requires !antic.Finished?
      modifies this`antic, this`timer
      ensures Now() == AnticWaitReq(old(Now()))
    {
      if antic.Off? {
        if ioc.None? || iocFinished {
          StartTimer();
        } else {
          antic := WaitReq;
        }
      }
    }

    /** `as_move_to_dispatch`. */
    method Move(k: nat)
      requires k < |QueueOf(Now(), sync)| && QueueOf(Now(), sync)[k].state.Queued?
      modifies this`antic, this`timer, this`ioc, this`iocFinished, this`writeLeft,
               this`syncs, this`asyncs, this`out, this`nrDispatched
      ensures Now() == MoveToDispatch(old(Now()), sync, k)
      ensures |out| == |old(out)| + 1
    {
      var rq := if sync then syncs[k] else asyncs[k];
      Settle(rq);
      Remove(k);
      Hand(rq);
    }

    method Settle(rq: Rq)
      modifies this`antic, this`timer, this`ioc, this`iocFinished, this`writeLeft
      ensures Now() == Settled(old(Now()), rq, sync)
    {
      StopWaiting();
      antic := Off;
      if sync {
        ioc := Some(rq.ioc);
      } else {
        ioc := None;
        if writeLeft != 0 {
          writeLeft := writeLeft - 1;
        }
      }
      iocFinished := false;
    }

    method Remove(k: nat)
      requires k < |QueueOf(Now(), sync)|
      modifies this`syncs, this`asyncs
      ensures Now() == Drop(old(Now()), sync, k)
    {
      if sync {
        syncs := Without(syncs, k);
      } else {
        asyncs := Without(asyncs, k);
      }
    }

    method Hand(rq: Rq)
      requires rq.state.Queued?
      modifies this`out, this`nrDispatched
      ensures Now() == Handed(old(Now()), rq)
    {
      out, nrDispatched := out + [Held(rq.(state := Dispatched), false)], nrDispatched + 1;
    }

    /** From `dispatch_request` to the end of `as_dispatch_request`. */
    method SendOne(k: nat) returns (sent: bool)
      requires Deciding(Now()) && k < |QueueOf(Now(), sync)|
      modifies this`antic, this`timer, this`ioc, this`iocFinished, this`writeLeft,
               this`syncs, this`asyncs, this`out, this`nrDispatched, this`changed, this`newBatch
      ensures Now() == Send(old(Now()), k)
      ensures sent <==> |out| == |old(out)| + 1
      ensures !sent ==> out == old(out)
    {
      QueuedAt(QueueOf(Now(), sync), sync, k);
      assert !(changed && newBatch);
      if changed && nrDispatched != 0 {
        return false;
      }
      if changed {
        BeginBatch();
      }
      Move(k);
      return true;
    }

    /** The last request of the old direction is done. */
    method BeginBatch()
      modifies this`changed, this`newBatch
      ensures Now() == old(Now()).(newBatch := old(sync || newBatch), changed := false)
    {
      if sync {
        newBatch := true;
      }
      changed := false;
    }

    /** `as_dispatch_request` from `if (reads)` on: a batch of reads begins, or one of
        writes after reads. */
    method StartBatch() returns (sent: bool)
      requires Valid() && !changed && (syncs != [] || asyncs != [])
      modifies this
      ensures Now() == Switch(old(Now()))
      ensures sent <==> |out| == |old(out)| + 1
      ensures !sent ==> out == old(out)
    {
      if syncs != [] && !(asyncs != [] && sync) {
        TurnToReads();
      } else {
        TurnToWrites();
      }
      sent := SendOne(0);
    }

    method TurnToReads()
      requires Valid() && !changed
      modifies this`changed, this`sync
      ensures Now() == old(Now()).(changed := old(!sync), sync := true) && Deciding(Now())
    {
      if !sync {
        assert !newBatch;
        changed := true;
      }
      sync := true;
    }

    method TurnToWrites()
      requires Valid() && !changed
      modifies this`changed, this`sync, this`newBatch, this`writeLeft, this`idled
      ensures Deciding(Now())
      ensures Now() == old(Now()).(changed := old(sync), newBatch := if old(sync) then false else old(newBatch),
                                   sync := false, writeLeft := writeMax, idled := false)
    {
      if sync {
        changed, newBatch := true, false;
      }
      sync, writeLeft, idled := false, writeMax, false;
    }

    /** The middle of `as_dispatch_request`: the batch is still running. */
    method RunBatch(h: Hints) returns (sent: bool)
      requires Valid() && !changed && !Waiting(Now()) && (syncs != [] || asyncs != [])
      modifies this
      ensures Now() == Continue(old(Now()), h)
      ensures sent <==> |out| == |old(out)| + 1
      ensures !sent ==> out == old(out)
    {
      if sync && h.anticipates {
        if h.readExpired && syncs != [] {
          sent := SendOne(0);
          return;
        }
        if ioc.Some? && !antic.Finished? && !h.breaks {
          StartWaiting();
          return false;
        }
      }
      sent := NextOrSwitch(h);
    }

    method NextOrSwitch(h: Hints) returns (sent: bool)
      requires Valid() && !changed && (syncs != [] || asyncs != [])
      modifies this
      ensures Now() == if QueueOf(old(Now()), old(sync)) == [] then Switch(old(Now()))
                       else Send(old(Now()), Position(old(Now()), h))
      ensures sent <==> |out| == |old(out)| + 1
      ensures !sent ==> out == old(out)
    {
      var n := if sync then |syncs| else |asyncs|;
      if n == 0 {
        sent := StartBatch();
      } else {
        sent := SendOne(if h.fifoExpired || h.pick >= n then 0 else h.pick);
      }
    }

    /** `as_dispatch_request`, not forced: which request it sends, and when it waits or
        turns to the other direction.  It reports a request exactly when it sent one. */
    method DispatchRequest(h: Hints) returns (sent: bool)
      requires Valid()
      modifies this
      ensures Valid() && Now() == Dispatch(old(Now()), h)
      ensures AsTurn.Decides(old(Now()), h, Now()) && AsTurn.NotesIdle(old(Now()), Now())
      ensures sent <==> |out| == |old(out)| + 1
      ensures !sent ==> out == old(out)
    {
      DispatchKeepsInv(Now(), h);
      AsTurn.DispatchDecides(Now(), h);
      AsTurn.DispatchNotesIdle(Now(), h);
      sent := Decide(h);
    }

    method Decide(h: Hints) returns (sent: bool)
      requires Valid()
      modifies this
      ensures Now() == Dispatch(old(Now()), h)
      ensures sent <==> |out| == |old(out)| + 1
      ensures !sent ==> out == old(out)
    {
      NoteIdle();
      if (syncs == [] && asyncs == []) || antic.WaitReq? || antic.WaitNext? || changed {
        return false;
      }
      if syncs != [] && asyncs != [] && !changed && !newBatch && (h.timeUp || (!sync && writeLeft == 0)) {
        sent := StartBatch();
      } else {
        sent := RunBatch(h);
      }
    }

    /** A write batch that runs out of writes while no reads wait. */
    method NoteIdle()
      requires Valid()
      modifies this`idled
      ensures Valid() && Now() == Noted(old(Now()))
    {
      if !sync && syncs == [] {
        if writeLeft == 0 || asyncs == [] {
          idled := true;
        }
      }
    }

    /** `as_completed_request`. */
    method CompleteRequest(k: nat, writeTime: nat, batch: nat)
      requires Valid() && k < |out| && out[k].atDriver
      modifies this
      ensures Valid() && Now() == Completed(old(Now()), k, writeTime, batch)
    {
      var rq := out[k].rq;
      CountedKeepsInv(Now(), k);
      CompletedKeepsInv(Now(), k, writeTime, batch);
      assert rq.state.Removed?;
      Count(k);
      Time(rq.sync, writeTime, batch);
      Answer(rq.ioc);
    }

    method Count(k: nat)
      requires k < |out| && nrDispatched != 0
      modifies this`out, this`changed, this`newBatch, this`nrDispatched
      ensures Now() == Counted(old(Now()), k)
    {
      if changed && nrDispatched == 1 {
        BeginBatch();
      }
      nrDispatched := nrDispatched - 1;
      out := out[..k] + out[k + 1..];
    }

    /** The first read of a new batch to complete starts the clock of the batch. */
    method Time(dir: bool, writeTime: nat, batch: nat)
      modifies this`writeMax, this`newBatch
      ensures Now() == Timed(old(Now()), dir, writeTime, batch)
    {
      if newBatch && sync == dir {
        UpdateWriteBatch(writeTime, batch);
        newBatch := false;
      }
    }

    /** `update_write_batch`. */
    method UpdateWriteBatch(writeTime: nat, batch: nat)
      modifies this`writeMax
      ensures writeMax == NewWriteMax(old(Now()), writeTime, batch)
    {
      if writeTime > batch && !idled {
        if writeTime > batch * 3 {
          writeMax := writeMax / 2;
        } else if writeMax > 0 {
          writeMax := writeMax - 1;
        }
      } else if writeTime < batch && writeLeft == 0 {
        if batch > writeTime * 3 {
          writeMax := writeMax * 2;
        } else {
          writeMax := writeMax + 1;
        }
      }
      if writeMax < 1 {
        writeMax := 1;
      }
    }

    method Answer(from: nat)
      requires antic.WaitReq? ==> ioc.Some?
      modifies this`iocFinished, this`antic, this`timer
      ensures Now() == Answered(old(Now()), from)
    {
      if ioc == Some(from) {
        iocFinished := true;
        if antic.WaitReq? {
          StartTimer();
        }
      }
    }

    /** `as_add_request`. */
    method AddRequest(id: nat, isSync: bool, from: nat, good: bool)
      requires Valid()
      modifies this`syncs, this`asyncs, this`antic, this`timer
      ensures Valid() && Now() == Added(old(Now()), id, isSync, from, good)
    {
      AddedKeepsInv(Now(), id, isSync, from, good);
      var rq := Rq(id, isSync, from, Queued);
      if isSync {
        syncs := syncs + [rq];
      } else {
        asyncs := asyncs + [rq];
      }
      UpdateRq(good);
    }

    /** The anticipation part of `as_update_rq`. */
    method UpdateRq(good: bool)
      requires Waiting(Now()) ==> ioc.Some?
      modifies this`antic, this`timer
      ensures Now() == Noticed(old(Now()), good)
    {
      if antic.WaitReq? || antic.WaitNext? {
        if good {
          StopWaiting();
        }
      }
    }

    /** `as_antic_timeout`, once the timer has fired. */
    method TimedOut()
      requires Valid() && pending > 0
      modifies this`pending, this`antic
      ensures Valid() && Now() == Step(old(Now()), Handle) && !Waiting(Now())
    {
      pending := pending - 1;
      if antic.WaitReq? || antic.WaitNext? {
        assert ioc.Some?;
        antic := Finished;
      }
    }
  }
}
