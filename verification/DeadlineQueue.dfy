/**
 The deadline scheduler's data, updated in place.
 */
module DeadlineQueue {
  import opened Options
  import opened SectorList
  import opened Deadline
  import opened DeadlineScan
  import A = DeadlineAccount

  /** `deadline_data`.  Index 0 of the source's arrays is READ, index 1 WRITE. */
  class DeadlineData {
    var fifoRead: seq<Rq>
    var fifoWrite: seq<Rq>
    var nextRead: Option<Rq>
    var nextWrite: Option<Rq>
    var batching: nat
    var starved: nat
    ghost var seen: set<nat>
    /** Where the scan over the sectors stands. */
    ghost var scan: Scan
    /** The dispatch list of the request queue. */
    var dispatched: seq<Rq>
    const config: Config

    /** The value the steps above speak about, at time `now`. */
    ghost function At(now: int): State
      reads this
    {
      State(Lane(fifoRead, nextRead), Lane(fifoWrite, nextWrite), batching, starved, now, seen)
    }

    ghost predicate Valid(now: int)
      reads this
    {
      Inv(config, At(now)) && ScanOk(At(now), scan)
    }

    constructor (config: Config)
      ensures forall now :: At(now) == Init(now) && Valid(now)
      ensures this.config == config && dispatched == [] && scan == NotYet
    {
      this.config := config;
      fifoRead, fifoWrite, nextRead, nextWrite := [], [], None, None;
      batching, starved, seen, dispatched, scan := 0, 0, {}, [], NotYet;
    }

    /** `deadline_move_request`. */
    method MoveRequest(rq: Rq, ghost now: int)
      modifies this`fifoRead, this`fifoWrite, this`nextRead, this`nextWrite, this`dispatched
      ensures At(now) == Moved(old(At(now)), rq) && dispatched == old(dispatched) + [rq]
    {
      nextRead, nextWrite := None, None;
      if rq.dir {
        nextWrite := Search(fifoWrite, rq.sector + 1);
        fifoWrite := Without(fifoWrite, rq);
      } else {
        nextRead := Search(fifoRead, rq.sector + 1);
        fifoRead := Without(fifoRead, rq);
      }
      dispatched := dispatched + [rq];
    }

    /** `deadline_add_request`. */
    method AddRequest(rq: Rq, now: int)
      requires Valid(now) && Enabled(config, At(now), Add(rq))
      modifies this
      ensures At(now) == Step(config, old(At(now)), Add(rq)) && Valid(now)
      ensures scan == ScanStep(config, old(At(now)), old(scan), Add(rq))
      ensures dispatched == old(dispatched) + A.Sent(config, old(At(now)), Add(rq))
    {
      StepKeepsScan(config, At(now), scan, Add(rq));
      scan := ScanStep(config, At(now), scan, Add(rq));
      Enqueue(rq, now);
    }

    /** Aliases are moved out of the way first. */
    method Enqueue(rq: Rq, now: int)
      requires Inv(config, At(now)) && Enabled(config, At(now), Add(rq))
      modifies this`fifoRead, this`fifoWrite, this`nextRead, this`nextWrite, this`dispatched, this`seen
      ensures At(now) == Step(config, old(At(now)), Add(rq)) && Inv(config, At(now))
      ensures dispatched == old(dispatched) + A.Sent(config, old(At(now)), Add(rq))
    {
      AddedInv(config, At(now), rq);
      AliasInLane(config, At(now), rq, rq.sector);
      var alias := Alias(if rq.dir then fifoWrite else fifoRead, rq, rq.sector);
      while alias.Some?
        invariant Added(At(now), rq) == old(Added(At(now), rq)) && seen == old(seen)
        invariant alias == Alias(At(now).Of(rq.dir).fifo, rq, rq.sector)
        invariant Inv(config, At(now)) && (alias.Some? ==> At(now) == old(At(now)) && dispatched == old(dispatched))
        invariant alias.None? ==> dispatched == old(dispatched) + A.Sent(config, old(At(now)), Add(rq))
        decreases alias.Some?
      {
        AliasInLane(config, At(now), rq, rq.sector);
        AliasWasOnly(At(now).Of(rq.dir).fifo, rq, rq.sector, rq.dir, now + config.expire(rq.dir), seen);
        MovedInv(config, At(now), alias.value);
        MoveRequest(alias.value, now);
        alias := Alias(if rq.dir then fifoWrite else fifoRead, rq, rq.sector);
      }
      if rq.dir {
        fifoWrite := fifoWrite + [rq];
      } else {
        fifoRead := fifoRead + [rq];
      }
      seen := seen + {rq.id};
    }

    /** A bio was merged into `rq`, now `rq'`: `deadline_merged_request`, which
        after a front merge repositions the request in the sort list. */
    method MergedRequest(rq: Rq, rq': Rq, now: int)
      requires Valid(now) && Enabled(config, At(now), Grow(rq, rq'))
      modifies this
      ensures At(now) == Step(config, old(At(now)), Grow(rq, rq')) && Valid(now)
      ensures scan == ScanStep(config, old(At(now)), old(scan), Grow(rq, rq'))
      ensures dispatched == old(dispatched) + A.Sent(config, old(At(now)), Grow(rq, rq'))
    {
      StepKeepsScan(config, At(now), scan, Grow(rq, rq'));
      scan := ScanStep(config, At(now), scan, Grow(rq, rq'));
      Reposition(rq, rq', now);
    }

    /** The request is put back where it now starts. */
    method Reposition(rq: Rq, rq': Rq, now: int)
      requires Inv(config, At(now)) && Enabled(config, At(now), Grow(rq, rq'))
      modifies this`fifoRead, this`fifoWrite, this`nextRead, this`nextWrite, this`dispatched
      ensures At(now) == Step(config, old(At(now)), Grow(rq, rq')) && Inv(config, At(now))
      ensures dispatched == old(dispatched) + A.Sent(config, old(At(now)), Grow(rq, rq'))
    {
      StepKeepsInv(config, At(now), Grow(rq, rq'));
      AliasInLane(config, At(now), rq, rq'.sector);
      var f := if rq.dir then fifoWrite else fifoRead;
      var next := if rq.dir then nextWrite else nextRead;
      var alias := Alias(f, rq, rq'.sector);
      if alias.Some? {
        next := Search(Without(f, rq), alias.value.sector + 1);
        MoveRequest(alias.value, now);
        f := if rq.dir then fifoWrite else fifoRead;
      }
      f := Replaced(f, rq, rq');
      next := if next == Some(rq) then Some(rq') else next;
      if rq.dir {
        fifoWrite, nextWrite := f, next;
      } else {
        fifoRead, nextRead := f, next;
      }
    }

    /** `deadline_merged_requests`, both requests having direction `rq.dir`. */
    method MergedRequests(rq: Rq, gone: Rq, now: int)
      requires Valid(now) && Enabled(config, At(now), Absorb(rq, gone))
      modifies this
      ensures At(now) == Step(config, old(At(now)), Absorb(rq, gone)) && Valid(now)
      ensures scan == ScanStep(config, old(At(now)), old(scan), Absorb(rq, gone))
      ensures dispatched == old(dispatched)
    {
      StepKeepsScan(config, At(now), scan, Absorb(rq, gone));
      scan := ScanStep(config, At(now), scan, Absorb(rq, gone));
      TakeOver(rq, gone, now);
    }

    /** The earlier deadline and its place are taken over. */
    method TakeOver(rq: Rq, gone: Rq, now: int)
      requires Inv(config, At(now)) && Enabled(config, At(now), Absorb(rq, gone))
      modifies this`fifoRead, this`fifoWrite, this`nextRead, this`nextWrite
      ensures At(now) == Step(config, old(At(now)), Absorb(rq, gone)) && Inv(config, At(now))
    {
      StepKeepsInv(config, At(now), Absorb(rq, gone));
      var f := if rq.dir then fifoWrite else fifoRead;
      var next := if rq.dir then nextWrite else nextRead;
      var rq' := rq.(nr := rq.nr + gone.nr);
      var after := Search(f, gone.sector + 1);
      if gone.expires < rq.expires {
        rq' := rq'.(expires := gone.expires);
        f := Behind(Without(f, rq), gone, rq');
      } else {
        f := Replaced(f, rq, rq');
      }
      if next == Some(gone) {
        next := after;
      } else if next == Some(rq) {
        next := Some(rq');
      }
      f := Without(f, gone);
      if rq.dir {
        fifoWrite, nextWrite := f, next;
      } else {
        fifoRead, nextRead := f, next;
      }
    }

    /** `deadline_dispatch_requests`: a running batch goes on, else a direction
        is chosen and its FIFO checked.  Nothing is dispatched only when nothing
        is queued; what is dispatched, and how the counters move, is what `Sends`
        and `Counts` say. */
    method DispatchRequests(now: int) returns (moved: nat)
      requires Valid(now)
      modifies this
      ensures At(now) == Step(config, old(At(now)), Dispatch) && Valid(now)
      ensures scan == ScanStep(config, old(At(now)), old(scan), Dispatch)
      ensures moved == 0 <==> old(fifoRead) == [] && old(fifoWrite) == []
      ensures dispatched == old(dispatched) + A.Sent(config, old(At(now)), Dispatch) && (moved == 0 ==> dispatched == old(dispatched))
      ensures moved != 0 ==>
        && Counts(config, old(At(now)), old(scan), batching, starved)
        && exists rq :: && dispatched == old(dispatched) + [rq] && (rq in old(fifoRead) || rq in old(fifoWrite))
                        && Sends(config, old(At(now)), old(scan), rq)
    {
      StepKeepsInv(config, At(now), Dispatch);
      StepKeepsScan(config, At(now), scan, Dispatch);
      SelectSends(config, At(now), scan);
      SelectIsQueued(config, At(now));
      scan := ScanStep(config, At(now), scan, Dispatch);
      var rq := Choose(now);
      if rq.None? {
        return 0;
      }
      MoveRequest(rq.value, now);
      moved := 1;
    }

    /** The selection, with its counters. */
    method Choose(now: int) returns (rq: Option<Rq>)
      modifies this`batching, this`starved
      ensures var r := Select(config, old(At(now)));
        if r.Nothing? then rq.None? && batching == old(batching) && starved == old(starved)
        else rq == Some(r.rq) && batching == r.batching && starved == r.starved
    {
      rq := if nextWrite.Some? then nextWrite else nextRead;
      if !(rq.Some? && batching < config.fifoBatch) {
        var dataDir := false;
        if fifoRead != [] {
          if fifoWrite != [] {
            if starved >= config.writesStarved {
              dataDir, starved := true, 0;
            } else {
              starved := starved + 1;
            }
          }
        } else if fifoWrite != [] {
          dataDir, starved := true, 0;
        } else {
          return None;
        }
        var f := if dataDir then fifoWrite else fifoRead;
        var next := if dataDir then nextWrite else nextRead;
        rq := if f[0].expires < now || next.None? then Some(f[0]) else next;
        batching := 0;
      }
      batching := batching + 1;
    }
  }
}
