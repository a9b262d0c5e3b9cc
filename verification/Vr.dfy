/**
 The V(R) scheduler: one tree of queued requests and two cached neighbours of
 the disk head.  Every operation leaves `next` the lowest queued request at or
 above the head and `prev` the highest below it.
 */
module Vr {
  import opened Options
  import opened SectorList
  import W = VrWait

  datatype HeadDir = FORWARD | BACKWARD

  const INT_MAX := 0x7fff_ffff

  /** The caches are what a neighbour search of the tree would find. */
  ghost predicate Cached(t: Tree, last: nat, next: Option<Rq>, prev: Option<Rq>) {
    IsAtOrAbove(t, last, next) && IsBelow(t, last, prev)
  }

  /** The tree without what starts at sector `s`. */
  ghost function NotAt(t: Tree, s: nat): Tree {
    set x | x in t && x.sector != s
  }

  /** A request after a front merge of `sectors` sectors. */
  function Grown(rq: Rq, sectors: nat): Rq
    requires sectors <= rq.sector
  {
    rq.(sector := rq.sector - sectors, nr := rq.nr + sectors)
  }

  /** Moving the request found at a sector leaves what is elsewhere. */
  lemma RoomMade(t: Tree, s: nat, alias: Option<Rq>)
    requires Keyed(t) && if alias.Some? then alias.value in t && alias.value.sector == s else forall x :: x in t ==> x.sector != s
    ensures NotAt(t, s) == if alias.Some? then t - {alias.value} else t
  {
  }

  /** Nothing queued means nothing on the FIFO lists. */
  lemma EmptyFifos(f: Fifos, t: Tree)
    requires f.Over(t)
    ensures t == {} ==> f.of0 == [] && f.of1 == []
  {
  }

  lemma KeyedAdd(t: Tree, rq: Rq)
    requires Keyed(t) && forall x :: x in t ==> x.sector != rq.sector
    ensures Keyed(t + {rq})
  {
  }

  /** The search results around a request are those of the tree without it,
      seen from the request's own sector. */
  method Neighbours(t: Tree, rq: Rq) returns (latter: Option<Rq>, former: Option<Rq>)
    requires Keyed(t) && rq in t
    ensures Cached(t - {rq}, rq.sector, latter, former)
  {
    latter := AtOrAbove(t, rq.sector + 1);
    former := Below(t, rq.sector);
  }

  /** One comparison on the side of the head where `rq` lies repairs the caches. */
  lemma CachedAfterAdd(t: Tree, last: nat, next: Option<Rq>, prev: Option<Rq>, rq: Rq)
    requires Cached(t, last, next, prev)
    ensures Cached(t + {rq}, last,
                   if rq.sector >= last && (next.None? || next.value.sector > rq.sector) then Some(rq) else next,
                   if rq.sector < last && (prev.None? || prev.value.sector < rq.sector) then Some(rq) else prev)
  {
  }

  /** A new deadline for a request changes nothing a search looks at. */
  lemma CachedRename(t: Tree, last: nat, next: Option<Rq>, prev: Option<Rq>, rq: Rq, rq': Rq)
    requires Keyed(t) && Cached(t, last, next, prev) && rq in t && rq'.sector == rq.sector
    ensures Keyed(t - {rq} + {rq'})
    ensures Cached(t - {rq} + {rq'}, last,
                   if next == Some(rq) then Some(rq') else next,
                   if prev == Some(rq) then Some(rq') else prev)
  {
  }

  /** The rule of `vr_choose_request` when the head moves `forward` and there is a
      request `n` sectors ahead and one `d` sectors behind: `do_div` returns the
      remainder, and it is the remainder that is compared. */
  predicate TakesNext(forward: bool, n: nat, d: nat, penalty: nat)
    requires penalty > 0
  {
    if forward then n % penalty <= d else n <= d % penalty
  }

  /** The neighbour of a head at sector `last` that this rule takes: the lowest request at
      or above it, or the highest below it, the other one losing if there is one. */
  ghost predicate IsNear(t: Tree, last: nat, forward: bool, penalty: nat, rq: Rq)
    requires penalty > 0
  {
    || (&& IsAtOrAbove(t, last, Some(rq))
        && forall p :: IsBelow(t, last, Some(p)) ==> TakesNext(forward, rq.sector - last, last - p.sector, penalty))
    || (&& IsBelow(t, last, Some(rq))
        && forall n :: IsAtOrAbove(t, last, Some(n)) ==> !TakesNext(forward, n.sector - last, last - rq.sector, penalty))
  }

  lemma NextIsNear(t: Tree, last: nat, forward: bool, penalty: nat, n: Rq, prev: Option<Rq>)
    requires penalty > 0 && Keyed(t) && Cached(t, last, Some(n), prev)
    requires prev.Some? ==> TakesNext(forward, n.sector - last, last - prev.value.sector, penalty)
    ensures IsNear(t, last, forward, penalty, n)
  {
    forall p | IsBelow(t, last, Some(p)) ensures prev == Some(p) {
      SearchIsUnique(t, last, prev, Some(p));
    }
  }

  lemma PrevIsNear(t: Tree, last: nat, forward: bool, penalty: nat, next: Option<Rq>, p: Rq)
    requires penalty > 0 && Keyed(t) && Cached(t, last, next, Some(p))
    requires next.Some? ==> !TakesNext(forward, next.value.sector - last, last - p.sector, penalty)
    ensures IsNear(t, last, forward, penalty, p)
  {
    forall n | IsAtOrAbove(t, last, Some(n)) ensures next == Some(n) {
      SearchIsUnique(t, last, next, Some(n));
    }
  }

  /** The rule that the penalty is meant for: the distance in the direction of the
      head counts for less. */
  predicate ShouldTakeNext(forward: bool, n: nat, d: nat, penalty: nat)
    requires penalty > 0
  {
    if forward then n / penalty <= d else n <= d / penalty
  }

  /** `x` lies between `a` and `b`, in either order, the larger excluded. */
  predicate Splits(x: nat, a: nat, b: nat) {
    a <= x < b || b <= x < a
  }

  /** Forward, the two rules differ exactly when the distance behind separates the
      quotient from the remainder; backward, when the distance ahead less one does. */
  lemma PenaltyDiffers(forward: bool, n: nat, d: nat, penalty: nat)
    requires penalty > 0 && (forward || n > 0)
    ensures TakesNext(forward, n, d, penalty) != ShouldTakeNext(forward, n, d, penalty) <==>
            if forward then Splits(d, n / penalty, n % penalty)
            else Splits(n - 1, d / penalty, d % penalty)
  {
  }

  /** With a penalty of 10 and the head moving forward, a request 20 sectors ahead is
      taken over one that is a single sector behind. */
  lemma FarRequestTaken()
    ensures TakesNext(true, 20, 1, 10) && !ShouldTakeNext(true, 20, 1, 10)
  {
  }

  /** The introduction of the scheduler calls a penalty of 1 shortest seek first and a
      penalty of 0 a pure scan.  The rule gives each for the other. */
  lemma ExtremesSwap(n: nat, d: nat)
    requires n < INT_MAX && d < INT_MAX
    ensures TakesNext(true, n, d, 1) && (TakesNext(false, n, d, 1) <==> n == 0)
    ensures forall forward :: TakesNext(forward, n, d, INT_MAX) <==> n <= d
  {
  }

  class VrData {
    var sort: Tree
    var fifo: Fifos
    var next: Option<Rq>
    var prev: Option<Rq>
    var nbatched: nat
    var last: nat
    var headDir: HeadDir
    /** The dispatch list of the request queue. */
    var dispatched: seq<Rq>

    const fifoExpire: bool -> nat
    const fifoBatch: nat
    const revPenalty: nat

    /** The scheduler is consistent; `pending` are requests that a merge has
        taken out of the tree and is about to put back. */
    ghost predicate ValidBut(pending: Tree)
      reads this
    {
      Keyed(sort) && Cached(sort, last, next, prev) && fifo.Over(sort + pending)
    }

    ghost predicate Valid()
      reads this
    {
      Keyed(sort) && Cached(sort, last, next, prev) && fifo.Over(sort)
    }

    constructor (expire: bool -> nat, batch: nat, penalty: nat)
      ensures Valid() && sort == {} && dispatched == []
      ensures fifoExpire == expire && fifoBatch == batch && revPenalty == penalty
    {
      sort, fifo, next, prev := {}, Fifos([], []), None, None;
      nbatched, last, headDir, dispatched := 0, 0, FORWARD, [];
      fifoExpire, fifoBatch, revPenalty := expire, batch, penalty;
    }

    /** The penalty in force. */
    function Penalty(): (p: nat)
      reads this
      ensures p > 0
    {
      if revPenalty != 0 then revPenalty else INT_MAX
    }

    /** `vr_choose_request`: the nearest request ahead or behind, by the rule
        above when there are both. */
    function ChooseRequest(): (r: Option<Rq>)
      requires Valid()
      reads this
      ensures r.None? <==> sort == {}
      ensures r.Some? ==> r.value in sort && (IsAtOrAbove(sort, last, r) || IsBelow(sort, last, r))
      ensures next.Some? && prev.Some? ==>
                (r == next <==>
                 TakesNext(headDir == FORWARD, next.value.sector - last, last - prev.value.sector, Penalty()))
    {
      if prev.None? then next
      else if next.None? then prev
      else
        var nextPen := next.value.sector - last;
        var prevPen := last - prev.value.sector;
        var nextPen' := if headDir == FORWARD then nextPen % Penalty() else nextPen;
        var prevPen' := if headDir == FORWARD then prevPen else prevPen % Penalty();
        if nextPen' <= prevPen' then next else prev
    }

    /** The part of the scheduler that decides how long requests wait. */
    ghost function Waiting(now: int): W.Wait
      reads this
    {
      W.Wait(fifo, nbatched, now)
    }

    ghost function Tunables(): W.Config {
      W.Config(fifoExpire, fifoBatch)
    }

    /** `vr_check_fifo`: an expired FIFO head, the older one when both lists
        have one; none only when neither head has expired. */
    function CheckFifo(now: int): (r: Option<Rq>)
      requires fifo.Over(sort)
      reads this
      ensures r.Some? ==> r.value in sort && r.value.expires < now
      ensures forall d :: fifo.Get(d) != [] && fifo.Get(d)[0].expires < now ==>
                            r.Some? && r.value.expires <= fifo.Get(d)[0].expires
    {
      W.OldestExpired(fifo, now)
    }

    /** `vr_del_rq_rb` with its BUG_ON checks as assertions.  The caches may be
        those of the tree with `rq`, or already those of the tree without it. */
    method DelRqRb(rq: Rq)
      requires Keyed(sort) && rq in sort
      requires Cached(sort, last, next, prev) || Cached(sort - {rq}, last, next, prev)
      modifies this`next, this`prev, this`sort
      ensures sort == old(sort) - {rq} && Keyed(sort)
      ensures Cached(sort, last, next, prev)
    {
      if next == Some(rq) {
        next := AtOrAbove(sort, rq.sector + 1);
      } else if prev == Some(rq) {
        prev := Below(sort, rq.sector);
      }
      sort := sort - {rq};
      assert !(next.Some? && next == prev);
      assert !(next.Some? && prev.Some? && next.value.sector < prev.value.sector);
    }

    /** `vr_remove_request`. */
    method RemoveRequest(rq: Rq, ghost pending: Tree)
      requires Keyed(sort) && rq in sort && rq !in pending && fifo.Over(sort + pending)
      requires Cached(sort, last, next, prev) || Cached(sort - {rq}, last, next, prev)
      modifies this`next, this`prev, this`sort, this`fifo
      ensures ValidBut(pending) && sort == old(sort) - {rq}
      ensures fifo == old(fifo).Clear(rq)
    {
      FifosFollow(fifo, sort + pending, rq);
      assert sort + pending - {rq} == sort - {rq} + pending;
      fifo := fifo.Clear(rq);
      DelRqRb(rq);
    }

    /** `vr_move_request`. */
    method MoveRequest(rq: Rq, ghost pending: Tree)
      requires ValidBut(pending) && rq in sort && rq !in pending
      modifies this
      ensures ValidBut(pending) && sort == old(sort) - {rq}
      ensures fifo == old(fifo).Clear(rq)
      ensures last == rq.sector && dispatched == old(dispatched) + [rq]
      ensures nbatched == old(nbatched) + 1
      ensures headDir == if rq.sector > old(last) then FORWARD else BACKWARD
    {
      MoveHead(rq);
      RemoveRequest(rq, pending);
      dispatched := dispatched + [rq];
      nbatched := nbatched + 1;
    }

    /** The head goes to `rq`, whose neighbours are the new candidates. */
    method MoveHead(rq: Rq)
      requires Keyed(sort) && rq in sort
      modifies this`headDir, this`last, this`next, this`prev
      ensures last == rq.sector && Cached(sort - {rq}, last, next, prev)
      ensures headDir == if rq.sector > old(last) then FORWARD else BACKWARD
    {
      var latter, former := Neighbours(sort, rq);
      assert !(latter.Some? && latter == former);
      headDir := if rq.sector > last then FORWARD else BACKWARD;
      last, next, prev := rq.sector, latter, former;
    }

    /** The first half of `vr_add_rq_rb`: a queued request at the sector of the
        new one is dispatched, after which the tree has room for it. */
    method MoveAlias(sector: nat, ghost pending: Tree, ghost now: int) returns (alias: Option<Rq>)
      requires ValidBut(pending) && pending !! sort
      modifies this
      ensures ValidBut(pending) && forall x :: x in sort ==> x.sector != sector
      ensures alias.None? ==> unchanged(this)
      ensures alias.Some? ==>
                && alias.value in old(sort) && alias.value.sector == sector == last
                && sort == old(sort) - {alias.value} && dispatched == old(dispatched) + [alias.value]
      ensures Waiting(now) == W.MovedIf(old(Waiting(now)), alias)
    {
      alias := Find(sort, sector);
      if alias.Some? {
        MoveRequest(alias.value, pending);
      }
    }

    /** `vr_add_rq_rb`. */
    method AddRqRb(rq: Rq, ghost now: int) returns (alias: Option<Rq>)
      requires ValidBut({rq}) && rq !in sort
      modifies this
      ensures Valid()
      ensures alias.None? ==> sort == old(sort) + {rq} && last == old(last) && dispatched == old(dispatched)
      ensures alias.None? ==> forall x :: x in old(sort) ==> x.sector != rq.sector
      ensures alias.Some? ==>
                && alias.value in old(sort) && alias.value.sector == rq.sector == last
                && sort == old(sort) - {alias.value} + {rq} && dispatched == old(dispatched) + [alias.value]
      ensures Waiting(now) == W.MovedIf(old(Waiting(now)), alias)
    {
      alias := MoveAlias(rq.sector, {rq}, now);
      KeyedAdd(sort, rq);
      CachedAfterAdd(sort, last, next, prev, rq);
      sort := sort + {rq};
      if rq.sector >= last {
        if next.None? || next.value.sector > rq.sector {
          next := Some(rq);
        }
      } else {
        if prev.None? || prev.value.sector < rq.sector {
          prev := Some(rq);
        }
      }
      assert !(next.Some? && next == prev);
      assert !(next.Some? && prev.Some? && next.value.sector < prev.value.sector);
    }

    /** `vr_add_request`.  A zero expiry keeps the request off the FIFO list. */
    method AddRequest(rq: Rq, now: int) returns (alias: Option<Rq>)
      requires Valid() && rq !in sort
      requires rq.expires == now + fifoExpire(rq.dir)
      modifies this
      ensures Valid()
      ensures sort == NotAt(old(sort), rq.sector) + {rq}
      ensures Waiting(now) == W.Step(Tunables(), old(Waiting(now)), W.Add(rq, alias))
      ensures fifoExpire(rq.dir) != 0 ==> var f := fifo.Get(rq.dir); f != [] && f[|f| - 1] == rq
      ensures alias.Some? <==> NotAt(old(sort), rq.sector) != old(sort)
      ensures alias.Some? ==> alias.value in old(sort) && alias.value.sector == rq.sector && dispatched == old(dispatched) + [alias.value]
      ensures alias.None? ==> dispatched == old(dispatched)
    {
      FifosFollow(fifo, sort, rq);
      alias := AddRqRb(rq, now);
      RoomMade(old(sort), rq.sector, alias);
      if fifoExpire(rq.dir) != 0 {
        AppendFifo(rq);
      }
    }

    method AppendFifo(rq: Rq)
      requires Valid() && rq in sort
      modifies this`fifo
      ensures Valid() && fifo == old(fifo).Append(rq)
    {
      FifosFollow(fifo, sort, rq);
      assert sort + {rq} == sort;
      fifo := fifo.Append(rq);
    }

    /** `vr_merged_request` after a front merge: the request now starts at a
        lower sector, and the tree, the caches and the FIFO entry follow it. */
    method FrontMerged(rq: Rq, sectors: nat, ghost now: int) returns (alias: Option<Rq>)
      requires Valid() && rq in sort && 0 < sectors <= rq.sector
      requires Grown(rq, sectors) !in sort
      modifies this
      ensures Valid()
      ensures sort == NotAt(old(sort) - {rq}, rq.sector - sectors) + {Grown(rq, sectors)}
      ensures Waiting(now) == W.Step(Tunables(), old(Waiting(now)), W.FrontMerge(rq, Grown(rq, sectors), alias))
      ensures alias.Some? ==>
                && alias.value in old(sort) && alias.value.sector == rq.sector - sectors
                && dispatched == old(dispatched) + [alias.value]
      ensures alias.None? ==> dispatched == old(dispatched) && last == old(last)
    {
      var grown := Grown(rq, sectors);
      FifosChange(fifo, sort, rq, grown);
      DelRqRb(rq);
      fifo := fifo.Change(rq, grown);
      alias := AddRqRb(grown, now);
    }

    /** The first half of `vr_merged_requests`: `rq` takes over the earlier
        deadline of `absorbed` and moves behind it in the FIFO list. */
    method TakeDeadline(rq: Rq, absorbed: Rq) returns (rq': Rq)
      requires Valid() && rq in sort && rq != absorbed
      modifies this`sort, this`fifo, this`next, this`prev
      ensures Valid() && rq' == rq.(expires := absorbed.expires)
      ensures sort == old(sort) - {rq} + {rq'} && fifo == old(fifo).Move(rq, absorbed, rq')
    {
      rq' := rq.(expires := absorbed.expires);
      FifosMove(fifo, sort, rq, absorbed, rq');
      CachedRename(sort, last, next, prev, rq, rq');
      fifo := fifo.Move(rq, absorbed, rq');
      sort := sort - {rq} + {rq'};
      next := if next == Some(rq) then Some(rq') else next;
      prev := if prev == Some(rq) then Some(rq') else prev;
    }

    /** `vr_merged_requests`: `absorbed` is now part of `rq` and leaves. */
    method MergedRequests(rq: Rq, absorbed: Rq, ghost now: int)
      requires Valid() && rq in sort && absorbed in sort && rq.sector != absorbed.sector
      modifies this
      ensures Valid() && last == old(last) && dispatched == old(dispatched)
      ensures Waiting(now) == W.Step(Tunables(), old(Waiting(now)), W.Absorb(rq, absorbed))
      ensures if old(fifo).Has(rq) && old(fifo).Has(absorbed) && absorbed.expires < rq.expires
              then var rq' := rq.(expires := absorbed.expires);
                   && sort == old(sort) - {rq} + {rq'} - {absorbed}
                   && fifo == old(fifo).Move(rq, absorbed, rq').Clear(absorbed)
              else sort == old(sort) - {absorbed} && fifo == old(fifo).Clear(absorbed)
    {
      if fifo.Has(rq) && fifo.Has(absorbed) && absorbed.expires < rq.expires {
        var rq' := TakeDeadline(rq, absorbed);
      }
      assert sort + {} == sort;
      RemoveRequest(absorbed, {});
      assert sort + {} == sort;
    }

    ghost predicate Near(rq: Rq)
      reads this
    {
      IsNear(sort, last, headDir == FORWARD, Penalty(), rq)
    }

    /** The FIFO lists have their turn and one of their heads has expired. */
    ghost predicate FifoTurn(now: int)
      reads this
    {
      nbatched > fifoBatch && (W.Expired(fifo.of0, now) || W.Expired(fifo.of1, now))
    }

    /** What a dispatch sends: when a batch is over and a FIFO head has expired, the
        head that is due first; otherwise the neighbour of the head of the disk. */
    ghost predicate Sends(rq: Rq, now: int)
      reads this
    {
      if FifoTurn(now) then
        && rq.expires < now && (rq in fifo.of0 || rq in fifo.of1)
        && (W.Expired(fifo.of0, now) ==> rq.expires <= fifo.of0[0].expires)
        && (W.Expired(fifo.of1, now) ==> rq.expires <= fifo.of1[0].expires)
      else Near(rq)
    }

    /** The two answers of the selection are what is to be sent. */
    lemma SelectionIsRight(now: int)
      requires Valid()
      ensures var r := if FifoTurn(now) then W.OldestExpired(fifo, now) else ChooseRequest();
        (r.None? <==> sort == {}) && (r.Some? ==> r.value in sort && Sends(r.value, now))
    {
      if FifoTurn(now) {
        var r := CheckFifo(now);
        assert r.Some? && r.value in sort;
      } else {
        NearChosen();
      }
    }

    /** The selection of `vr_dispatch_requests`. */
    method Choose(now: int) returns (rq: Option<Rq>)
      requires Valid()
      modifies this`nbatched
      ensures nbatched == if old(nbatched) > fifoBatch then 0 else old(nbatched)
      ensures rq == if old(FifoTurn(now)) then W.OldestExpired(fifo, now) else old(ChooseRequest())
    {
      rq := None;
      if nbatched > fifoBatch {
        nbatched := 0;
        rq := CheckFifo(now);
      }
      if rq.None? {
        rq := ChooseRequest();
      }
    }

    /** `vr_dispatch_requests`.  It moves one request unless none is queued. */
    method DispatchRequests(now: int) returns (moved: nat)
      requires Valid()
      modifies this
      ensures Valid()
      ensures moved == 0 <==> old(sort) == {}
      ensures moved == 0 ==> sort == {} && dispatched == old(dispatched)
      ensures Waiting(now) == W.Step(Tunables(), old(Waiting(now)), W.Dispatch(old(ChooseRequest())))
      ensures moved != 0 ==>
                && moved == 1 && |dispatched| == |old(dispatched)| + 1
                && nbatched == (if old(nbatched) > fifoBatch then 1 else old(nbatched) + 1)
                && var rq := dispatched[|old(dispatched)|];
                   && dispatched == old(dispatched) + [rq] && old(Sends(rq, now))
                   && rq in old(sort) && sort == old(sort) - {rq} && last == rq.sector
                   && headDir == (if rq.sector > old(last) then FORWARD else BACKWARD)
    {
      EmptyFifos(fifo, sort);
      SelectionIsRight(now);
      var rq := Choose(now);
      if rq.None? {
        return 0;
      }
      MoveOut(rq.value);
      moved := 1;
    }

    method MoveOut(rq: Rq)
      requires Valid() && rq in sort
      modifies this
      ensures Valid() && sort == old(sort) - {rq} && dispatched == old(dispatched) + [rq]
      ensures fifo == old(fifo).Clear(rq) && nbatched == old(nbatched) + 1
      ensures last == rq.sector && headDir == if rq.sector > old(last) then FORWARD else BACKWARD
    {
      assert sort + {} == sort;
      MoveRequest(rq, {});
      assert sort + {} == sort;
    }

    lemma NearChosen()
      requires Valid()
      ensures ChooseRequest().Some? ==> Near(ChooseRequest().value)
    {
      var r := ChooseRequest();
      if r.Some? && r == next {
        NextIsNear(sort, last, headDir == FORWARD, Penalty(), r.value, prev);
      } else if r.Some? {
        PrevIsNear(sort, last, headDir == FORWARD, Penalty(), next, r.value);
      }
    }

    /** `elv_drain_elevator` on this scheduler: every queued request is
        dispatched exactly once and none is left. */
    method Drain(now: int)
      requires Valid()
      modifies this
      ensures Valid() && sort == {}
      ensures multiset(dispatched) == multiset(old(dispatched)) + multiset(old(sort))
    {
      var moved := 1;
      while moved != 0
        invariant Valid() && (moved == 0 ==> sort == {})
        invariant multiset(dispatched) + multiset(sort) == multiset(old(dispatched)) + multiset(old(sort))
        decreases sort, moved
      {
        moved := DispatchRequests(now);
      }
    }
  }
}
