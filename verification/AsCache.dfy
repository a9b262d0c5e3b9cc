/**
 The request cache of the anticipatory scheduler.

 For each direction the scheduler remembers the queued request it would serve
 next.  The cache is repaired incrementally from the tree neighbours of the
 request that leaves; it is the best of the whole tree exactly as long as no
 dispatched request overlapped others in the wrong way.
 */
module AsCache {
  import opened Options
  import opened SectorList

  const MAXBACK: nat := 1024 * 1024
  const BACK_PENALTY: nat := 2

  /** A request too far behind the head is only reached by wrapping around. */
  predicate Wraps(last: nat, s: nat) {
    s + MAXBACK < last
  }

  /** The seek distance of a request that does not wrap. */
  function Distance(last: nat, s: nat): int {
    if s >= last then s - last else (last - s) * BACK_PENALTY
  }

  /** The order of `as_choose_req`: whether sector `s1` is taken over `s2`. */
  predicate Ahead(last: nat, s1: nat, s2: nat) {
    if !Wraps(last, s1) && Wraps(last, s2) then true
    else if Wraps(last, s1) && !Wraps(last, s2) then false
    else if Wraps(last, s1) then s1 <= s2
    else if Distance(last, s1) < Distance(last, s2) then true
    else if Distance(last, s2) < Distance(last, s1) then false
    else s1 >= s2
  }

  /** `as_choose_req`. */
  function ChooseReq(last: nat, rq1: Option<Rq>, rq2: Option<Rq>): (r: Option<Rq>) {
    if rq1.None? || rq1 == rq2 then rq2
    else if rq2.None? then rq1
    else if Ahead(last, rq1.value.sector, rq2.value.sector) then rq1 else rq2
  }

  /** The choice is by a total order on sectors. */
  lemma AheadIsTotalOrder(last: nat, a: nat, b: nat, c: nat)
    ensures Ahead(last, a, b) || Ahead(last, b, a)
    ensures Ahead(last, a, b) && Ahead(last, b, a) ==> a == b
    ensures Ahead(last, a, b) && Ahead(last, b, c) ==> Ahead(last, a, c)
  {
  }

  /** Of two sectors the lower one is taken exactly when both are in front of the head,
      when both are too far behind it, or when the upper one is more than twice as far in
      front as the lower one, not too far, is behind. */
  lemma LowerIsTaken(last: nat, a: nat, b: nat)
    requires a < b
    ensures Ahead(last, a, b) <==>
      || last <= a
      || b + 1048576 < last
      || (a < last <= b && last <= a + 1048576 && 2 * (last - a) < b - last)
    ensures Ahead(last, b, a) <==> !Ahead(last, a, b)
  {
  }

  /** `r` is the request of the tree that the order puts first. */
  ghost predicate IsBest(t: Tree, last: nat, r: Option<Rq>) {
    match r
    case None => t == {}
    case Some(b) => b in t && forall x :: x in t ==> Ahead(last, b.sector, x.sector)
  }

  ghost predicate Disjoint(t: Tree) {
    forall x, y :: x in t && y in t && x.sector < y.sector ==> End(x) <= y.sector
  }

  /** The candidates of `as_find_next_rq`: the right neighbour, or the first of
      the tree when there is none, and the left neighbour. */
  ghost predicate Candidates(t: Tree, rq: Rq, next: Option<Rq>, prev: Option<Rq>) {
    && IsBelow(t, rq.sector, prev)
    && if exists x :: x in t && rq.sector < x.sector
       then IsAtOrAbove(t, rq.sector + 1, next)
       else IsAtOrAbove(t - {rq}, 0, next)
  }

  /** Two candidates suffice when `rq` is the best request itself. */
  lemma BestAfterBest(t: Tree, rq: Rq, last: nat, next: Option<Rq>, prev: Option<Rq>)
    requires Keyed(t) && rq in t && Candidates(t, rq, next, prev)
    requires IsBest(t, last, Some(rq))
    ensures IsBest(t - {rq}, last, ChooseReq(last, next, prev))
  {
    var r := ChooseReq(last, next, prev);
    forall x | x in t - {rq} ensures r.Some? && Ahead(last, r.value.sector, x.sector) {
      assert x.sector != rq.sector;
    }
  }

  /** What a request `a` that starts inside `rq` must not hide: anything that is
      closer to the end of `rq`, or, when `a` is so far behind that end that it is
      only reached by wrapping around, anything that is not, and any but one of
      the requests below `rq`. */
  ghost predicate Hides(t: Tree, rq: Rq, a: Rq) {
    if Wraps(End(rq), a.sector) then
      || (exists x :: x in t && a.sector < x.sector && !Wraps(End(rq), x.sector))
      || (exists y, z :: y in t && z in t && y.sector < z.sector < rq.sector)
    else
      exists x :: x in t && a.sector < x.sector && x.sector <= End(rq) + 2 * (End(rq) - a.sector)
  }

  ghost predicate Clear(t: Tree, rq: Rq) {
    forall a :: a in t && rq.sector < a.sector < End(rq) ==> !Hides(t, rq, a)
  }

  /** Nothing starts inside `rq`. */
  lemma BestWhenOutside(t: Tree, rq: Rq, next: Option<Rq>, prev: Option<Rq>)
    requires Keyed(t) && rq in t && Candidates(t, rq, next, prev)
    requires forall x :: x in t && rq.sector < x.sector ==> End(rq) <= x.sector
    ensures IsBest(t - {rq}, End(rq), ChooseReq(End(rq), next, prev))
  {
    var last := End(rq);
    var r := ChooseReq(last, next, prev);
    forall x | x in t - {rq} ensures r.Some? && Ahead(last, r.value.sector, x.sector) {
      assert x.sector != rq.sector;
    }
  }

  /** The lowest request above `rq` starts inside it and does not wrap. */
  lemma BestWhenInside(t: Tree, rq: Rq, a: Rq, prev: Option<Rq>)
    requires Keyed(t) && rq in t && Candidates(t, rq, Some(a), prev)
    requires rq.sector < a.sector < End(rq) && !Wraps(End(rq), a.sector)
    ensures IsBest(t - {rq}, End(rq), ChooseReq(End(rq), Some(a), prev)) <==> !Hides(t, rq, a)
  {
    var last := End(rq);
    assert ChooseReq(last, Some(a), prev) == Some(a);
    if Hides(t, rq, a) {
      var x :| x in t && a.sector < x.sector && x.sector <= last + 2 * (last - a.sector);
      assert x in t - {rq} && !Ahead(last, a.sector, x.sector);
    } else {
      forall x | x in t - {rq} ensures Ahead(last, a.sector, x.sector) {
        assert x.sector != rq.sector;
      }
    }
  }

  /** The lowest request above `rq` starts inside it and is only reached by wrapping
      around. */
  lemma BestWhenFarInside(t: Tree, rq: Rq, a: Rq, prev: Option<Rq>)
    requires Keyed(t) && rq in t && Candidates(t, rq, Some(a), prev)
    requires rq.sector < a.sector < End(rq) && Wraps(End(rq), a.sector)
    ensures IsBest(t - {rq}, End(rq), ChooseReq(End(rq), Some(a), prev)) <==> !Hides(t, rq, a)
  {
    var last := End(rq);
    var r := ChooseReq(last, Some(a), prev);
    assert r == if prev.None? then Some(a) else prev;
    if x :| x in t && a.sector < x.sector && !Wraps(last, x.sector) {
      assert x in t - {rq} && !Ahead(last, r.value.sector, x.sector);
    } else if y, z :| y in t && z in t && y.sector < z.sector < rq.sector {
      assert y in t - {rq} && !Ahead(last, r.value.sector, y.sector);
    } else {
      forall x | x in t - {rq} ensures Ahead(last, r.value.sector, x.sector) {
        assert x.sector != rq.sector;
      }
    }
  }

  /** When the head stands at the end of the dispatched `rq`, two candidates suffice
      exactly if nothing that starts inside `rq` hides a better one. */
  lemma BestAfterDispatch(t: Tree, rq: Rq, next: Option<Rq>, prev: Option<Rq>)
    requires Keyed(t) && rq in t && Candidates(t, rq, next, prev)
    ensures IsBest(t - {rq}, End(rq), ChooseReq(End(rq), next, prev)) <==> Clear(t, rq)
  {
    if inside :| inside in t && rq.sector < inside.sector < End(rq) {
      var a := next.value;
      if Wraps(End(rq), a.sector) {
        BestWhenFarInside(t, rq, a, prev);
      } else {
        BestWhenInside(t, rq, a, prev);
      }
      LowestHides(t, rq, a);
    } else {
      BestWhenOutside(t, rq, next, prev);
    }
  }

  /** It is enough to look at the lowest request above `rq`. */
  lemma LowestHides(t: Tree, rq: Rq, a: Rq)
    requires Keyed(t) && IsAtOrAbove(t, rq.sector + 1, Some(a)) && a.sector < End(rq)
    ensures Clear(t, rq) <==> !Hides(t, rq, a)
  {
    if !Hides(t, rq, a) {
      forall b | b in t && rq.sector < b.sector < End(rq) ensures !Hides(t, rq, b) {
        assert a.sector < b.sector || a == b;
      }
    }
  }

  /** For requests within the backward seek limit: whatever lies above a request
      that starts inside `rq` is more than twice as far beyond the end of `rq`. */
  lemma ClearWithinLimit(t: Tree, rq: Rq)
    requires rq.nr <= MAXBACK
    ensures Clear(t, rq) <==>
            forall a, x :: a in t && x in t && rq.sector < a.sector < End(rq) && a.sector < x.sector ==>
              x.sector > End(rq) + 2 * (End(rq) - a.sector)
  {
    if Clear(t, rq) {
      forall a, x | a in t && x in t && rq.sector < a.sector < End(rq) && a.sector < x.sector
        ensures x.sector > End(rq) + 2 * (End(rq) - a.sector)
      {
        assert !Hides(t, rq, a);
      }
    }
  }

  /** Requests with disjoint extents never hide anything. */
  lemma DisjointIsClear(t: Tree, rq: Rq)
    requires Disjoint(t) && rq in t
    ensures Clear(t, rq)
  {
  }

  /** The two candidates can miss the best request. */
  lemma OverlapHidesTheBest()
    ensures var rq, a, b := Rq(0, true, 0, 100, 0), Rq(1, true, 90, 1, 0), Rq(2, true, 101, 1, 0);
            && Candidates({rq, a, b}, rq, Some(a), None)
            && ChooseReq(End(rq), Some(a), None) == Some(a)
            && !IsBest({rq, a, b} - {rq}, End(rq), Some(a)) && IsBest({rq, a, b} - {rq}, End(rq), Some(b))
  {
    var rq, a, b := Rq(0, true, 0, 100, 0), Rq(1, true, 90, 1, 0), Rq(2, true, 101, 1, 0);
    assert a in {rq, a, b} && b in {rq, a, b} - {rq};
    assert !Ahead(End(rq), a.sector, b.sector);
  }

  /** One comparison with the cached request suffices for a new one. */
  lemma BestAfterAdd(t: Tree, last: nat, next: Option<Rq>, rq: Rq)
    requires IsBest(t, last, next)
    ensures IsBest(t + {rq}, last, ChooseReq(last, Some(rq), next))
  {
    if next.Some? {
      forall x | x in t + {rq}
        ensures Ahead(last, ChooseReq(last, Some(rq), next).value.sector, x.sector)
      {
        AheadIsTotalOrder(last, rq.sector, next.value.sector, x.sector);
      }
    }
  }

  /** What a wrong cache needs to become right with a new request. */
  lemma BestAfterAddIff(t: Tree, last: nat, next: Option<Rq>, rq: Rq)
    requires (next.None? ==> t == {}) && (next.Some? ==> next.value in t)
    ensures IsBest(t + {rq}, last, ChooseReq(last, Some(rq), next)) <==>
            IsBest(t, last, next) || IsBest(t + {rq}, last, Some(rq))
  {
    if IsBest(t, last, next) {
      BestAfterAdd(t, last, next, rq);
    } else if ChooseReq(last, Some(rq), next) == next {
      var x :| x in t && !Ahead(last, next.value.sector, x.sector);
      assert x in t + {rq};
      if IsBest(t + {rq}, last, Some(rq)) {
        AheadIsTotalOrder(last, rq.sector, next.value.sector, x.sector);
      }
    }
  }

  /** The extents of `rq` and `x` do not overlap, or they start at one sector, in
      which case `x` is dispatched before `rq` is queued. */
  predicate Compatible(rq: Rq, x: Rq) {
    if x.sector < rq.sector then End(x) <= rq.sector else x.sector == rq.sector || End(rq) <= x.sector
  }

  /** Whatever lies above `rq` without `absorbed` lies above the two together. */
  lemma RoomToGrow(t: Tree, rq: Rq, absorbed: Rq)
    requires Keyed(t) && Disjoint(t) && rq in t && absorbed in t
    requires End(rq) == absorbed.sector && rq.sector < absorbed.sector
    ensures forall x :: x in t - {absorbed} && rq.sector < x.sector ==> End(rq) + absorbed.nr <= x.sector
  {
    forall x | x in t - {absorbed} && rq.sector < x.sector ensures End(absorbed) <= x.sector {
      assert End(rq) <= x.sector;
    }
  }

  lemma DisjointAdd(t: Tree, rq: Rq)
    requires Disjoint(t) && forall x :: x in t ==> x.sector != rq.sector && Compatible(rq, x)
    ensures Disjoint(t + {rq})
  {
  }

  /** One direction of the scheduler: an element of the arrays `sort_list`,
      `next_rq` and `last_sector`. */
  class AsLane {
    var sort: Tree
    var next: Option<Rq>
    var last: nat
    /** Requests handed to the dispatch list, oldest first. */
    var dispatched: seq<Rq>

    /** There is one request per sector, and the cache holds a queued request
        whenever there is one. */
    ghost predicate Valid()
      reads this
    {
      Keyed(sort) && (next.Some? ==> next.value in sort) && (next.None? ==> sort == {})
    }

    /** The cache holds the best request of the whole tree. */
    ghost predicate Best()
      reads this
    {
      IsBest(sort, last, next)
    }

    /** As long as the queued extents are disjoint, the cache holds the best
        request.  Every operation that leaves the extents disjoint keeps this. */
    ghost predicate Tidy()
      reads this
    {
      Disjoint(sort) && Best()
    }

    constructor ()
      ensures Valid() && Tidy() && sort == {} && last == 0 && dispatched == []
    {
      sort, next, last, dispatched := {}, None, 0, [];
    }

    /** `as_find_next_rq`. */
    method FindNextRq(rq: Rq) returns (r: Option<Rq>)
      requires Keyed(sort) && rq in sort
      ensures (r.None? ==> sort == {rq}) && (r.Some? ==> r.value in sort - {rq})
      ensures exists next, prev :: Candidates(sort, rq, next, prev) && r == ChooseReq(last, next, prev)
    {
      var after := AtOrAbove(sort, rq.sector + 1);
      var before := Below(sort, rq.sector);
      if after.None? {
        after := AtOrAbove(sort - {rq}, 0);
      }
      assert Candidates(sort, rq, after, before);
      r := ChooseReq(last, after, before);
    }

    /** `as_remove_queued_request`. */
    method RemoveQueuedRequest(rq: Rq)
      requires Keyed(sort) && rq in sort && (next.Some? ==> next.value in sort) && (next.None? ==> sort == {rq})
      modifies this`sort, this`next
      ensures Valid() && sort == old(sort) - {rq}
      ensures old(Best()) ==> Best()
      ensures old(Tidy()) ==> Tidy()
      ensures old(next) != Some(rq) ==> next == old(next)
    {
      if next == Some(rq) {
        next := FindNextRq(rq);
        ghost var after, before :| Candidates(sort, rq, after, before) && next == ChooseReq(last, after, before);
        if old(Best()) {
          BestAfterBest(sort, rq, last, after, before);
        }
      }
      sort := sort - {rq};
    }

    /** The head moves to the end of `rq`, and the cache to the better neighbour. */
    method MoveHead(rq: Rq)
      requires Valid() && rq in sort
      modifies this`last, this`next
      ensures last == End(rq) && (next.None? ==> sort == {rq}) && (next.Some? ==> next.value in sort - {rq})
      ensures IsBest(sort - {rq}, last, next) <==> Clear(sort, rq)
    {
      last := End(rq);
      next := FindNextRq(rq);
      ghost var after, before :| Candidates(sort, rq, after, before) && next == ChooseReq(last, after, before);
      BestAfterDispatch(sort, rq, after, before);
    }

    /** `as_move_to_dispatch`, for any queued request.  Whatever the cache held
        before, it is best afterwards exactly if `rq` hid nothing. */
    method MoveToDispatch(rq: Rq)
      requires Valid() && rq in sort
      modifies this
      ensures Valid() && sort == old(sort) - {rq}
      ensures last == End(rq) && dispatched == old(dispatched) + [rq]
      ensures Best() <==> Clear(old(sort), rq)
      ensures old(Disjoint(sort)) ==> Tidy()
    {
      if Disjoint(sort) {
        DisjointIsClear(sort, rq);
      }
      MoveHead(rq);
      RemoveQueuedRequest(rq);
      dispatched := dispatched + [rq];
    }

    /** The alias loop of `as_add_rq_rb`. */
    method MoveAlias(sector: nat) returns (alias: Option<Rq>)
      requires Valid()
      modifies this
      ensures Valid() && forall x :: x in sort ==> x.sector != sector
      ensures alias.None? ==> unchanged(this)
      ensures alias.Some? ==>
                && alias.value in old(sort) && alias.value.sector == sector && last == End(alias.value)
                && sort == old(sort) - {alias.value} && dispatched == old(dispatched) + [alias.value]
                && (Best() <==> Clear(old(sort), alias.value))
      ensures old(Tidy()) ==> Tidy()
    {
      alias := Find(sort, sector);
      if alias.Some? {
        MoveToDispatch(alias.value);
      }
    }

    /** `as_add_request`: an alias is dispatched first, then one comparison with
        the cached request.  The cache is best afterwards exactly if it was, or the
        alias hid nothing, or the new request itself is the best. */
    method AddRequest(rq: Rq) returns (alias: Option<Rq>)
      requires Valid() && rq !in sort
      modifies this
      ensures Valid()
      ensures alias.None? ==> sort == old(sort) + {rq} && last == old(last) && dispatched == old(dispatched)
      ensures alias.None? ==> forall x :: x in old(sort) ==> x.sector != rq.sector
      ensures alias.Some? ==>
                && alias.value in old(sort) && alias.value.sector == rq.sector && last == End(alias.value)
                && sort == old(sort) - {alias.value} + {rq} && dispatched == old(dispatched) + [alias.value]
      ensures Best() <==>
                || (if alias.None? then old(Best()) else Clear(old(sort), alias.value))
                || IsBest(sort, last, Some(rq))
      ensures old(Tidy()) && (forall x :: x in old(sort) ==> Compatible(rq, x)) ==> Tidy()
    {
      alias := MoveAlias(rq.sector);
      Insert(rq);
    }

    /** The end of `as_add_rq_rb` and `as_update_rq`: no other request starts at the
        sector of `rq`. */
    method Insert(rq: Rq)
      requires Valid() && forall x :: x in sort ==> x.sector != rq.sector
      modifies this`sort, this`next
      ensures Valid() && sort == old(sort) + {rq}
      ensures Best() <==> old(Best()) || IsBest(sort, last, Some(rq))
      ensures old(Tidy()) && (forall x :: x in old(sort) ==> Compatible(rq, x)) ==> Tidy()
    {
      BestAfterAddIff(sort, last, next, rq);
      if Disjoint(sort) && forall x :: x in sort ==> Compatible(rq, x) {
        DisjointAdd(sort, rq);
      }
      sort := sort + {rq};
      next := ChooseReq(last, Some(rq), next);
    }

    /** A back merge: the request grows where it stands. */
    method BackMerged(rq: Rq, sectors: nat)
      requires Valid() && rq in sort
      modifies this`sort, this`next
      ensures Valid() && sort == old(sort) - {rq} + {rq.(nr := rq.nr + sectors)}
      ensures old(Best()) ==> Best()
      ensures old(Tidy()) && (forall x :: x in old(sort) && rq.sector < x.sector ==> End(rq) + sectors <= x.sector) ==> Tidy()
    {
      var grown := rq.(nr := rq.nr + sectors);
      next := if next == Some(rq) then Some(grown) else next;
      sort := sort - {rq} + {grown};
    }

    /** `attempt_merge` and `as_merged_requests`: `rq` grows over `absorbed`, which
        leaves the tree. */
    method MergedRequests(rq: Rq, absorbed: Rq)
      requires Valid() && rq in sort && absorbed in sort && rq != absorbed
      modifies this`sort, this`next
      ensures Valid() && sort == old(sort) - {absorbed} - {rq} + {rq.(nr := rq.nr + absorbed.nr)}
      ensures old(Best()) ==> Best()
      ensures old(Tidy()) && End(rq) == absorbed.sector && rq.sector < absorbed.sector ==> Tidy()
    {
      if Tidy() && End(rq) == absorbed.sector && rq.sector < absorbed.sector {
        RoomToGrow(sort, rq, absorbed);
      }
      RemoveQueuedRequest(absorbed);
      BackMerged(rq, absorbed.nr);
    }

    /** The forced dispatch loop: the cache alone empties the tree, each queued
        request being dispatched exactly once. */
    method DispatchAll()
      requires Valid()
      modifies this
      ensures Valid() && Tidy() && sort == {}
      ensures multiset(dispatched) == multiset(old(dispatched)) + multiset(old(sort))
    {
      while next.Some?
        invariant Valid()
        invariant multiset(dispatched) + multiset(sort) == multiset(old(dispatched)) + multiset(old(sort))
        decreases sort
      {
        MoveToDispatch(next.value);
      }
    }
  }
}
