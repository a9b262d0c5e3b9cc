/**
 Sorted insertion into the dispatch list.

 Schedulers hand requests to `elv_dispatch_sort`, which walks the list from its
 end and keeps the requests in the order of a one-way sweep that starts at the
 boundary sector.
 */
module DispatchSort {

  /** `stop` is REQ_SOFTBARRIER, REQ_HARDBARRIER or REQ_STARTED. */
  datatype Item = Item(sector: nat, nr: nat, write: bool, discard: bool, stop: bool)

  function End(x: Item): nat {
    x.sector + x.nr
  }

  /** In a sweep that starts at `boundary`, sector `a` comes before sector `b`. */
  predicate Precedes(boundary: nat, a: nat, b: nat) {
    if boundary <= a && b < boundary then true
    else if a < boundary && boundary <= b then false
    else a < b
  }

  /** `rq` may be put before `pos`. */
  predicate Passes(boundary: nat, rq: Item, pos: Item) {
    rq.discard == pos.discard && rq.write == pos.write && !pos.stop && Precedes(boundary, rq.sector, pos.sector)
  }

  /** The position that `elv_dispatch_sort` finds. */
  function SortPos(q: seq<Item>, boundary: nat, rq: Item): (p: nat)
    ensures p <= |q|
  {
    if q == [] || !Passes(boundary, rq, q[|q| - 1]) then |q| else SortPos(q[..|q| - 1], boundary, rq)
  }

  function Inserted(q: seq<Item>, p: nat, rq: Item): seq<Item>
    requires p <= |q|
  {
    q[..p] + [rq] + q[p..]
  }

  /** The insertion passes exactly the longest tail it may pass: requests of its own
      kind that are no barrier and not started, and that come later in the sweep, which
      goes up from the boundary and then up from sector 0. */
  lemma {:induction false} SortPosIsRight(q: seq<Item>, boundary: nat, rq: Item, i: nat)
    requires i < |q|
    ensures var p := SortPos(q, boundary, rq);
            var sameKind := rq.write == q[i].write && rq.discard == q[i].discard;
            var later := q[i].sector < boundary <= rq.sector ||
                         (rq.sector < q[i].sector && (boundary <= rq.sector <==> boundary <= q[i].sector));
            && (p <= i ==> sameKind && !q[i].stop && later)
            && (i + 1 == p ==> !(sameKind && !q[i].stop && later))
    decreases |q|
  {
    var front := q[..|q| - 1];
    if Passes(boundary, rq, q[|q| - 1]) && i < |q| - 1 {
      SortPosIsRight(front, boundary, rq, i);
    }
  }

  // ---- Sweeping ----------------------------------------------------------

  /** The two requests do not overlap. */
  predicate Apart(a: Item, b: Item) {
    End(a) <= b.sector || End(b) <= a.sector
  }

  /** The pending list: one kind of request, nothing that stops the sort, in
      sweep order, without overlap. */
  predicate Sweep(q: seq<Item>, boundary: nat, kind: Item) {
    forall i :: 0 <= i < |q| ==>
      && q[i].write == kind.write && q[i].discard == kind.discard && !q[i].stop && 0 < q[i].nr
      && forall j :: i < j < |q| ==> Precedes(boundary, q[i].sector, q[j].sector) && Apart(q[i], q[j])
  }

  lemma PrecedesIsOrder(boundary: nat, a: nat, b: nat, c: nat)
    ensures Precedes(boundary, a, b) && Precedes(boundary, b, c) ==> Precedes(boundary, a, c)
    ensures a != b ==> Precedes(boundary, a, b) != Precedes(boundary, b, a)
  {
  }

  /** The position found splits the list: what stands before it precedes `rq`. */
  lemma SplitPoint(q: seq<Item>, boundary: nat, kind: Item, rq: Item, i: nat)
    requires Sweep(q, boundary, kind) && rq.write == kind.write && rq.discard == kind.discard
    requires i < |q| && forall k :: 0 <= k < |q| ==> rq.sector != q[k].sector
    ensures if i < SortPos(q, boundary, rq) then Precedes(boundary, q[i].sector, rq.sector)
            else Precedes(boundary, rq.sector, q[i].sector)
  {
    var p := SortPos(q, boundary, rq);
    SortPosIsRight(q, boundary, rq, i);
    if i < p {
      SortPosIsRight(q, boundary, rq, p - 1);
      PrecedesIsOrder(boundary, q[p - 1].sector, rq.sector, 0);
      if i < p - 1 { PrecedesIsOrder(boundary, q[i].sector, q[p - 1].sector, rq.sector); }
    }
  }

  /** Sorted insertion keeps the sweep order. */
  lemma SortKeepsSweep(q: seq<Item>, boundary: nat, kind: Item, rq: Item)
    requires Sweep(q, boundary, kind) && rq.write == kind.write && rq.discard == kind.discard && !rq.stop && 0 < rq.nr
    requires forall i :: 0 <= i < |q| ==> Apart(rq, q[i])
    ensures Sweep(Inserted(q, SortPos(q, boundary, rq), rq), boundary, kind)
  {
    var p := SortPos(q, boundary, rq);
    var r := Inserted(q, p, rq);
    forall i, j | 0 <= i < j < |r| ensures Precedes(boundary, r[i].sector, r[j].sector) && Apart(r[i], r[j]) {
      if i == p {
        SplitPoint(q, boundary, kind, rq, j - 1);
      } else if j == p {
        SplitPoint(q, boundary, kind, rq, i);
      }
    }
  }

  /** Issuing the first pending request moves the boundary to its end, from where
      the rest is still in sweep order. */
  lemma IssueKeepsSweep(q: seq<Item>, boundary: nat, kind: Item)
    requires Sweep(q, boundary, kind) && q != []
    ensures Sweep(q[1..], End(q[0]), kind)
  {
    forall i, j | 0 <= i < j < |q[1..]| ensures Precedes(End(q[0]), q[1..][i].sector, q[1..][j].sector) {
      assert Precedes(boundary, q[i + 1].sector, q[j + 1].sector) && Apart(q[0], q[i + 1]) && Apart(q[0], q[j + 1]);
      assert Precedes(boundary, q[0].sector, q[i + 1].sector);
    }
  }

  /** At most the first request was issued; the others are pending in order. */
  predicate UnderWay(q: seq<Item>, boundary: nat, kind: Item) {
    if q != [] && q[0].stop then boundary == End(q[0]) && Sweep(q[1..], boundary, kind)
    else Sweep(q, boundary, kind)
  }

  lemma AddKeepsSweeping(q: seq<Item>, boundary: nat, kind: Item, rq: Item)
    requires UnderWay(q, boundary, kind)
    requires rq.write == kind.write && rq.discard == kind.discard && !rq.stop && 0 < rq.nr
    requires forall x :: x in q && !x.stop ==> Apart(rq, x)
    ensures UnderWay(Inserted(q, SortPos(q, boundary, rq), rq), boundary, kind)
  {
    if q != [] && q[0].stop {
      StopIsFirst(q, boundary, rq);
      assert forall i :: 0 <= i < |q[1..]| ==> q[1..][i] in q;
      SortKeepsSweep(q[1..], boundary, kind, rq);
      var p := SortPos(q[1..], boundary, rq);
      assert ([q[0]] + Inserted(q[1..], p, rq))[1..] == Inserted(q[1..], p, rq);
    } else {
      SortKeepsSweep(q, boundary, kind, rq);
    }
  }

  lemma InsertedItems(q: seq<Item>, p: nat, rq: Item)
    requires p <= |q|
    ensures multiset(Inserted(q, p, rq)) == multiset(q) + multiset{rq}
  {
    assert q == q[..p] + q[p..];
  }

  /** The dispatch list of a queue on which nothing sets a boundary request. */
  class DispatchList {
    var queue: seq<Item>
    var endSector: nat

    constructor ()
      ensures queue == [] && endSector == 0
    {
      queue, endSector := [], 0;
    }

    /** `elv_dispatch_sort`. */
    method Sort(rq: Item)
      modifies this`queue
      ensures queue == Inserted(old(queue), SortPos(old(queue), endSector, rq), rq)
    {
      var p := |queue|;
      assert queue[..p] == queue;
      while p > 0
        invariant 0 <= p <= |queue| && SortPos(queue, endSector, rq) == SortPos(queue[..p], endSector, rq)
      {
        var pos := queue[p - 1];
        if rq.discard != pos.discard || rq.write != pos.write || pos.stop {
          break;
        }
        if rq.sector >= endSector {
          if pos.sector >= endSector && rq.sector >= pos.sector {
            break;
          }
        } else if pos.sector >= endSector || rq.sector >= pos.sector {
          break;
        }
        assert queue[..p][..p - 1] == queue[..p - 1];
        p := p - 1;
      }
      queue := Inserted(queue, p, rq);
    }

    ghost predicate Sweeping(kind: Item)
      reads this
    {
      UnderWay(queue, endSector, kind)
    }

    /** A scheduler that serves one kind of request adds one. */
    method Add(rq: Item, kind: Item)
      requires Sweeping(kind) && rq.write == kind.write && rq.discard == kind.discard && !rq.stop && 0 < rq.nr
      requires forall x :: x in queue && !x.stop ==> Apart(rq, x)
      modifies this`queue
      ensures Sweeping(kind) && multiset(queue) == multiset(old(queue)) + multiset{rq}
    {
      AddKeepsSweeping(queue, endSector, kind, rq);
      InsertedItems(queue, SortPos(queue, endSector, rq), rq);
      Sort(rq);
    }

    /** `elv_next_request`: the head is issued; it is the next one in the sweep. */
    method Issue(kind: Item) returns (rq: Item)
      requires Sweeping(kind) && queue != []
      modifies this
      ensures Sweeping(kind) && queue == [rq] + old(queue)[1..] && rq.stop && rq == old(queue)[0].(stop := true)
      ensures endSector == End(rq)
      ensures forall i :: 0 < i < |queue| && !old(queue)[0].stop ==> Precedes(old(endSector), rq.sector, queue[i].sector)
    {
      rq := queue[0].(stop := true);
      if !queue[0].stop {
        IssueKeepsSweep(queue, endSector, kind);
      }
      endSector := End(rq);
      queue := [rq] + queue[1..];
      assert queue[1..] == old(queue)[1..];
    }

    /** `elv_dequeue_request` of the issued head. */
    method Dequeue(kind: Item)
      requires Sweeping(kind) && queue != [] && queue[0].stop
      modifies this`queue
      ensures Sweeping(kind) && queue == old(queue)[1..]
    {
      queue := queue[1..];
    }
  }

  lemma {:induction false} StopIsFirst(q: seq<Item>, boundary: nat, rq: Item)
    requires q != [] && q[0].stop
    ensures SortPos(q, boundary, rq) == 1 + SortPos(q[1..], boundary, rq)
    ensures var p := SortPos(q[1..], boundary, rq); Inserted(q, p + 1, rq) == [q[0]] + Inserted(q[1..], p, rq)
    decreases |q|
  {
    if |q| > 1 && Passes(boundary, rq, q[|q| - 1]) {
      StopIsFirst(q[..|q| - 1], boundary, rq);
      assert q[1..][..|q| - 2] == q[..|q| - 1][1..];
    }
  }
}
