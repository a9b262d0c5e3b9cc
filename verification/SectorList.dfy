/**
 The request trees of the I/O schedulers.

 A scheduler keeps its queued requests in a red-black tree keyed by start
 sector, with at most one request per sector.  Here a tree is the set of its
 requests; the tree walks are searches for the neighbour of a sector.
 */
module SectorList {
  import opened Options

  /** A queued request.  `dir` indexes the two-element arrays of a scheduler:
      deadline's data direction (true is WRITE), or "is synchronous". */
  datatype Rq = Rq(id: nat, dir: bool, sector: nat, nr: nat, expires: int)

  type Tree = set<Rq>

  function End(rq: Rq): nat {
    rq.sector + rq.nr
  }

  /** One request per sector. */
  ghost predicate Keyed(t: Tree) {
    forall x, y :: x in t && y in t && x.sector == y.sector ==> x == y
  }

  /** `r` is the lowest request at or above sector `s`, if there is one. */
  ghost predicate IsAtOrAbove(t: Tree, s: nat, r: Option<Rq>) {
    match r
    case None => forall x :: x in t ==> x.sector < s
    case Some(a) => a in t && s <= a.sector && forall x :: x in t && s <= x.sector ==> a.sector <= x.sector
  }

  /** `r` is the highest request strictly below sector `s`, if there is one. */
  ghost predicate IsBelow(t: Tree, s: nat, r: Option<Rq>) {
    match r
    case None => forall x :: x in t ==> s <= x.sector
    case Some(b) => b in t && b.sector < s && forall x :: x in t && x.sector < s ==> x.sector <= b.sector
  }

  /** A walk to the right of sector `s`; `rb_next(rq)` is `AtOrAbove(t, rq.sector + 1)`
      and `rb_first` is `AtOrAbove(t, 0)`. */
  method AtOrAbove(t: Tree, s: nat) returns (r: Option<Rq>)
    ensures IsAtOrAbove(t, s, r)
  {
    r := None;
    var rest := t;
    while rest != {}
      invariant rest <= t && IsAtOrAbove(t - rest, s, r)
      decreases rest
    {
      var x :| x in rest;
      if s <= x.sector && (r.None? || x.sector < r.value.sector) {
        r := Some(x);
      }
      rest := rest - {x};
    }
    assert t - rest == t;
  }

  /** A walk to the left of sector `s`; `rb_prev(rq)` is `Below(t, rq.sector)`. */
  method Below(t: Tree, s: nat) returns (r: Option<Rq>)
    ensures IsBelow(t, s, r)
  {
    r := None;
    var rest := t;
    while rest != {}
      invariant rest <= t && IsBelow(t - rest, s, r)
      decreases rest
    {
      var x :| x in rest;
      if x.sector < s && (r.None? || r.value.sector < x.sector) {
        r := Some(x);
      }
      rest := rest - {x};
    }
    assert t - rest == t;
  }

  /** `elv_rb_find`, which is also the alias that `elv_rb_add` reports. */
  method Find(t: Tree, s: nat) returns (r: Option<Rq>)
    ensures r.Some? ==> r.value in t && r.value.sector == s
    ensures r.None? ==> forall x :: x in t ==> x.sector != s
  {
    r := AtOrAbove(t, s);
    if r.Some? && r.value.sector != s {
      r := None;
    }
  }

  /** In a keyed tree a neighbour search has one answer. */
  lemma SearchIsUnique(t: Tree, s: nat, r: Option<Rq>, r': Option<Rq>)
    requires Keyed(t)
    ensures IsAtOrAbove(t, s, r) && IsAtOrAbove(t, s, r') ==> r == r'
    ensures IsBelow(t, s, r) && IsBelow(t, s, r') ==> r == r'
  {
  }

  /** Every entry of a FIFO list is in the tree. */
  ghost predicate Listed(f: seq<Rq>, t: Tree) {
    f == [] || (f[0] in t && Listed(f[1..], t))
  }

  lemma {:induction false} ListedAppend(f: seq<Rq>, t: Tree, rq: Rq)
    requires Listed(f, t) && rq in t
    ensures Listed(f + [rq], t)
  {
    if f != [] {
      ListedAppend(f[1..], t, rq);
      assert (f + [rq])[1..] == f[1..] + [rq];
    }
  }

  lemma ListedGrow(f: seq<Rq>, t: Tree, t': Tree)
    requires Listed(f, t) && t <= t'
    ensures Listed(f, t')
  {
  }

  /** `list_del_init`: a FIFO list without `rq`. */
  function Without(f: seq<Rq>, rq: Rq): (r: seq<Rq>) {
    if f == [] then []
    else if f[0] == rq then Without(f[1..], rq)
    else [f[0]] + Without(f[1..], rq)
  }

  lemma ListedWithout(f: seq<Rq>, t: Tree, rq: Rq)
    requires Listed(f, t)
    ensures Listed(Without(f, rq), t - {rq})
  {
  }

  /** A FIFO list after the request `was` changed into `now` where it stands. */
  function Replaced(f: seq<Rq>, was: Rq, now: Rq): (r: seq<Rq>) {
    if f == [] then []
    else [if f[0] == was then now else f[0]] + Replaced(f[1..], was, now)
  }

  lemma ListedReplaced(f: seq<Rq>, t: Tree, was: Rq, now: Rq)
    requires Listed(f, t)
    ensures Listed(Replaced(f, was, now), t - {was} + {now})
  {
  }

  /** `list_move`: a FIFO list with `rq` put right behind `where`. */
  function Behind(f: seq<Rq>, where: Rq, rq: Rq): (r: seq<Rq>) {
    if f == [] then []
    else if f[0] == where then [where, rq] + f[1..]
    else [f[0]] + Behind(f[1..], where, rq)
  }

  lemma {:induction false} ListedBehind(f: seq<Rq>, t: Tree, where: Rq, rq: Rq)
    requires Listed(f, t)
    ensures Listed(Behind(f, where, rq), t + {rq})
  {
    ListedGrow(f, t, t + {rq});
    if f != [] {
      if f[0] == where {
        assert ([where, rq] + f[1..])[1..] == [rq] + f[1..];
      } else {
        ListedBehind(f[1..], t, where, rq);
      }
    }
  }

  /** The two FIFO lists of a scheduler. */
  datatype Fifos = Fifos(of0: seq<Rq>, of1: seq<Rq>) {
    function Get(d: bool): seq<Rq> {
      if d then of1 else of0
    }

    predicate Has(rq: Rq) {
      rq in of0 || rq in of1
    }

    function Append(rq: Rq): Fifos {
      if rq.dir then this.(of1 := of1 + [rq]) else this.(of0 := of0 + [rq])
    }

    /** `rq_fifo_clear`. */
    function Clear(rq: Rq): Fifos {
      Fifos(Without(of0, rq), Without(of1, rq))
    }

    /** `rq` leaves its place, turns into `rq'` and stands behind `where`. */
    function Move(rq: Rq, where: Rq, rq': Rq): Fifos {
      Fifos(Behind(Without(of0, rq), where, rq'), Behind(Without(of1, rq), where, rq'))
    }

    function Change(was: Rq, now: Rq): Fifos {
      Fifos(Replaced(of0, was, now), Replaced(of1, was, now))
    }

    ghost predicate Over(t: Tree) {
      Listed(of0, t) && Listed(of1, t)
    }
  }

  /** The FIFO lists follow the tree through an add and a removal. */
  lemma FifosFollow(f: Fifos, t: Tree, rq: Rq)
    requires f.Over(t)
    ensures f.Over(t + {rq}) && f.Append(rq).Over(t + {rq}) && f.Clear(rq).Over(t - {rq})
  {
    ListedGrow(f.of0, t, t + {rq});
    ListedGrow(f.of1, t, t + {rq});
    ListedAppend(f.Get(rq.dir), t + {rq}, rq);
    ListedWithout(f.of0, t, rq);
    ListedWithout(f.of1, t, rq);
  }

  lemma FifosChange(f: Fifos, t: Tree, was: Rq, now: Rq)
    requires f.Over(t)
    ensures f.Change(was, now).Over(t - {was} + {now})
  {
    ListedReplaced(f.of0, t, was, now);
    ListedReplaced(f.of1, t, was, now);
  }

  lemma FifosMove(f: Fifos, t: Tree, rq: Rq, where: Rq, rq': Rq)
    requires f.Over(t)
    ensures f.Move(rq, where, rq').Over(t - {rq} + {rq'})
  {
    ListedWithout(f.of0, t, rq);
    ListedWithout(f.of1, t, rq);
    ListedBehind(Without(f.of0, rq), t - {rq}, where, rq');
    ListedBehind(Without(f.of1, rq), t - {rq}, where, rq');
  }
}
