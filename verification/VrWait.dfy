/**
 How long an expired request waits in the V(R) scheduler.  Only the FIFO lists and the
 batch count matter; the neighbour of the head that a dispatch takes otherwise, and
 the alias that an insertion moves out of the way, may be any request.
 */
module VrWait {
  import opened Options
  import opened SectorList

  datatype Config = Config(expire: bool -> nat, batch: nat)

  datatype Wait = Wait(fifo: Fifos, nbatched: nat, now: int)

  predicate Expired(f: seq<Rq>, now: int) {
    f != [] && f[0].expires < now
  }

  /** `vr_check_fifo`: the older of the expired heads, the asynchronous one when both
      are due at the same time. */
  function OldestExpired(f: Fifos, now: int): (r: Option<Rq>)
    ensures r.None? <==> !Expired(f.of0, now) && !Expired(f.of1, now)
    ensures r.Some? ==> exists d :: Expired(f.Get(d), now) && r.value == f.Get(d)[0]
    ensures Expired(f.of0, now) ==> r.value.expires <= f.of0[0].expires
    ensures Expired(f.of1, now) ==> r.value.expires <= f.of1[0].expires
    ensures Expired(f.of0, now) && Expired(f.of1, now) && f.of0[0].expires == f.of1[0].expires ==> r.value == f.of0[0]
  {
    var async := if Expired(f.of0, now) then Some(f.of0[0]) else None;
    var sync := if Expired(f.of1, now) then Some(f.of1[0]) else None;
    assert Expired(f.of0, now) ==> f.Get(false) == f.of0;
    assert Expired(f.of1, now) ==> f.Get(true) == f.of1;
    if async.Some? && sync.Some? then
      if async.value.expires > sync.value.expires then sync else async
    else if sync.Some? then sync else async
  }

  // ---- Steps -------------------------------------------------------------

  /** `vr_move_request`. */
  function Moved(w: Wait, rq: Rq): Wait {
    w.(fifo := w.fifo.Clear(rq), nbatched := w.nbatched + 1)
  }

  function MovedIf(w: Wait, rq: Option<Rq>): Wait {
    if rq.Some? then Moved(w, rq.value) else w
  }

  datatype Event =
    | Tick(now: int)
    | Add(rq: Rq, alias: Option<Rq>)
    | FrontMerge(was: Rq, grown: Rq, alias: Option<Rq>)
    | Absorb(rq: Rq, gone: Rq)
    | Dispatch(near: Option<Rq>)

  predicate Enabled(c: Config, w: Wait, ev: Event) {
    match ev
    case Tick(now) => w.now <= now
    case Add(rq, _) => rq.expires == w.now + c.expire(rq.dir)
    case FrontMerge(was, grown, _) => grown.expires == was.expires
    case Absorb(_, _) => true
    case Dispatch(near) => near.None? ==> w.fifo.of0 == [] && w.fifo.of1 == []
  }

  function Absorbed(f: Fifos, rq: Rq, gone: Rq): Fifos {
    if f.Has(rq) && f.Has(gone) && gone.expires < rq.expires
    then f.Move(rq, gone, rq.(expires := gone.expires)).Clear(gone)
    else f.Clear(gone)
  }

  function Step(c: Config, w: Wait, ev: Event): Wait {
    if !Enabled(c, w, ev) then w
    else match ev
      case Tick(now) => w.(now := now)
      case Add(rq, alias) =>
        var m := MovedIf(w, alias);
        if c.expire(rq.dir) != 0 then m.(fifo := m.fifo.Append(rq)) else m
      case FrontMerge(was, grown, alias) => MovedIf(w.(fifo := w.fifo.Change(was, grown)), alias)
      case Absorb(rq, gone) => w.(fifo := Absorbed(w.fifo, rq, gone))
      case Dispatch(near) =>
        if w.nbatched > c.batch then
          var due := OldestExpired(w.fifo, w.now);
          MovedIf(w.(nbatched := 0), if due.Some? then due else near)
        else MovedIf(w, near)
  }

  function Run(c: Config, w: Wait, evs: seq<Event>): Wait
    decreases |evs|
  {
    if evs == [] then w else Run(c, Step(c, w, evs[0]), evs[1..])
  }

  /** Dispatch calls, which find a request near the head whenever one is queued. */
  function Dispatches(c: Config, w: Wait, evs: seq<Event>): nat
    decreases |evs|
  {
    if evs == [] then 0
    else (if evs[0].Dispatch? && Enabled(c, w, evs[0]) then 1 else 0) + Dispatches(c, Step(c, w, evs[0]), evs[1..])
  }

  // ---- The lists are in the order of their deadlines ---------------------

  predicate NotBefore(f: seq<Rq>, e: int) {
    f == [] || (e <= f[0].expires && NotBefore(f[1..], e))
  }

  predicate InOrder(f: seq<Rq>, top: int) {
    f == [] || (f[0].expires <= top && NotBefore(f[1..], f[0].expires) && InOrder(f[1..], top))
  }

  predicate Ordered(c: Config, w: Wait) {
    InOrder(w.fifo.of0, w.now + c.expire(false)) && InOrder(w.fifo.of1, w.now + c.expire(true))
  }

  lemma InOrderLater(f: seq<Rq>, top: int, top': int)
    requires InOrder(f, top) && top <= top'
    ensures InOrder(f, top')
  {
  }

  lemma {:induction false} NotBeforeWithout(f: seq<Rq>, rq: Rq, e: int)
    requires NotBefore(f, e)
    ensures NotBefore(Without(f, rq), e)
  {
    if f != [] { NotBeforeWithout(f[1..], rq, e); }
  }

  lemma {:induction false} OrderWithout(f: seq<Rq>, rq: Rq, top: int)
    requires InOrder(f, top)
    ensures InOrder(Without(f, rq), top)
  {
    if f != [] {
      OrderWithout(f[1..], rq, top);
      NotBeforeWithout(f[1..], rq, f[0].expires);
    }
  }

  lemma {:induction false} OrderAppend(f: seq<Rq>, rq: Rq)
    requires InOrder(f, rq.expires)
    ensures InOrder(f + [rq], rq.expires)
    ensures forall e :: NotBefore(f, e) && e <= rq.expires ==> NotBefore(f + [rq], e)
  {
    if f == [] {
      assert f + [rq] == [rq] && [rq][1..] == [];
    } else {
      assert (f + [rq])[1..] == f[1..] + [rq];
      OrderAppend(f[1..], rq);
    }
  }

  lemma {:induction false} OrderReplaced(f: seq<Rq>, was: Rq, now: Rq, top: int, e: int)
    requires was.expires == now.expires
    ensures NotBefore(f, e) ==> NotBefore(Replaced(f, was, now), e)
    ensures InOrder(f, top) ==> InOrder(Replaced(f, was, now), top)
  {
    if f != [] {
      OrderReplaced(f[1..], was, now, top, e);
      OrderReplaced(f[1..], was, now, top, f[0].expires);
    }
  }

  lemma {:induction false} OrderBehind(f: seq<Rq>, where: Rq, rq: Rq, top: int, e: int)
    requires rq.expires == where.expires
    ensures NotBefore(f, e) ==> NotBefore(Behind(f, where, rq), e)
    ensures InOrder(f, top) ==> InOrder(Behind(f, where, rq), top)
  {
    if f != [] {
      var b := Behind(f, where, rq);
      if f[0] == where {
        assert b[1..] == [rq] + f[1..] && ([rq] + f[1..])[1..] == f[1..];
      } else {
        OrderBehind(f[1..], where, rq, top, e);
        OrderBehind(f[1..], where, rq, top, f[0].expires);
        assert b[1..] == Behind(f[1..], where, rq);
      }
    }
  }

  lemma MovedIfOrdered(c: Config, w: Wait, rq: Option<Rq>)
    requires Ordered(c, w)
    ensures Ordered(c, MovedIf(w, rq))
  {
    if rq.Some? {
      OrderWithout(w.fifo.of0, rq.value, w.now + c.expire(false));
      OrderWithout(w.fifo.of1, rq.value, w.now + c.expire(true));
    }
  }

  lemma AbsorbedOrdered(f: seq<Rq>, rq: Rq, gone: Rq, top: int)
    requires InOrder(f, top)
    ensures InOrder(Without(f, gone), top)
    ensures InOrder(Without(Behind(Without(f, rq), gone, rq.(expires := gone.expires)), gone), top)
  {
    OrderWithout(f, gone, top);
    OrderWithout(f, rq, top);
    OrderBehind(Without(f, rq), gone, rq.(expires := gone.expires), top, 0);
    OrderWithout(Behind(Without(f, rq), gone, rq.(expires := gone.expires)), gone, top);
  }

  lemma AddOrdered(c: Config, w: Wait, rq: Rq, alias: Option<Rq>)
    requires Ordered(c, w) && Enabled(c, w, Add(rq, alias))
    ensures Ordered(c, Step(c, w, Add(rq, alias)))
  {
    MovedIfOrdered(c, w, alias);
    OrderAppend(MovedIf(w, alias).fifo.Get(rq.dir), rq);
  }

  lemma FrontMergeOrdered(c: Config, w: Wait, was: Rq, grown: Rq, alias: Option<Rq>)
    requires Ordered(c, w) && Enabled(c, w, FrontMerge(was, grown, alias))
    ensures Ordered(c, Step(c, w, FrontMerge(was, grown, alias)))
  {
    OrderReplaced(w.fifo.of0, was, grown, w.now + c.expire(false), 0);
    OrderReplaced(w.fifo.of1, was, grown, w.now + c.expire(true), 0);
    MovedIfOrdered(c, w.(fifo := w.fifo.Change(was, grown)), alias);
  }

  lemma AbsorbOrdered(c: Config, w: Wait, rq: Rq, gone: Rq)
    requires Ordered(c, w)
    ensures Ordered(c, Step(c, w, Absorb(rq, gone)))
  {
    AbsorbedOrdered(w.fifo.of0, rq, gone, w.now + c.expire(false));
    AbsorbedOrdered(w.fifo.of1, rq, gone, w.now + c.expire(true));
  }

  lemma DispatchOrdered(c: Config, w: Wait, near: Option<Rq>)
    requires Ordered(c, w)
    ensures Ordered(c, Step(c, w, Dispatch(near)))
  {
    MovedIfOrdered(c, w, near);
    MovedIfOrdered(c, w.(nbatched := 0), near);
    MovedIfOrdered(c, w.(nbatched := 0), OldestExpired(w.fifo, w.now));
  }

  lemma StepKeepsOrder(c: Config, w: Wait, ev: Event)
    requires Ordered(c, w)
    ensures Ordered(c, Step(c, w, ev))
  {
    if Enabled(c, w, ev) {
      match ev
      case Tick(now) =>
        InOrderLater(w.fifo.of0, w.now + c.expire(false), now + c.expire(false));
        InOrderLater(w.fifo.of1, w.now + c.expire(true), now + c.expire(true));
      case Add(rq, alias) => AddOrdered(c, w, rq, alias);
      case FrontMerge(was, grown, alias) => FrontMergeOrdered(c, w, was, grown, alias);
      case Absorb(rq, gone) => AbsorbOrdered(c, w, rq, gone);
      case Dispatch(near) => DispatchOrdered(c, w, near);
    }
  }

  // ---- How many are due --------------------------------------------------

  /** Entries due by time `e`. */
  function Due(f: seq<Rq>, e: int): nat {
    if f == [] then 0 else (if f[0].expires <= e then 1 else 0) + Due(f[1..], e)
  }

  function AllDue(f: Fifos, e: int): nat {
    Due(f.of0, e) + Due(f.of1, e)
  }

  lemma {:induction false} DueWithout(f: seq<Rq>, rq: Rq, e: int)
    ensures Due(Without(f, rq), e) <= Due(f, e)
    ensures rq in f && rq.expires <= e ==> Due(Without(f, rq), e) < Due(f, e)
  {
    if f != [] { DueWithout(f[1..], rq, e); }
  }

  lemma {:induction false} DueAppend(f: seq<Rq>, rq: Rq, e: int)
    requires e < rq.expires
    ensures Due(f + [rq], e) == Due(f, e)
  {
    if f == [] {
      assert f + [rq] == [rq] && [rq][1..] == [];
    } else {
      assert (f + [rq])[1..] == f[1..] + [rq];
      DueAppend(f[1..], rq, e);
    }
  }

  lemma {:induction false} DueReplaced(f: seq<Rq>, was: Rq, now: Rq, e: int)
    requires was.expires == now.expires
    ensures Due(Replaced(f, was, now), e) == Due(f, e)
  {
    if f != [] { DueReplaced(f[1..], was, now, e); }
  }

  lemma {:induction false} DueBehind(f: seq<Rq>, where: Rq, rq: Rq, e: int)
    requires rq.expires == where.expires
    ensures Due(Behind(f, where, rq), e) == Due(f, e) + (if where in f && where.expires <= e then 1 else 0)
    ensures where in f ==> where in Behind(f, where, rq)
  {
    if f != [] {
      var b := Behind(f, where, rq);
      if f[0] == where {
        assert b == [where, rq] + f[1..] && b[1..] == [rq] + f[1..] && ([rq] + f[1..])[1..] == f[1..];
      } else {
        DueBehind(f[1..], where, rq, e);
        assert b[1..] == Behind(f[1..], where, rq);
      }
    }
  }

  lemma MovedIfDue(w: Wait, rq: Option<Rq>, e: int)
    ensures AllDue(MovedIf(w, rq).fifo, e) <= AllDue(w.fifo, e)
    ensures rq.Some? && (rq.value in w.fifo.of0 || rq.value in w.fifo.of1) && rq.value.expires <= e ==>
              AllDue(MovedIf(w, rq).fifo, e) < AllDue(w.fifo, e)
  {
    if rq.Some? {
      DueWithout(w.fifo.of0, rq.value, e);
      DueWithout(w.fifo.of1, rq.value, e);
    }
  }

  lemma AbsorbedDue(f: seq<Rq>, rq: Rq, gone: Rq, e: int)
    ensures Due(Without(f, gone), e) <= Due(f, e)
    ensures Due(Without(Behind(Without(f, rq), gone, rq.(expires := gone.expires)), gone), e) <= Due(f, e)
  {
    var g, rq' := Without(f, rq), rq.(expires := gone.expires);
    DueWithout(f, gone, e);
    DueWithout(f, rq, e);
    DueBehind(g, gone, rq', e);
    DueWithout(Behind(g, gone, rq'), gone, e);
  }

  /** The head of an ordered list is due first. */
  lemma {:induction false} HeadDueFirst(f: seq<Rq>, e: int)
    requires Due(f, e) > 0 && NotBefore(f[1..], f[0].expires)
    ensures f[0].expires <= e
  {
    if f[0].expires > e { NoneDue(f[1..], f[0].expires, e); }
  }

  lemma {:induction false} NoneDue(f: seq<Rq>, x: int, e: int)
    requires NotBefore(f, x) && e < x
    ensures Due(f, e) == 0
  {
    if f != [] { NoneDue(f[1..], x, e); }
  }

  // ---- Patience ----------------------------------------------------------

  /** Dispatches until the next look at the FIFO lists. */
  function Gap(c: Config, nbatched: nat): nat {
    if nbatched > c.batch then 0 else c.batch + 1 - nbatched
  }

  /** Dispatches until nothing due by `e` is left, at most. */
  function Patience(c: Config, w: Wait, e: int): nat {
    var k := AllDue(w.fifo, e);
    if k == 0 then 0 else Gap(c, w.nbatched) + 1 + Cycles(c, k - 1)
  }

  /** The dispatches of `k` rounds between two looks at the FIFO lists. */
  function Cycles(c: Config, k: nat): nat {
    if k == 0 then 0 else c.batch + 1 + Cycles(c, k - 1)
  }

  lemma {:induction false} CyclesIs(c: Config, k: nat)
    ensures Cycles(c, k) == k * (c.batch + 1)
  {
    if k > 0 {
      CyclesIs(c, k - 1);
      assert k * (c.batch + 1) == (k - 1) * (c.batch + 1) + (c.batch + 1);
    }
  }

  lemma {:induction false} FewerDue(c: Config, k: nat, k': nat)
    requires k' <= k
    ensures Cycles(c, k') <= Cycles(c, k)
  {
    if k' < k { FewerDue(c, k - 1, k'); }
  }

  lemma PatienceLess(c: Config, w: Wait, w': Wait, e: int)
    requires AllDue(w'.fifo, e) <= AllDue(w.fifo, e) && w'.nbatched >= w.nbatched
    ensures Patience(c, w', e) <= Patience(c, w, e)
    ensures 0 < AllDue(w.fifo, e) && w.nbatched < w'.nbatched && w.nbatched <= c.batch ==> Patience(c, w', e) < Patience(c, w, e)
  {
    var k, k' := AllDue(w.fifo, e), AllDue(w'.fifo, e);
    if 0 < k' { FewerDue(c, k - 1, k' - 1); }
  }

  /** The FIFO lists have their turn: one of those due leaves. */
  lemma TurnServes(c: Config, w: Wait, e: int)
    requires Ordered(c, w) && e < w.now && AllDue(w.fifo, e) > 0
    ensures var due := OldestExpired(w.fifo, w.now);
      && due.Some? && due.value.expires <= e
      && AllDue(MovedIf(w.(nbatched := 0), due).fifo, e) < AllDue(w.fifo, e)
  {
    var f := w.fifo;
    if Due(f.of0, e) > 0 { HeadDueFirst(f.of0, e); } else { HeadDueFirst(f.of1, e); }
    MovedIfDue(w.(nbatched := 0), OldestExpired(f, w.now), e);
  }

  lemma DispatchServes(c: Config, w: Wait, near: Option<Rq>, e: int)
    requires Ordered(c, w) && e < w.now && AllDue(w.fifo, e) > 0 && Enabled(c, w, Dispatch(near))
    ensures Patience(c, Step(c, w, Dispatch(near)), e) < Patience(c, w, e)
  {
    var w' := Step(c, w, Dispatch(near));
    if w.nbatched > c.batch {
      TurnServes(c, w, e);
      var k, k' := AllDue(w.fifo, e), AllDue(w'.fifo, e);
      FewerDue(c, k - 1, k');
    } else {
      MovedIfDue(w, near, e);
      PatienceLess(c, w, w', e);
    }
  }

  lemma StepServes(c: Config, w: Wait, ev: Event, e: int)
    requires Ordered(c, w) && e < w.now
    ensures e < Step(c, w, ev).now
    ensures Patience(c, Step(c, w, ev), e) <= Patience(c, w, e)
    ensures ev.Dispatch? && Enabled(c, w, ev) && Patience(c, w, e) > 0 ==> Patience(c, Step(c, w, ev), e) < Patience(c, w, e)
  {
    if Enabled(c, w, ev) {
      var w' := Step(c, w, ev);
      match ev
      case Tick(now) =>
      case Add(rq, alias) =>
        MovedIfDue(w, alias, e);
        DueAppend(MovedIf(w, alias).fifo.Get(rq.dir), rq, e);
        PatienceLess(c, w, w', e);
      case FrontMerge(was, grown, alias) =>
        DueReplaced(w.fifo.of0, was, grown, e);
        DueReplaced(w.fifo.of1, was, grown, e);
        MovedIfDue(w.(fifo := w.fifo.Change(was, grown)), alias, e);
        PatienceLess(c, w, w', e);
      case Absorb(rq, gone) =>
        AbsorbedDue(w.fifo.of0, rq, gone, e);
        AbsorbedDue(w.fifo.of1, rq, gone, e);
        PatienceLess(c, w, w', e);
      case Dispatch(near) =>
        if AllDue(w.fifo, e) > 0 {
          DispatchServes(c, w, near, e);
        } else {
          MovedIfDue(w, near, e);
          MovedIfDue(w.(nbatched := 0), near, e);
          MovedIfDue(w.(nbatched := 0), OldestExpired(w.fifo, w.now), e);
        }
    }
  }

  lemma {:induction false} RunServes(c: Config, w: Wait, evs: seq<Event>, e: int)
    requires Ordered(c, w) && e < w.now
    ensures Patience(c, Run(c, w, evs), e) == 0 || Patience(c, Run(c, w, evs), e) + Dispatches(c, w, evs) <= Patience(c, w, e)
    decreases |evs|
  {
    if evs != [] {
      StepKeepsOrder(c, w, evs[0]);
      StepServes(c, w, evs[0], e);
      RunServes(c, Step(c, w, evs[0]), evs[1..], e);
    }
  }

  lemma {:induction false} RunKeepsOrder(c: Config, w: Wait, evs: seq<Event>)
    requires Ordered(c, w)
    ensures Ordered(c, Run(c, w, evs))
    decreases |evs|
  {
    if evs != [] {
      StepKeepsOrder(c, w, evs[0]);
      RunKeepsOrder(c, Step(c, w, evs[0]), evs[1..]);
    }
  }

  function Init(now: int): Wait {
    Wait(Fifos([], []), 0, now)
  }

  lemma {:induction false} PatienceBound(c: Config, w: Wait, e: int)
    ensures Patience(c, w, e) <= Cycles(c, AllDue(w.fifo, e)) + 1
    ensures Patience(c, w, e) == 0 <==> AllDue(w.fifo, e) == 0
  {
  }

  lemma {:induction false} NoneLeft(c: Config, w: Wait, evs: seq<Event>, e: int)
    requires Ordered(c, w) && e < w.now && Dispatches(c, w, evs) >= Cycles(c, AllDue(w.fifo, e)) + 1
    ensures AllDue(Run(c, w, evs).fifo, e) == 0
  {
    RunServes(c, w, evs, e);
    PatienceBound(c, w, e);
    PatienceBound(c, Run(c, w, evs), e);
  }

  /** From any state a run reaches: of the `k` requests on the FIFO lists that are due by
      a time that has passed, none is left after k * (fifo_batch + 1) + 1 dispatches,
      whatever else arrives, is merged or is moved out of the way. */
  lemma {:induction false} ExpiredLeave(c: Config, start: int, before: seq<Event>, evs: seq<Event>, e: int)
    requires var w := Run(c, Init(start), before);
             e < w.now && Dispatches(c, w, evs) >= AllDue(w.fifo, e) * (c.batch + 1) + 1
    ensures AllDue(Run(c, Run(c, Init(start), before), evs).fifo, e) == 0
  {
    var w := Run(c, Init(start), before);
    RunKeepsOrder(c, Init(start), before);
    CyclesIs(c, AllDue(w.fifo, e));
    NoneLeft(c, w, evs, e);
  }
}
