/**
 The anticipatory scheduler loses no request and invents none: what was added is
 queued, dispatched, merged away or completed, each request once.
 */
module AsConserve {
  import opened AsBatch

  function One(id: nat, x: nat): nat {
    if id == x then 1 else 0
  }

  function QueuedTimes(q: seq<Rq>, x: nat): nat {
    if q == [] then 0 else One(q[0].id, x) + QueuedTimes(q[1..], x)
  }

  function OutTimes(out: seq<Held>, x: nat): nat {
    if out == [] then 0 else One(out[0].rq.id, x) + OutTimes(out[1..], x)
  }

  /** How often the scheduler answers for request `x`. */
  function Known(s: As, x: nat): nat {
    QueuedTimes(s.syncs, x) + QueuedTimes(s.asyncs, x) + OutTimes(s.out, x)
  }

  lemma {:induction false} QueuedAppend(q: seq<Rq>, rq: Rq, x: nat)
    ensures QueuedTimes(q + [rq], x) == QueuedTimes(q, x) + One(rq.id, x)
  {
    if q == [] {
      assert q + [rq] == [rq] && [rq][1..] == [];
    } else {
      assert (q + [rq])[1..] == q[1..] + [rq];
      QueuedAppend(q[1..], rq, x);
    }
  }

  lemma {:induction false} QueuedWithout(q: seq<Rq>, k: nat, x: nat)
    requires k < |q|
    ensures QueuedTimes(q, x) == QueuedTimes(Without(q, k), x) + One(q[k].id, x)
  {
    if k == 0 {
      assert Without(q, 0) == q[1..];
    } else {
      QueuedWithout(q[1..], k - 1, x);
      assert Without(q, k) == [q[0]] + Without(q[1..], k - 1);
    }
  }

  lemma {:induction false} OutAppend(out: seq<Held>, h: Held, x: nat)
    ensures OutTimes(out + [h], x) == OutTimes(out, x) + One(h.rq.id, x)
  {
    if out == [] {
      assert out + [h] == [h] && [h][1..] == [];
    } else {
      assert (out + [h])[1..] == out[1..] + [h];
      OutAppend(out[1..], h, x);
    }
  }

  lemma {:induction false} OutWithout(out: seq<Held>, k: nat, x: nat)
    requires k < |out|
    ensures OutTimes(out, x) == OutTimes(out[..k] + out[k + 1..], x) + One(out[k].rq.id, x)
  {
    var r := out[..k] + out[k + 1..];
    if k == 0 {
      assert r == out[1..];
    } else {
      OutWithout(out[1..], k - 1, x);
      assert r == [out[0]] + (out[1..][..k - 1] + out[1..][k..]);
    }
  }

  lemma {:induction false} OutChanged(out: seq<Held>, k: nat, h: Held, x: nat)
    requires k < |out| && h.rq.id == out[k].rq.id
    ensures OutTimes(out[k := h], x) == OutTimes(out, x)
  {
    if k == 0 {
      assert out[k := h][1..] == out[1..];
    } else {
      OutChanged(out[1..], k - 1, h, x);
      assert out[k := h][1..] == out[1..][k - 1 := h];
    }
  }

  /** The lists of two states are the same. */
  predicate SameLists(s: As, t: As) {
    s.syncs == t.syncs && s.asyncs == t.asyncs && s.out == t.out
  }

  /** A dispatched request goes from its queue to the driver's side, the others stay
      where they are, and nothing is anticipated any more. */
  lemma MoveDispatchesOne(s: As, k: nat)
    requires k < |QueueOf(s, s.sync)|
    ensures var t, rq := MoveToDispatch(s, s.sync, k), QueueOf(s, s.sync)[k];
      && QueueOf(t, s.sync) == Without(QueueOf(s, s.sync), k) && QueueOf(t, !s.sync) == QueueOf(s, !s.sync)
      && t.out == s.out + [Held(rq.(state := Dispatched), false)] && !Waiting(t)
  {
    var rq := QueueOf(s, s.sync)[k];
    assert SameLists(Settled(s, rq, s.sync), s);
  }

  lemma MoveConserves(s: As, k: nat, x: nat)
    requires k < |QueueOf(s, s.sync)|
    ensures Known(MoveToDispatch(s, s.sync, k), x) == Known(s, x)
  {
    MoveDispatchesOne(s, k);
    var rq := QueueOf(s, s.sync)[k];
    QueuedWithout(QueueOf(s, s.sync), k, x);
    OutAppend(s.out, Held(rq.(state := Dispatched), false), x);
  }

  lemma SendConserves(s: As, k: nat, x: nat)
    requires k < |QueueOf(s, s.sync)|
    ensures Known(Send(s, k), x) == Known(s, x)
  {
    if !s.changed {
      MoveConserves(s, k, x);
    } else if s.nrDispatched == 0 {
      MoveConserves(s.(bug := s.bug || s.newBatch, newBatch := s.sync || s.newBatch, changed := false), k, x);
    }
  }

  lemma SwitchConserves(s: As, x: nat)
    ensures Known(Switch(s), x) == Known(s, x)
  {
    if s.syncs != [] && !(s.asyncs != [] && s.sync) {
      SendConserves(s.(bug := s.bug || (!s.sync && s.newBatch), changed := s.changed || !s.sync, sync := true), 0, x);
    } else if s.asyncs != [] {
      SendConserves(s.(changed := s.changed || s.sync, newBatch := if s.sync then false else s.newBatch,
                       sync := false, writeLeft := s.writeMax, idled := false), 0, x);
    }
  }

  lemma ContinueConserves(s: As, h: Hints, x: nat)
    ensures Known(Continue(s, h), x) == Known(s, x)
  {
    if QueueOf(s, s.sync) != [] {
      SendConserves(s, 0, x);
      SendConserves(s, Position(s, h), x);
    }
    SwitchConserves(s, x);
  }

  lemma DispatchConserves(s: As, h: Hints, x: nat)
    ensures Known(Dispatch(s, h), x) == Known(s, x)
  {
    var t := Noted(s);
    ContinueConserves(t, h, x);
    SwitchConserves(t, x);
  }

  lemma AnsweredLists(s: As, ioc: nat)
    ensures SameLists(Answered(s, ioc), s)
  {
  }

  lemma TimedLists(s: As, sync: bool, writeTime: nat, batch: nat)
    ensures SameLists(Timed(s, sync, writeTime, batch), s)
  {
  }

  lemma CompletedLists(s: As, k: nat, writeTime: nat, batch: nat)
    requires k < |s.out|
    ensures SameLists(Completed(s, k, writeTime, batch), s.(out := s.out[..k] + s.out[k + 1..]))
  {
    var rq := s.out[k].rq;
    TimedLists(Counted(s, k), rq.sync, writeTime, batch);
    AnsweredLists(Timed(Counted(s, k), rq.sync, writeTime, batch), rq.ioc);
  }

  lemma CompletedConserves(s: As, k: nat, writeTime: nat, batch: nat, x: nat)
    requires k < |s.out|
    ensures Known(s, x) == Known(Completed(s, k, writeTime, batch), x) + One(s.out[k].rq.id, x)
  {
    OutWithout(s.out, k, x);
    CompletedLists(s, k, writeTime, batch);
  }

  // ---- Whole runs --------------------------------------------------------

  function Arrives(ev: Event, x: nat): nat {
    if ev.Add? then One(ev.id, x) else 0
  }

  function Leaves(s: As, ev: Event, x: nat): nat
    requires Enabled(s, ev)
  {
    match ev
    case Merge(d, k) => One(QueueOf(s, d)[k].id, x)
    case Complete(k, _, _) => One(s.out[k].rq.id, x)
    case _ => 0
  }

  lemma NoticedLists(s: As, good: bool)
    ensures SameLists(Noticed(s, good), s)
  {
  }

  lemma AddConserves(s: As, id: nat, sync: bool, ioc: nat, good: bool, x: nat)
    ensures Known(Added(s, id, sync, ioc, good), x) == Known(s, x) + One(id, x)
  {
    var rq := Rq(id, sync, ioc, Queued);
    QueuedAppend(QueueOf(s, sync), rq, x);
    NoticedLists(Enqueued(s, rq), good);
  }

  lemma StateConserves(s: As, ev: Event, x: nat)
    requires Enabled(s, ev) && (ev.Activate? || ev.Deactivate? || ev.Fire? || ev.Handle?)
    ensures Known(Step(s, ev), x) == Known(s, x)
  {
    if ev.Activate? {
      OutChanged(s.out, ev.k, Held(s.out[ev.k].rq.(state := Removed), true), x);
    } else if ev.Deactivate? {
      OutChanged(s.out, ev.k, Held(s.out[ev.k].rq.(state := Dispatched), false), x);
    } else {
      assert SameLists(Step(s, ev), s);
    }
  }

  lemma StepConserves(s: As, ev: Event, x: nat)
    requires Enabled(s, ev)
    ensures Known(Step(s, ev), x) + Leaves(s, ev, x) == Known(s, x) + Arrives(ev, x)
  {
    match ev
    case Add(id, d, ioc, good) => AddConserves(s, id, d, ioc, good, x);
    case Merge(d, k) => QueuedWithout(QueueOf(s, d), k, x);
    case Ask(h) => DispatchConserves(s, h, x);
    case Complete(k, w, b) => CompletedConserves(s, k, w, b, x);
    case _ => StateConserves(s, ev, x);
  }

  function AllArrived(evs: seq<Event>, x: nat): nat {
    if evs == [] then 0 else Arrives(evs[0], x) + AllArrived(evs[1..], x)
  }

  function AllLeft(s: As, evs: seq<Event>, x: nat): nat
    requires CanRun(s, evs)
    decreases |evs|
  {
    if evs == [] then 0 else Leaves(s, evs[0], x) + AllLeft(Step(s, evs[0]), evs[1..], x)
  }

  /** In every run the requests added are those completed or merged away and those
      still queued or dispatched. */
  lemma {:induction false} NothingLost(s: As, evs: seq<Event>, x: nat)
    requires CanRun(s, evs)
    ensures Known(Run(s, evs), x) + AllLeft(s, evs, x) == Known(s, x) + AllArrived(evs, x)
    decreases |evs|
  {
    if evs != [] {
      StepConserves(s, evs[0], x);
      NothingLost(Step(s, evs[0]), evs[1..], x);
    }
  }
}
