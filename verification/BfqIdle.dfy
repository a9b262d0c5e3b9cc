/**
 The idle trees of BFQ: when the pointer to the last idle entity goes wrong, when
 virtual time moves back, and runs from an empty device in which each happens.
 */
module BfqIdle {
  import opened Options
  import opened BfqSched

  // ---- The last idle pointer ---------------------------------------------

  /** `last_idle` is the end of the idle tree, and unset when that is empty. */
  predicate LastIsEnd(t: Service) {
    t.last == if t.idle == [] then None else Some(t.idle[|t.idle| - 1])
  }

  predicate Within(l: seq<nat>, n: nat) {
    forall k :: 0 <= k < |l| ==> l[k] < n
  }

  lemma {:induction false} RisingEnd(ents: seq<Entity>, l: seq<nat>, k: nat)
    requires Rising(ents, l) && k < |l| && Within(l, |ents|)
    ensures ents[l[k]].finish <= ents[l[|l| - 1]].finish
    decreases |l|
  {
    if 0 < k {
      assert l[k] == l[1..][k - 1] && l[|l| - 1] == l[1..][|l| - 2];
      RisingEnd(ents, l[1..], k - 1);
    } else {
      RisingHead(ents, l);
    }
  }

  /** An entity goes to the end exactly when none is due later. */
  lemma {:induction false} PlacedEnd(ents: seq<Entity>, l: seq<nat>, i: nat)
    requires i < |ents| && Rising(ents, l) && Within(l, |ents|) && l != []
    ensures var r, end := IdlePlaced(ents, l, i), l[|l| - 1];
            r != [] && r[|r| - 1] == if ents[end].finish <= ents[i].finish then i else end
  {
    var r := IdlePlaced(ents, l, i);
    if ents[l[0]].finish > ents[i].finish {
      RisingEnd(ents, l, 0);
      assert r == [i] + l && r[|r| - 1] == l[|l| - 1];
    } else if |l| == 1 {
      assert l[1..] == [] && IdlePlaced(ents, l[1..], i) == [i];
      assert r == [l[0]] + [i];
    } else {
      PlacedEnd(ents, l[1..], i);
      assert l[1..][|l| - 2] == l[|l| - 1];
      assert r == [l[0]] + IdlePlaced(ents, l[1..], i);
    }
  }

  /** An insertion keeps the pointer right if and only if the new entity is not due
      at the same time as the last one. */
  lemma TieLosesLast(ents: seq<Entity>, t: Service, c: nat, i: nat)
    requires IdleOk(ents, t, c) && LastIsEnd(t) && i < |ents| && ents[i].tree != OnIdle(c)
    ensures LastIsEnd(IdleIn(t, ents, i)) <==> t.idle == [] || ents[i].finish != ents[t.last.value].finish
  {
    if t.idle != [] {
      assert t.last.value in t.idle && i !in t.idle;
      forall k | 0 <= k < |t.idle| ensures t.idle[k] < |ents| {
        assert t.idle[k] in t.idle;
      }
      PlacedEnd(ents, t.idle, i);
    }
  }

  lemma {:induction false} DroppedEnd(l: seq<nat>, i: nat)
    requires NoDup(l) && i in l
    ensures var r := Dropped(l, i);
            && (r == [] <==> l == [i])
            && (r != [] ==> Some(r[|r| - 1]) == if l[|l| - 1] == i then PrevOf(l, i) else Some(l[|l| - 1]))
            && (l[|l| - 1] == i && r == [] ==> PrevOf(l, i).None?)
  {
    var r := Dropped(l, i);
    if l[0] != i {
      DroppedEnd(l[1..], i);
      assert l[1..][|l| - 2] == l[|l| - 1];
      assert r == [l[0]] + Dropped(l[1..], i);
      if l[1] == i && |l| == 2 { assert l[1..] == [i]; }
    } else if |l| > 1 {
      assert l[1..][|l| - 2] == l[|l| - 1];
      assert l[|l| - 1] in l[1..];
    }
  }

  /** An extraction keeps it right. */
  lemma ExtractionKeepsLast(ents: seq<Entity>, t: Service, c: nat, i: nat)
    requires IdleOk(ents, t, c) && LastIsEnd(t) && i in t.idle
    ensures LastIsEnd(IdleOut(t, i))
  {
    DroppedEnd(t.idle, i);
  }

  // ---- Virtual time ------------------------------------------------------

  /** `bfq_forget_idle` never moves virtual time forward; it moves it back exactly
      when no entity of the class is active and the last idle one finished
      earlier. */
  lemma ForgetMovesBack(s: Sched, c: nat)
    requires Inv(s) && c < CLASSES
    ensures IdleForgotten(s, c).st[c].vtime <= s.st[c].vtime
    ensures IdleForgotten(s, c).st[c].vtime < s.st[c].vtime <==>
      NoneActive(s.ents, c) && s.st[c].last.Some? && s.ents[s.st[c].last.value].finish < s.st[c].vtime
  {
    var t := s.st[c];
    assert IdleOk(s.ents, t, c);
    if t.first.Some? {
      assert t.first.value in t.idle;
    }
  }

  /** It forgets the idle entity due first exactly when that is due, and takes its weight
      off the class; it changes no other entity. */
  lemma ForgetsTheDue(s: Sched, c: nat)
    requires Inv(s) && c < CLASSES
    ensures var idle, t := s.st[c].idle, IdleForgotten(s, c);
      if idle != [] && idle[0] < |s.ents| && s.ents[idle[0]].finish <= t.st[c].vtime then
        && t.ents == s.ents[idle[0] := s.ents[idle[0]].(tree := NoTree, onSt := false)]
        && t.st[c].idle == idle[1..] && t.st[c].wsum == s.st[c].wsum - s.ents[idle[0]].weight
      else
        t.ents == s.ents && t.st[c].idle == idle && t.st[c].wsum == s.st[c].wsum
  {
    var t := s.st[c];
    assert IdleOk(s.ents, t, c);
    if t.idle != [] {
      assert t.idle[0] in t.idle;
      assert EntOk(s.ents[t.idle[0]], s.serving == Some(t.idle[0]), false);
    }
  }

  // ---- Runs --------------------------------------------------------------

  /** A selection leaves no choice: the entity is the only active one of all classes
      and eligible without moving virtual time. */
  predicate NoChoice(s: Sched, ev: Event) {
    ev.Pick? ==>
      && ev.id < |s.ents| && s.ents[ev.id].cls < |s.st| && s.ents[ev.id].start <= s.st[s.ents[ev.id].cls].vtime
      && ev.jump.None? && forall j :: 0 <= j < |s.ents| && s.ents[j].tree.OnActive? ==> j == ev.id
  }

  ghost predicate Forced(s: Sched, evs: seq<Event>)
    requires Inv(s) && CanRun(s, evs)
    decreases |evs|
  {
    evs == [] || (NoChoice(s, evs[0]) && (StepKeepsInv(s, evs[0]); Forced(Step(s, evs[0]), evs[1..])))
  }

  /** Reached by a run of the code: what a step may pick is what the search in the
      active trees, whatever their shape, finds. */
  ghost predicate Reachable(s: Sched) {
    exists evs :: CanRun(Init(), evs) && Forced(Init(), evs) && Run(Init(), evs) == s
  }

  lemma {:induction false} RunAppend(s: Sched, evs: seq<Event>, ev: Event)
    requires Inv(s) && CanRun(s, evs) && Forced(s, evs) && Enabled(Run(s, evs), ev) && NoChoice(Run(s, evs), ev)
    ensures CanRun(s, evs + [ev]) && Forced(s, evs + [ev]) && Run(s, evs + [ev]) == Step(Run(s, evs), ev)
    decreases |evs|
  {
    if evs == [] {
      StepKeepsInv(s, ev);
      assert evs + [ev] == [ev] && [ev][1..] == [];
    } else {
      StepKeepsInv(s, evs[0]);
      assert (evs + [ev])[1..] == evs[1..] + [ev];
      RunAppend(Step(s, evs[0]), evs[1..], ev);
    }
  }

  lemma InitReachable()
    ensures Reachable(Init())
  {
    assert CanRun(Init(), []) && Forced(Init(), []) && Run(Init(), []) == Init();
  }

  lemma ReachableStep(s: Sched, ev: Event)
    requires Reachable(s) && Enabled(s, ev) && NoChoice(s, ev)
    ensures Inv(s) && Reachable(Step(s, ev))
  {
    var evs :| CanRun(Init(), evs) && Forced(Init(), evs) && Run(Init(), evs) == s;
    RunAppend(Init(), evs, ev);
  }

  /** An entity of the first class and the highest priority, on the active tree since
      virtual time zero, and the same entity when it is idle. */
  function Busy(b: nat): Entity {
    Entity(OnActive(0), true, 0, 8, 0, 0, false, 0, b * SERVICE_UNIT / 8, b, 0)
  }

  function Idler(b: nat): Entity {
    Busy(b).(tree := OnIdle(0))
  }

  /** A new entity arrives and is activated. */
  lemma Arrives(s: Sched, b: nat)
    requires Reachable(s) && |s.st| == CLASSES && s.st[0].vtime == 0
    requires s.serving.None? || s.serving.value < |s.ents|
    ensures Reachable(s.(ents := s.ents + [Busy(b)], st := s.st[0 := s.st[0].(wsum := s.st[0].wsum + 8)]))
  {
    ReachableStep(s, Create(0, 0));
    var s1 := Step(s, Create(0, 0));
    ReachableStep(s1, Wake(|s.ents|, b));
    WakesNew(s1, |s.ents|, b);
    assert s1.ents[|s.ents| := Busy(b)] == s.ents + [Busy(b)];
  }

  lemma WakesNew(s: Sched, i: nat, b: nat)
    requires |s.st| == CLASSES && s.st[0].vtime == 0 && i < |s.ents| && s.ents[i] == Fresh(0, 0) && s.serving != Some(i)
    ensures Restarted(s, i, b) == Put(s, i, Busy(b)).(st := s.st[0 := s.st[0].(wsum := s.st[0].wsum + 8)])
  {
    var s1 := Entered(Put(s, i, s.ents[i].(budget := b)), i);
    assert s1.st == s.st;
    assert Reweighed(s1, i).st == s.st[0 := s.st[0].(wsum := s.st[0].wsum + 8)];
  }

  /** A busy entity runs out of requests before it was served. */
  lemma Rests(s: Sched, i: nat, b: nat)
    requires Reachable(s) && |s.st| == CLASSES && i < |s.ents| && s.ents[i] == Busy(b) && s.serving != Some(i)
    requires b * SERVICE_UNIT / 8 > s.st[0].vtime
    ensures Reachable(s.(ents := s.ents[i := Idler(b)], st := s.st[0 := IdleIn(s.st[0], s.ents[i := Busy(b).(tree := NoTree)], i)]))
  {
    ReachableStep(s, Drop(i, true));
    var s1 := Step(s, Drop(i, true));
    assert s1.ents == s.ents[i := Idler(b)];
  }

  /** Insertion into an empty idle tree. */
  lemma FirstIdle(t: Service, ents: seq<Entity>, i: nat)
    requires i < |ents| && t.idle == [] && t.first.None? && t.last.None?
    ensures IdleIn(t, ents, i) == t.(idle := [i], first := Some(i), last := Some(i))
  {
    assert IdlePlaced(ents, t.idle, i) == [i];
  }

  /** Insertion behind the only idle entity, or in place of it as the last. */
  lemma SecondIdle(t: Service, ents: seq<Entity>, x: nat, i: nat)
    requires i < |ents| && x < |ents| && t.idle == [x] && t.first == Some(x) && t.last == Some(x)
    requires ents[x].finish <= ents[i].finish
    ensures IdleIn(t, ents, i)
         == t.(idle := [x, i], last := Some(if ents[i].finish > ents[x].finish then i else x))
  {
    assert t.idle[1..] == [] && IdlePlaced(ents, t.idle[1..], i) == [i];
    assert IdlePlaced(ents, t.idle, i) == [x, i];
  }

  const EMPTY := Service(0, 0, [], None, None)

  /** Entity 0 is the first to rest. */
  lemma RestsAlone(s: Sched, b: nat, n: int)
    requires Reachable(s) && |s.st| == CLASSES && 0 < |s.ents| && s.ents[0] == Busy(b) && s.serving.None?
    requires s.st[0] == EMPTY.(wsum := n) && b >= 8
    ensures Reachable(s.(ents := s.ents[0 := Idler(b)], st := s.st[0 := Service(n, 0, [0], Some(0), Some(0))]))
  {
    Rests(s, 0, b);
    FirstIdle(s.st[0], s.ents[0 := Busy(b).(tree := NoTree)], 0);
  }

  /** Entity 1, due no earlier, follows it. */
  lemma RestsBehind(s: Sched, b: nat, b': nat, n: int)
    requires Reachable(s) && |s.st| == CLASSES && 1 < |s.ents| && s.serving.None?
    requires s.ents[0] == Idler(b) && s.ents[1] == Busy(b') && 8 <= b <= b'
    requires s.st[0] == Service(n, 0, [0], Some(0), Some(0))
    ensures Reachable(s.(ents := s.ents[1 := Idler(b')],
                         st := s.st[0 := Service(n, 0, [0, 1], Some(0), Some(if b < b' then 1 else 0))]))
  {
    Rests(s, 1, b');
    SecondIdle(s.st[0], s.ents[1 := Busy(b').(tree := NoTree)], 0, 1);
  }

  lemma TwoArrive(b: nat, b': nat)
    ensures Reachable(Sched([Busy(b), Busy(b')], [EMPTY.(wsum := 16), EMPTY, EMPTY], None))
  {
    InitReachable();
    Arrives(Init(), b);
    var s := Sched([Busy(b)], [EMPTY.(wsum := 8), EMPTY, EMPTY], None);
    assert s == Init().(ents := Init().ents + [Busy(b)], st := Init().st[0 := Init().st[0].(wsum := Init().st[0].wsum + 8)]);
    Arrives(s, b');
    assert s.ents + [Busy(b')] == [Busy(b), Busy(b')];
    assert s.st[0 := s.st[0].(wsum := 16)] == [EMPTY.(wsum := 16), EMPTY, EMPTY];
  }

  /** Two entities with the same budget and priority go idle, and the first one wakes
      up: `last_idle` is unset beside a non-empty idle tree. */
  lemma LastIsLost()
    ensures Reachable(Sched([Idler(8), Idler(8)], [Service(16, 0, [0, 1], Some(0), Some(0)), EMPTY, EMPTY], None))
    ensures !LastIsEnd(Service(16, 0, [0, 1], Some(0), Some(0)))
    ensures exists s :: Reachable(s) && |s.st| == CLASSES && s.st[0].idle == [1] && s.st[0].last.None?
  {
    TwoArrive(8, 8);
    var s0 := Sched([Busy(8), Busy(8)], [EMPTY.(wsum := 16), EMPTY, EMPTY], None);
    RestsAlone(s0, 8, 16);
    var s1 := Sched([Idler(8), Busy(8)], [Service(16, 0, [0], Some(0), Some(0)), EMPTY, EMPTY], None);
    assert s1.ents == s0.ents[0 := Idler(8)] && s1.st == s0.st[0 := s1.st[0]];
    RestsBehind(s1, 8, 8, 16);
    var s2 := Sched([Idler(8), Idler(8)], [Service(16, 0, [0, 1], Some(0), Some(0)), EMPTY, EMPTY], None);
    assert s2.ents == s1.ents[1 := Idler(8)] && s2.st == s1.st[0 := s2.st[0]];
    WakesFirst(s2);
  }

  lemma WakesFirst(s: Sched)
    requires s == Sched([Idler(8), Idler(8)], [Service(16, 0, [0, 1], Some(0), Some(0)), EMPTY, EMPTY], None) && Reachable(s)
    ensures exists s :: Reachable(s) && |s.st| == CLASSES && s.st[0].idle == [1] && s.st[0].last.None?
  {
    ReachableStep(s, Wake(0, 8));
    var s' := Step(s, Wake(0, 8));
    assert [0, 1][1..] == [1];
    assert s'.st[0].idle == [1] && s'.st[0].last.None?;
  }

  /** Four entities, two of them idle, one in service; the last arrived meanwhile. */
  const WAITING := Sched([Idler(8), Idler(16), Busy(96).(tree := NoTree), Busy(8)],
                         [Service(32, 0, [0, 1], Some(0), Some(1)), EMPTY, EMPTY], Some(2))

  lemma WaitingReachable()
    ensures Reachable(WAITING)
  {
    TwoArrive(8, 16);
    var s0 := Sched([Busy(8), Busy(16)], [EMPTY.(wsum := 16), EMPTY, EMPTY], None);
    Arrives(s0, 96);
    var s1 := Sched([Busy(8), Busy(16), Busy(96)], [EMPTY.(wsum := 24), EMPTY, EMPTY], None);
    assert s1.ents == s0.ents + [Busy(96)] && s1.st == s0.st[0 := EMPTY.(wsum := 24)];
    BothRest(s1);
    var s2 := Sched([Idler(8), Idler(16), Busy(96).(tree := NoTree)],
                    [Service(24, 0, [0, 1], Some(0), Some(1)), EMPTY, EMPTY], Some(2));
    Arrives(s2, 8);
    assert WAITING.ents == s2.ents + [Busy(8)] && WAITING.st == s2.st[0 := s2.st[0].(wsum := 32)];
  }

  lemma BothRest(s: Sched)
    requires s == Sched([Busy(8), Busy(16), Busy(96)], [EMPTY.(wsum := 24), EMPTY, EMPTY], None) && Reachable(s)
    ensures Reachable(Sched([Idler(8), Idler(16), Busy(96).(tree := NoTree)],
                            [Service(24, 0, [0, 1], Some(0), Some(1)), EMPTY, EMPTY], Some(2)))
  {
    RestsAlone(s, 8, 24);
    var s1 := Sched([Idler(8), Busy(16), Busy(96)], [Service(24, 0, [0], Some(0), Some(0)), EMPTY, EMPTY], None);
    assert s1.ents == s.ents[0 := Idler(8)] && s1.st == s.st[0 := s1.st[0]];
    RestsBehind(s1, 8, 16, 24);
    var s2 := Sched([Idler(8), Idler(16), Busy(96)], [Service(24, 0, [0, 1], Some(0), Some(1)), EMPTY, EMPTY], None);
    assert s2.ents == s1.ents[1 := Idler(16)] && s2.st == s1.st[0 := s2.st[0]];
    PicksTheOnly(s2);
  }

  /** The entity that is picked is the only active one. */
  lemma PicksTheOnly(s: Sched)
    requires s == Sched([Idler(8), Idler(16), Busy(96)], [Service(24, 0, [0, 1], Some(0), Some(1)), EMPTY, EMPTY], None)
    requires Reachable(s)
    ensures Reachable(Sched([Idler(8), Idler(16), Busy(96).(tree := NoTree)],
                            [Service(24, 0, [0, 1], Some(0), Some(1)), EMPTY, EMPTY], Some(2)))
  {
    ReachableStep(s, Pick(2, None));
    assert Step(s, Pick(2, None)).ents == [Idler(8), Idler(16), Busy(96).(tree := NoTree)];
  }

  /** After 80 sectors the first idle entity is forgotten, the second is overdue. */
  const OVERDUE := Sched([Busy(8).(tree := NoTree, onSt := false), Idler(16), Busy(96).(tree := NoTree, service := 80), Busy(8)],
                         [Service(24, 80 * SERVICE_UNIT / 32, [1], Some(1), Some(1)), EMPTY, EMPTY], Some(2))

  lemma FirstForgotten()
    requires Inv(WAITING)
    ensures Step(WAITING, Dispatch(80, false, 0)) == OVERDUE
  {
    var s := AtVtime(Charged(WAITING, 2, 80), 0, 80 * SERVICE_UNIT / 32);
    assert WAITING.ents[3].tree == OnActive(0) && s.ents[3] == WAITING.ents[3];
    assert !NoneActive(s.ents, 0);
    assert Served(WAITING, 2, 80) == IdleForgotten(s, 0) == Forgotten(Taken(s, 0), 0);
    Forgets(s);
  }

  lemma Forgets(s: Sched)
    requires s == AtVtime(Charged(WAITING, 2, 80), 0, 80 * SERVICE_UNIT / 32)
    ensures Forgotten(Taken(s, 0), 0) == OVERDUE
  {
    assert [0, 1][1..] == [1];
  }

  /** Only the entity in service is left beside the overdue one. */
  const ALONE := Sched([Busy(8).(tree := NoTree, onSt := false), Idler(16), Busy(96).(tree := NoTree, service := 80),
                        Busy(8).(tree := NoTree, onSt := false)],
                       [Service(16, 80 * SERVICE_UNIT / 32, [1], Some(1), Some(1)), EMPTY, EMPTY], Some(2))

  lemma OthersLeave()
    requires Inv(OVERDUE)
    ensures Step(OVERDUE, Drop(3, true)) == ALONE
  {
    assert OVERDUE.ents[3].finish <= OVERDUE.st[0].vtime;
  }

  lemma ServedBack()
    requires Inv(ALONE)
    ensures Step(ALONE, Dispatch(8, false, 0)).st[0].vtime < ALONE.st[0].vtime
  {
    var v := ALONE.st[0].vtime + 8 * SERVICE_UNIT / 16;
    var s := AtVtime(Charged(ALONE, 2, 8), 0, v);
    assert Served(ALONE, 2, 8) == IdleForgotten(s, 0);
    assert NoneActive(s.ents, 0);
    assert s.ents[1].finish == 16 * SERVICE_UNIT / 8 && s.st[0].last == Some(1);
  }

  /** The entity in service is served past the finish times of both idle ones, but
      only one is forgotten at a time; once nothing is active, the next request that
      is served moves virtual time back to the finish time of the other. */
  lemma TimeRunsBack()
    ensures Reachable(ALONE) && Inv(ALONE) && Enabled(ALONE, Dispatch(8, false, 0))
    ensures Step(ALONE, Dispatch(8, false, 0)).st[0].vtime < ALONE.st[0].vtime
  {
    WaitingReachable();
    ReachableStep(WAITING, Dispatch(80, false, 0));
    FirstForgotten();
    ReachableStep(OVERDUE, Drop(3, true));
    OthersLeave();
    ReachableStep(ALONE, Dispatch(8, false, 0));
    ServedBack();
  }
}
