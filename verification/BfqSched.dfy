/**
 BFQ's flat scheduler: entities moving between the active trees, the idle trees
 and service, with the weight sums, idle lists and budgets that go with them.
 */
module BfqSched {
  import opened Options

  const CLASSES: nat := 3
  const PRIO_LEVELS: nat := 8
  const SERVICE_UNIT: nat := 0x40_0000

  /** Which tree an entity hangs on. */
  datatype Link = NoTree | OnActive(of: nat) | OnIdle(of: nat)

  datatype Entity = Entity(
    tree: Link, onSt: bool, cls: nat, weight: nat,
    newPrio: nat, newCls: nat, changed: bool,
    start: int, finish: int, budget: nat, service: nat)

  /** One service tree; `idle` is its idle tree in tree order. */
  datatype Service = Service(wsum: int, vtime: int, idle: seq<nat>, first: Option<nat>, last: Option<nat>)

  datatype Sched = Sched(ents: seq<Entity>, st: seq<Service>, serving: Option<nat>)

  // ---- Steps ---------------------------------------------------------------

  /** `bfq_delta`; the callers never pass weight zero. */
  function Delta(n: nat, w: int): int {
    if w <= 0 then 0 else n * SERVICE_UNIT / w
  }

  /** `bfq_ioprio_to_weight`. */
  function WeightOf(prio: nat): (w: nat)
    ensures prio < PRIO_LEVELS ==> 1 <= w <= PRIO_LEVELS
  {
    if prio < PRIO_LEVELS then PRIO_LEVELS - prio else 0
  }

  /** A place in the idle order: before the first entity due later. */
  function IdlePlaced(ents: seq<Entity>, l: seq<nat>, i: nat): seq<nat> {
    if l == [] || l[0] >= |ents| || i >= |ents| || ents[l[0]].finish > ents[i].finish then [i] + l
    else [l[0]] + IdlePlaced(ents, l[1..], i)
  }

  function Dropped(l: seq<nat>, i: nat): seq<nat> {
    if l == [] then [] else if l[0] == i then l[1..] else [l[0]] + Dropped(l[1..], i)
  }

  /** `rb_next` and `rb_prev` in the idle order. */
  function NextOf(l: seq<nat>, i: nat): Option<nat> {
    if |l| < 2 then None else if l[0] == i then Some(l[1]) else NextOf(l[1..], i)
  }

  function PrevOf(l: seq<nat>, i: nat): Option<nat> {
    if |l| < 2 then None else if l[1] == i then Some(l[0]) else PrevOf(l[1..], i)
  }

  /** `bfq_idle_insert`. */
  function IdleIn(t: Service, ents: seq<Entity>, i: nat): Service
    requires i < |ents|
  {
    var first := if t.first.None? || (t.first.value < |ents| && ents[t.first.value].finish > ents[i].finish)
      then Some(i) else t.first;
    var last := if t.last.None? || (t.last.value < |ents| && ents[i].finish > ents[t.last.value].finish)
      then Some(i) else t.last;
    t.(first := first, last := last, idle := IdlePlaced(ents, t.idle, i))
  }

  /** `bfq_idle_extract`. */
  function IdleOut(t: Service, i: nat): Service {
    t.(first := if t.first == Some(i) then NextOf(t.idle, i) else t.first,
       last := if t.last == Some(i) then PrevOf(t.idle, i) else t.last,
       idle := Dropped(t.idle, i))
  }

  predicate Fits(s: Sched, i: nat) {
    i < |s.ents| && |s.st| == CLASSES && s.ents[i].cls < CLASSES && s.ents[i].newCls < CLASSES
  }

  function Put(s: Sched, i: nat, e: Entity): Sched
    requires i < |s.ents|
  {
    s.(ents := s.ents[i := e])
  }

  /** Taking an entity off whatever holds it: service, an active tree or an idle
      tree. */
  function Taken(s: Sched, i: nat): Sched
    requires Fits(s, i)
  {
    var e := s.ents[i];
    if s.serving == Some(i) then s.(serving := None)
    else if e.tree == OnActive(e.cls) then Put(s, i, e.(tree := NoTree))
    else if e.tree == OnIdle(e.cls) then
      Put(s, i, e.(tree := NoTree)).(st := s.st[e.cls := IdleOut(s.st[e.cls], i)])
    else s
  }

  /** The first half of `__bfq_activate_entity`: the entity is in hand, with its
      new start time. */
  function Entered(s: Sched, i: nat): Sched
    requires Fits(s, i)
  {
    var e := s.ents[i];
    var t := s.st[e.cls];
    if s.serving == Some(i) then
      var f := e.start + Delta(e.service, e.weight);
      Put(Taken(s, i), i, e.(start := f, finish := f))
    else if e.tree == OnActive(e.cls) then Taken(s, i)
    else if e.tree == OnIdle(e.cls) then
      Put(Taken(s, i), i, e.(tree := NoTree, start := if t.vtime > e.finish then t.vtime else e.finish))
    else
      Put(s, i, e.(start := t.vtime, onSt := true)).(st := s.st[e.cls := t.(wsum := t.wsum + e.weight)])
  }

  /** `__bfq_entity_update_prio`. */
  function Reweighed(s: Sched, i: nat): Sched
    requires Fits(s, i)
  {
    var e := s.ents[i];
    if !e.changed then s
    else
      var w := WeightOf(e.newPrio);
      var st1 := s.st[e.cls := s.st[e.cls].(wsum := s.st[e.cls].wsum - e.weight)];
      var st2 := st1[e.newCls := st1[e.newCls].(wsum := st1[e.newCls].wsum + w)];
      var start := if e.newCls != e.cls then s.st[e.newCls].vtime else e.start;
      Put(s, i, e.(weight := w, cls := e.newCls, changed := false, start := start)).(st := st2)
  }

  /** The end of `__bfq_activate_entity`: finish time and active tree. */
  function Attached(s: Sched, i: nat): Sched
    requires i < |s.ents|
  {
    var e := s.ents[i];
    Put(s, i, e.(finish := e.start + Delta(e.budget, e.weight), tree := OnActive(e.cls)))
  }

  /** `__bfq_activate_entity`. */
  function Activated(s: Sched, i: nat): Sched
    requires Fits(s, i)
  {
    Attached(Reweighed(Entered(s, i), i), i)
  }

  /** `bfq_forget_entity` of an entity in hand. */
  function Forgotten(s: Sched, i: nat): Sched
    requires Fits(s, i)
  {
    var e := s.ents[i];
    var t := s.st[e.cls];
    Put(s, i, e.(onSt := false)).(st := s.st[e.cls := t.(wsum := t.wsum - e.weight)])
  }

  function Idled(s: Sched, i: nat): Sched
    requires Fits(s, i)
  {
    var e := s.ents[i];
    Put(s, i, e.(tree := OnIdle(e.cls))).(st := s.st[e.cls := IdleIn(s.st[e.cls], s.ents, i)])
  }

  /** `__bfq_deactivate_entity` up to the point where the entity is in hand. */
  function Stopped(s: Sched, i: nat): Sched
    requires Fits(s, i)
  {
    var e := s.ents[i];
    if s.serving == Some(i) then Put(Taken(s, i), i, e.(finish := e.start + Delta(e.service, e.weight)))
    else Taken(s, i)
  }

  /** `__bfq_deactivate_entity`. */
  function Deactivated(s: Sched, i: nat, requeue: bool): Sched
    requires Fits(s, i)
  {
    if !s.ents[i].onSt then s
    else
      var h := Stopped(s, i);
      if !requeue || h.ents[i].finish <= h.st[h.ents[i].cls].vtime then Forgotten(h, i) else Idled(h, i)
  }

  predicate NoneActive(ents: seq<Entity>, c: nat) {
    forall i :: 0 <= i < |ents| ==> ents[i].tree != OnActive(c)
  }

  /** `bfq_forget_idle`. */
  function IdleForgotten(s: Sched, c: nat): Sched
    requires |s.st| == CLASSES && c < CLASSES
  {
    var t := s.st[c];
    var back := NoneActive(s.ents, c) && t.last.Some? && t.last.value < |s.ents|
                && s.ents[t.last.value].finish <= t.vtime;
    var s1 := if back then AtVtime(s, c, s.ents[t.last.value].finish) else s;
    if t.first.Some? && Fits(s1, t.first.value) && s1.ents[t.first.value].finish <= s1.st[c].vtime
    then Forgotten(Taken(s1, t.first.value), t.first.value)
    else s1
  }

  function Charged(s: Sched, i: nat, n: nat): Sched
    requires i < |s.ents|
  {
    Put(s, i, s.ents[i].(service := s.ents[i].service + n))
  }

  function AtVtime(s: Sched, c: nat, v: int): Sched
    requires c < |s.st|
  {
    s.(st := s.st[c := s.st[c].(vtime := v)])
  }

  /** How far serving `n` sectors moves the virtual time of the entity's class. */
  function NewVtime(s: Sched, i: nat, n: nat): int
    requires Fits(s, i)
  {
    s.st[s.ents[i].cls].vtime + Delta(n, s.st[s.ents[i].cls].wsum)
  }

  /** `bfq_bfqq_served`. */
  function Served(s: Sched, i: nat, n: nat): Sched
    requires Fits(s, i)
  {
    IdleForgotten(AtVtime(Charged(s, i, n), s.ents[i].cls, NewVtime(s, i, n)), s.ents[i].cls)
  }

  /** `bfq_get_next_queue`: an entity leaves its active tree for service; `jump`
      is where `bfq_update_vtime` moves the virtual time, when it does. */
  function Picked(s: Sched, i: nat, jump: Option<int>): Sched
    requires Fits(s, i)
  {
    var c := s.ents[i].cls;
    var s1 := if jump.Some? then IdleForgotten(AtVtime(s, c, jump.value), c) else s;
    s1.(serving := Some(i),
        ents := if i < |s1.ents| then s1.ents[i := s1.ents[i].(tree := NoTree, service := 0)] else s1.ents)
  }

  /** `bfq_bfqq_budget_left`. */
  function Left(e: Entity): int {
    e.budget - e.service
  }

  /** The entity in service goes back to its active tree with a new budget. */
  function Restarted(s: Sched, i: nat, b: nat): Sched
    requires Fits(s, i)
  {
    Activated(Put(s, i, s.ents[i].(budget := b)), i)
  }

  /** The operations on a device.  `Dispatch` is one turn of
      `__bfq_dispatch_requests`: a request that fits in the budget left is served,
      otherwise the queue expires with a new budget, after a full charge if `full`. */
  datatype Event =
    | Create(prio: nat, cls: nat)
    | SetPrio(id: nat, prio: nat, cls: nat)
    | Wake(id: nat, budget: nat)
    | Rebudget(id: nat, budget: nat)
    | Drop(id: nat, requeue: bool)
    | Pick(id: nat, jump: Option<int>)
    | Dispatch(size: nat, full: bool, budget: nat)
    | ChargeFull
    | Requeue(budget: nat)
    | Stop(requeue: bool)
    | Drain(of: nat)

  /** When an operation may be called. */
  predicate Enabled(s: Sched, ev: Event) {
    match ev
    case Create(p, c) => p < PRIO_LEVELS && c < CLASSES
    case SetPrio(i, p, c) => i < |s.ents| && p < PRIO_LEVELS && c < CLASSES
    case Wake(i, b) => i < |s.ents| && s.serving != Some(i) && !s.ents[i].tree.OnActive?
    case Rebudget(i, b) => i < |s.ents| && s.ents[i].tree.OnActive?
    case Drop(i, r) => i < |s.ents| && s.serving != Some(i)
    case Pick(i, j) => s.serving.None? && i < |s.ents| && s.ents[i].tree.OnActive?
    case Dispatch(n, f, b) => s.serving.Some?
    case ChargeFull => s.serving.Some?
    case Requeue(b) => s.serving.Some?
    case Stop(r) => s.serving.Some?
    case Drain(c) => c < CLASSES
  }

  function Fresh(prio: nat, cls: nat): Entity {
    Entity(NoTree, false, cls, 0, prio, cls, true, 0, 0, 0, 0)
  }

  /** `bfq_bfqq_charge_full_budget`, if asked for. */
  function Spent(s: Sched, i: nat, full: bool): Sched
    requires Fits(s, i) && s.ents[i].service <= s.ents[i].budget
  {
    if full then Served(s, i, Left(s.ents[i])) else s
  }

  function Step(s: Sched, ev: Event): Sched
    requires Inv(s) && Enabled(s, ev)
  {
    match ev
    case Create(p, c) => s.(ents := s.ents + [Fresh(p, c)])
    case SetPrio(i, p, c) => Put(s, i, s.ents[i].(newPrio := p, newCls := c, changed := true))
    case Wake(i, b) => Restarted(s, i, b)
    case Rebudget(i, b) => Restarted(s, i, b)
    case Drop(i, r) => Deactivated(s, i, r)
    case Pick(i, j) => Picked(s, i, j)
    case Dispatch(n, f, b) =>
      var i := s.serving.value;
      if n <= Left(s.ents[i]) then Served(s, i, n) else ServedInv(s, i, Left(s.ents[i])); Restarted(Spent(s, i, f), i, b)
    case ChargeFull => Spent(s, s.serving.value, true)
    case Requeue(b) => Restarted(s, s.serving.value, b)
    case Stop(r) => Deactivated(s, s.serving.value, r)
    case Drain(c) => IdleForgotten(s, c)
  }

  // ---- The invariant ---------------------------------------------------------

  /** The part of an entity's weight that a class counts. */
  function Share(e: Entity, c: nat): nat {
    if e.onSt && e.cls == c then e.weight else 0
  }

  function Total(ents: seq<Entity>, c: nat): nat {
    if ents == [] then 0 else Share(ents[0], c) + Total(ents[1..], c)
  }

  /** An entity's links agree; `held` says it is in service or in hand, `hand`
      that it is in hand. */
  predicate EntOk(e: Entity, held: bool, hand: bool) {
    && e.cls < CLASSES && e.newCls < CLASSES && e.newPrio < PRIO_LEVELS
    && (e.weight >= 1 || (e.changed && (!e.onSt || hand)))
    && (e.tree.NoTree? || e.tree.of == e.cls)
    && (held ==> e.tree.NoTree?)
    && (e.onSt <==> held || !e.tree.NoTree?)
  }

  predicate EntsOk(s: Sched, hand: Option<nat>) {
    forall i :: 0 <= i < |s.ents| ==> EntOk(s.ents[i], s.serving == Some(i) || hand == Some(i), hand == Some(i))
  }

  /** The idle list of a class, its members and its two pointers. */
  predicate NoDup(l: seq<nat>) {
    l == [] || (l[0] !in l[1..] && NoDup(l[1..]))
  }

  predicate Rising(ents: seq<Entity>, l: seq<nat>) {
    |l| < 2 || (l[0] < |ents| && l[1] < |ents| && ents[l[0]].finish <= ents[l[1]].finish && Rising(ents, l[1..]))
  }

  ghost predicate Members(ents: seq<Entity>, l: seq<nat>, c: nat) {
    forall i :: i in l <==> 0 <= i < |ents| && ents[i].tree == OnIdle(c)
  }

  ghost predicate IdleOk(ents: seq<Entity>, t: Service, c: nat) {
    && Members(ents, t.idle, c) && NoDup(t.idle) && Rising(ents, t.idle)
    && t.first == (if t.idle == [] then None else Some(t.idle[0]))
    && (t.last.Some? ==> t.last.value in t.idle)
  }

  predicate SumsOk(s: Sched) {
    |s.st| == CLASSES && forall c :: 0 <= c < CLASSES ==> s.st[c].wsum == Total(s.ents, c)
  }

  ghost predicate IdlesOk(s: Sched) {
    |s.st| == CLASSES && forall c :: 0 <= c < CLASSES ==> IdleOk(s.ents, s.st[c], c)
  }

  predicate ServingOk(s: Sched) {
    s.serving.Some? ==>
      s.serving.value < |s.ents| && s.ents[s.serving.value].service <= s.ents[s.serving.value].budget
  }

  ghost predicate Core(s: Sched, hand: Option<nat>) {
    && SumsOk(s) && EntsOk(s, hand) && IdlesOk(s)
    && (s.serving.Some? ==> s.serving.value < |s.ents|)
    && (hand.Some? ==> hand.value < |s.ents|)
  }

  ghost predicate Inv(s: Sched) {
    Core(s, None) && ServingOk(s)
  }

  // ---- Sums ------------------------------------------------------------------

  lemma {:induction false} TotalPut(ents: seq<Entity>, i: nat, e: Entity, c: nat)
    requires i < |ents|
    ensures Total(ents[i := e], c) == Total(ents, c) - Share(ents[i], c) + Share(e, c)
  {
    var r := ents[i := e];
    if i == 0 {
      assert r[1..] == ents[1..];
    } else {
      assert r[1..] == ents[1..][i - 1 := e];
      TotalPut(ents[1..], i - 1, e, c);
    }
  }

  lemma {:induction false} TotalAtLeast(ents: seq<Entity>, i: nat, c: nat)
    requires i < |ents|
    ensures Total(ents, c) >= Share(ents[i], c)
  {
    if i > 0 {
      TotalAtLeast(ents[1..], i - 1, c);
    }
  }

  lemma {:induction false} TotalAppend(ents: seq<Entity>, e: Entity, c: nat)
    ensures Total(ents + [e], c) == Total(ents, c) + Share(e, c)
  {
    if ents == [] {
      assert ents + [e] == [e] && [e][1..] == [];
    } else {
      assert (ents + [e])[1..] == ents[1..] + [e];
      TotalAppend(ents[1..], e, c);
    }
  }

  /** Sums after one entity and some class sums change together. */
  lemma SumsPut(s: Sched, i: nat, e: Entity, r: Sched)
    requires SumsOk(s) && i < |s.ents| && r.ents == s.ents[i := e] && |r.st| == CLASSES
    requires forall c :: 0 <= c < CLASSES ==> r.st[c].wsum == s.st[c].wsum - Share(s.ents[i], c) + Share(e, c)
    ensures SumsOk(r)
  {
    forall c | 0 <= c < CLASSES
      ensures r.st[c].wsum == Total(r.ents, c)
    {
      TotalPut(s.ents, i, e, c);
    }
  }

  // ---- Idle lists -------------------------------------------------------------

  lemma {:induction false} RisingFrame(ents: seq<Entity>, i: nat, e: Entity, l: seq<nat>)
    requires i < |ents| && Rising(ents, l)
    requires i !in l || e.finish == ents[i].finish
    ensures Rising(ents[i := e], l)
  {
    if |l| >= 2 {
      RisingFrame(ents, i, e, l[1..]);
    }
  }

  lemma IdleFrame(ents: seq<Entity>, i: nat, e: Entity, t: Service, r: Service, c: nat)
    requires i < |ents| && IdleOk(ents, t, c)
    requires r.idle == t.idle && r.first == t.first && r.last == t.last
    requires e.tree == OnIdle(c) <==> ents[i].tree == OnIdle(c)
    requires e.tree == OnIdle(c) ==> e.finish == ents[i].finish
    ensures IdleOk(ents[i := e], r, c)
  {
    RisingFrame(ents, i, e, t.idle);
  }

  lemma {:induction false} DroppedMembers(l: seq<nat>, i: nat, x: nat)
    requires NoDup(l)
    ensures x in Dropped(l, i) <==> x in l && x != i
    ensures NoDup(Dropped(l, i))
  {
    if l != [] {
      DroppedMembers(l[1..], i, x);
      if l[0] != i {
        DroppedMembers(l[1..], i, l[0]);
        assert Dropped(l, i)[1..] == Dropped(l[1..], i);
      } else {
        assert l == [l[0]] + l[1..];
      }
    }
  }

  lemma {:induction false} RisingHead(ents: seq<Entity>, l: seq<nat>)
    requires Rising(ents, l)
    ensures forall k :: 1 <= k < |l| ==> l[0] < |ents| && l[k] < |ents| && ents[l[0]].finish <= ents[l[k]].finish
  {
    if |l| >= 2 {
      RisingHead(ents, l[1..]);
      forall k | 1 <= k < |l|
        ensures l[k] < |ents| && ents[l[0]].finish <= ents[l[k]].finish
      {
        assert l[k] == l[1..][k - 1];
      }
    }
  }

  lemma {:induction false} DroppedRising(ents: seq<Entity>, l: seq<nat>, i: nat)
    requires Rising(ents, l)
    ensures Rising(ents, Dropped(l, i))
    ensures Dropped(l, i) != [] ==> l != [] && (Dropped(l, i)[0] == l[0] || (|l| >= 2 && l[0] == i && Dropped(l, i)[0] == l[1]))
  {
    if l != [] && l[0] != i {
      DroppedRising(ents, l[1..], i);
      assert Dropped(l, i)[1..] == Dropped(l[1..], i);
      RisingHead(ents, l);
      if |l| >= 2 && l[1] == i && |l| >= 3 {
        assert l[2] == l[1..][1];
      }
    }
  }

  lemma {:induction false} PrevInside(l: seq<nat>, i: nat)
    requires NoDup(l)
    ensures PrevOf(l, i).Some? ==> PrevOf(l, i).value in l && PrevOf(l, i).value != i
  {
    if |l| >= 2 && l[1] != i {
      PrevInside(l[1..], i);
    }
  }

  lemma DroppedHead(l: seq<nat>, i: nat)
    requires NoDup(l) && i in l
    ensures (if Dropped(l, i) == [] then None else Some(Dropped(l, i)[0]))
         == if l[0] == i then NextOf(l, i) else Some(l[0])
  {
  }

  lemma IdleOutOk(ents: seq<Entity>, t: Service, i: nat, e: Entity, c: nat)
    requires i < |ents| && IdleOk(ents, t, c) && ents[i].tree == OnIdle(c) && !e.tree.OnIdle?
    ensures IdleOk(ents[i := e], IdleOut(t, i), c)
  {
    var r := IdleOut(t, i);
    forall x: nat
      ensures x in r.idle <==> x in t.idle && x != i
    {
      DroppedMembers(t.idle, i, x);
    }
    DroppedMembers(t.idle, i, i);
    DroppedRising(ents, t.idle, i);
    RisingFrame(ents, i, e, r.idle);
    DroppedHead(t.idle, i);
    PrevInside(t.idle, i);
  }

  lemma {:induction false} PlacedMembers(ents: seq<Entity>, l: seq<nat>, i: nat, x: nat)
    ensures x in IdlePlaced(ents, l, i) <==> x in l || x == i
    ensures NoDup(l) && i !in l ==> NoDup(IdlePlaced(ents, l, i))
  {
    if !(l == [] || l[0] >= |ents| || i >= |ents| || ents[l[0]].finish > ents[i].finish) {
      PlacedMembers(ents, l[1..], i, x);
      PlacedMembers(ents, l[1..], i, l[0]);
      assert IdlePlaced(ents, l, i)[1..] == IdlePlaced(ents, l[1..], i);
    } else {
      assert IdlePlaced(ents, l, i)[1..] == l;
    }
  }

  lemma {:induction false} PlacedRising(ents: seq<Entity>, l: seq<nat>, i: nat)
    requires i < |ents| && Rising(ents, l) && (forall k :: 0 <= k < |l| ==> l[k] < |ents|)
    ensures Rising(ents, IdlePlaced(ents, l, i))
    ensures IdlePlaced(ents, l, i) != []
    ensures IdlePlaced(ents, l, i)[0]
         == if l == [] || ents[l[0]].finish > ents[i].finish then i else l[0]
  {
    if l != [] && ents[l[0]].finish <= ents[i].finish {
      PlacedRising(ents, l[1..], i);
      assert IdlePlaced(ents, l, i)[1..] == IdlePlaced(ents, l[1..], i);
    } else {
      assert IdlePlaced(ents, l, i)[1..] == l;
    }
  }

  lemma IdleInOk(ents: seq<Entity>, t: Service, i: nat, c: nat)
    requires i < |ents| && IdleOk(ents, t, c) && ents[i].tree != OnIdle(c)
    ensures IdleOk(ents[i := ents[i].(tree := OnIdle(c))], IdleIn(t, ents, i), c)
  {
    var r := IdleIn(t, ents, i);
    forall x: nat
      ensures x in r.idle <==> x in t.idle || x == i
    {
      PlacedMembers(ents, t.idle, i, x);
    }
    PlacedMembers(ents, t.idle, i, i);
    forall k | 0 <= k < |t.idle|
      ensures t.idle[k] < |ents|
    {
      assert t.idle[k] in t.idle;
    }
    PlacedRising(ents, t.idle, i);
    RisingFrame(ents, i, ents[i].(tree := OnIdle(c)), r.idle);
  }

  // ---- Every operation keeps the invariant -------------------------------------

  lemma EntsPut(s: Sched, hand: Option<nat>, i: nat, e: Entity, r: Sched, hand': Option<nat>)
    requires EntsOk(s, hand) && i < |s.ents| && r.ents == s.ents[i := e]
    requires EntOk(e, r.serving == Some(i) || hand' == Some(i), hand' == Some(i))
    requires forall j :: 0 <= j < |s.ents| && j != i ==>
      (s.serving == Some(j) <==> r.serving == Some(j)) && (hand == Some(j) <==> hand' == Some(j))
    ensures EntsOk(r, hand')
  {
  }

  /** When one entity changes neither to nor from idle and class sums or virtual
      times change. */
  lemma IdlesFrame(s: Sched, i: nat, e: Entity, r: Sched)
    requires IdlesOk(s) && i < |s.ents| && r.ents == s.ents[i := e] && |r.st| == CLASSES
    requires forall c :: 0 <= c < CLASSES ==>
      r.st[c].idle == s.st[c].idle && r.st[c].first == s.st[c].first && r.st[c].last == s.st[c].last
    requires !e.tree.OnIdle? && !s.ents[i].tree.OnIdle?
    ensures IdlesOk(r)
  {
    forall c | 0 <= c < CLASSES
      ensures IdleOk(r.ents, r.st[c], c)
    {
      IdleFrame(s.ents, i, e, s.st[c], r.st[c], c);
    }
  }

  /** Only one class's idle list changes. */
  lemma IdlesOne(s: Sched, i: nat, e: Entity, k: nat, r: Sched)
    requires IdlesOk(s) && i < |s.ents| && r.ents == s.ents[i := e] && k < CLASSES && |r.st| == CLASSES
    requires forall c :: 0 <= c < CLASSES && c != k ==> r.st[c] == s.st[c]
    requires forall c :: 0 <= c < CLASSES && c != k ==> e.tree != OnIdle(c) && s.ents[i].tree != OnIdle(c)
    requires IdleOk(r.ents, r.st[k], k)
    ensures IdlesOk(r)
  {
    forall c | 0 <= c < CLASSES
      ensures IdleOk(r.ents, r.st[c], c)
    {
      if c != k {
        IdleFrame(s.ents, i, e, s.st[c], r.st[c], c);
      }
    }
  }

  lemma PutSame(ents: seq<Entity>, i: nat)
    requires i < |ents|
    ensures ents[i := ents[i]] == ents
  {
  }

  lemma TakenCore(s: Sched, i: nat)
    requires Core(s, None) && i < |s.ents| && s.ents[i].onSt
    ensures Core(Taken(s, i), Some(i))
    ensures Taken(s, i).ents == s.ents[i := s.ents[i].(tree := NoTree)]
  {
    var e := s.ents[i];
    var r := Taken(s, i);
    PutSame(s.ents, i);
    assert EntOk(e, s.serving == Some(i), false);
    EntsPut(s, None, i, e.(tree := NoTree), r, Some(i));
    SumsPut(s, i, e.(tree := NoTree), r);
    if s.serving != Some(i) && e.tree.OnIdle? {
      IdleOutOk(s.ents, s.st[e.cls], i, e.(tree := NoTree), e.cls);
      IdlesOne(s, i, e.(tree := NoTree), e.cls, r);
    } else {
      IdlesFrame(s, i, e.(tree := NoTree), r);
    }
  }

  /** Times and budgets of an entity in hand are free. */
  lemma RetimedCore(s: Sched, i: nat, e: Entity)
    requires Core(s, Some(i)) && s.serving != Some(i)
    requires var o := s.ents[i]; e == o.(start := e.start, finish := e.finish, budget := e.budget)
    ensures Core(Put(s, i, e), Some(i))
  {
    var r := Put(s, i, e);
    assert EntOk(s.ents[i], true, true);
    EntsPut(s, Some(i), i, e, r, Some(i));
    SumsPut(s, i, e, r);
    IdlesFrame(s, i, e, r);
  }

  lemma EnteredCore(s: Sched, i: nat)
    requires Core(s, None) && i < |s.ents|
    ensures Core(Entered(s, i), Some(i)) && Entered(s, i).serving != Some(i)
    ensures s.serving != Some(i) ==> Entered(s, i).serving == s.serving
    ensures s.serving == Some(i) ==> Entered(s, i).serving.None?
  {
    var e := s.ents[i];
    var r := Entered(s, i);
    assert EntOk(e, s.serving == Some(i), false);
    if e.onSt {
      TakenCore(s, i);
      RetimedCore(Taken(s, i), i, r.ents[i]);
      assert r == Put(Taken(s, i), i, r.ents[i]);
    } else {
      EntsPut(s, None, i, r.ents[i], r, Some(i));
      SumsPut(s, i, r.ents[i], r);
      IdlesFrame(s, i, r.ents[i], r);
    }
  }

  lemma ReweighedCore(s: Sched, i: nat)
    requires Core(s, Some(i)) && s.serving != Some(i)
    ensures Core(Reweighed(s, i), Some(i)) && Reweighed(s, i).serving == s.serving
    ensures Reweighed(s, i).ents[i].weight >= 1
  {
    var e := s.ents[i];
    var r := Reweighed(s, i);
    assert EntOk(e, true, true);
    if e.changed {
      EntsPut(s, Some(i), i, r.ents[i], r, Some(i));
      SumsPut(s, i, r.ents[i], r);
      IdlesFrame(s, i, r.ents[i], r);
    }
  }

  lemma AttachedCore(s: Sched, i: nat)
    requires Core(s, Some(i)) && s.serving != Some(i) && s.ents[i].weight >= 1
    ensures Core(Attached(s, i), None) && Attached(s, i).serving == s.serving
  {
    var r := Attached(s, i);
    assert EntOk(s.ents[i], true, true);
    EntsPut(s, Some(i), i, r.ents[i], r, None);
    SumsPut(s, i, r.ents[i], r);
    IdlesFrame(s, i, r.ents[i], r);
  }

  /** Activation keeps everything, whatever priority change is pending, and the
      weight it divides by is not zero. */
  lemma ActivatedCore(s: Sched, i: nat)
    requires Core(s, None) && i < |s.ents|
    ensures Core(Activated(s, i), None)
    ensures Activated(s, i).ents[i].weight >= 1 && Activated(s, i).ents[i].tree.OnActive?
    ensures Activated(s, i).serving == if s.serving == Some(i) then None else s.serving
  {
    EnteredCore(s, i);
    ReweighedCore(Entered(s, i), i);
    AttachedCore(Reweighed(Entered(s, i), i), i);
  }

  lemma ForgottenCore(s: Sched, i: nat)
    requires Core(s, Some(i)) && s.serving != Some(i) && s.ents[i].weight >= 1
    ensures Core(Forgotten(s, i), None) && Forgotten(s, i).serving == s.serving
  {
    var r := Forgotten(s, i);
    assert EntOk(s.ents[i], true, true);
    EntsPut(s, Some(i), i, r.ents[i], r, None);
    SumsPut(s, i, r.ents[i], r);
    IdlesFrame(s, i, r.ents[i], r);
  }

  lemma IdledCore(s: Sched, i: nat)
    requires Core(s, Some(i)) && s.serving != Some(i) && s.ents[i].weight >= 1
    ensures Core(Idled(s, i), None) && Idled(s, i).serving == s.serving
  {
    var r := Idled(s, i);
    var c := s.ents[i].cls;
    assert EntOk(s.ents[i], true, true);
    EntsPut(s, Some(i), i, r.ents[i], r, None);
    SumsPut(s, i, r.ents[i], r);
    IdleInOk(s.ents, s.st[c], i, c);
    IdlesOne(s, i, r.ents[i], c, r);
  }

  lemma DeactivatedCore(s: Sched, i: nat, requeue: bool)
    requires Core(s, None) && i < |s.ents|
    ensures Core(Deactivated(s, i, requeue), None)
    ensures Deactivated(s, i, requeue).serving == if s.serving == Some(i) then None else s.serving
  {
    var e := s.ents[i];
    assert EntOk(e, s.serving == Some(i), false);
    if e.onSt {
      TakenCore(s, i);
      var h := Stopped(s, i);
      RetimedCore(Taken(s, i), i, h.ents[i]);
      assert h == Put(Taken(s, i), i, h.ents[i]);
      ForgottenCore(h, i);
      IdledCore(h, i);
    }
  }

  /** Virtual times are free. */
  lemma VtimeCore(s: Sched, c: nat, v: int)
    requires Core(s, None) && c < CLASSES
    ensures Core(AtVtime(s, c, v), None)
  {
    var r := AtVtime(s, c, v);
    forall k | 0 <= k < CLASSES
      ensures IdleOk(r.ents, r.st[k], k)
    {
      assert IdleOk(s.ents, s.st[k], k);
    }
    assert forall k :: 0 <= k < CLASSES ==> r.st[k].wsum == s.st[k].wsum;
  }

  /** `bfq_put_idle_entity`. */
  lemma PutIdleCore(s: Sched, f: nat)
    requires Core(s, None) && f < |s.ents| && s.ents[f].tree.OnIdle?
    ensures Core(Forgotten(Taken(s, f), f), None)
    ensures Forgotten(Taken(s, f), f).serving == s.serving && |Forgotten(Taken(s, f), f).ents| == |s.ents|
    ensures forall j :: 0 <= j < |s.ents| && j != f ==> Forgotten(Taken(s, f), f).ents[j] == s.ents[j]
  {
    assert EntOk(s.ents[f], s.serving == Some(f), false);
    TakenCore(s, f);
    ForgottenCore(Taken(s, f), f);
  }

  lemma IdleForgottenCore(s: Sched, c: nat)
    requires Core(s, None) && c < CLASSES
    ensures Core(IdleForgotten(s, c), None)
    ensures IdleForgotten(s, c).serving == s.serving && |IdleForgotten(s, c).ents| == |s.ents|
    ensures forall j :: 0 <= j < |s.ents| && !s.ents[j].tree.OnIdle? ==> IdleForgotten(s, c).ents[j] == s.ents[j]
  {
    var t := s.st[c];
    assert IdleOk(s.ents, t, c);
    var s1 := s;
    if t.last.Some? {
      VtimeCore(s, c, s.ents[t.last.value].finish);
    }
    if NoneActive(s.ents, c) && t.last.Some? && s.ents[t.last.value].finish <= t.vtime {
      s1 := AtVtime(s, c, s.ents[t.last.value].finish);
    }
    if t.first.Some? {
      assert t.first.value in t.idle;
      PutIdleCore(s1, t.first.value);
    }
  }

  lemma ChargedCore(s: Sched, i: nat, n: nat)
    requires Core(s, None) && s.serving == Some(i)
    ensures Core(Charged(s, i, n), None)
    ensures s.ents[i].cls < CLASSES && s.st[s.ents[i].cls].wsum >= s.ents[i].weight >= 1
  {
    var e := s.ents[i];
    assert EntOk(e, true, false);
    TotalAtLeast(s.ents, i, e.cls);
    var r := Charged(s, i, n);
    EntsPut(s, None, i, r.ents[i], r, None);
    SumsPut(s, i, r.ents[i], r);
    IdlesFrame(s, i, r.ents[i], r);
  }

  lemma SpentCore(s: Sched, i: nat, n: nat, v: int)
    requires Core(s, None) && s.serving == Some(i)
    ensures s.ents[i].cls < CLASSES
    ensures var r := IdleForgotten(AtVtime(Charged(s, i, n), s.ents[i].cls, v), s.ents[i].cls);
      && Core(r, None) && r.serving == s.serving && |r.ents| == |s.ents|
      && r.ents[i] == s.ents[i].(service := s.ents[i].service + n)
  {
    ChargedCore(s, i, n);
    VtimeCore(Charged(s, i, n), s.ents[i].cls, v);
    IdleForgottenCore(AtVtime(Charged(s, i, n), s.ents[i].cls, v), s.ents[i].cls);
    assert EntOk(s.ents[i], true, false);
  }

  /** Serving keeps everything as long as it stays within the budget. */
  lemma ServedInv(s: Sched, i: nat, n: nat)
    requires Inv(s) && s.serving == Some(i) && n <= s.ents[i].budget - s.ents[i].service
    ensures Fits(s, i)
    ensures Inv(Served(s, i, n)) && Served(s, i, n).serving == s.serving
    ensures |Served(s, i, n).ents| == |s.ents|
    ensures Served(s, i, n).ents[i] == s.ents[i].(service := s.ents[i].service + n)
  {
    assert EntOk(s.ents[i], true, false);
    SpentCore(s, i, n, NewVtime(s, i, n));
  }

  lemma PickedInv(s: Sched, i: nat, jump: Option<int>)
    requires Inv(s) && s.serving.None? && i < |s.ents| && s.ents[i].tree.OnActive?
    ensures Inv(Picked(s, i, jump)) && Picked(s, i, jump).serving == Some(i)
    ensures |Picked(s, i, jump).ents| == |s.ents|
    ensures Picked(s, i, jump).ents[i] == s.ents[i].(tree := NoTree, service := 0)
  {
    var c := s.ents[i].cls;
    assert EntOk(s.ents[i], false, false);
    var s1 := s;
    if jump.Some? {
      VtimeCore(s, c, jump.value);
      var s0 := AtVtime(s, c, jump.value);
      IdleForgottenCore(s0, c);
      s1 := IdleForgotten(s0, c);
    }
    var r := Picked(s, i, jump);
    EntsPut(s1, None, i, r.ents[i], r, None);
    SumsPut(s1, i, r.ents[i], r);
    IdlesFrame(s1, i, r.ents[i], r);
  }

  lemma CreatedCore(s: Sched, p: nat, c: nat)
    requires Core(s, None) && p < PRIO_LEVELS && c < CLASSES
    ensures Core(s.(ents := s.ents + [Fresh(p, c)]), None)
  {
    var r := s.(ents := s.ents + [Fresh(p, c)]);
    forall k | 0 <= k < CLASSES
      ensures r.st[k].wsum == Total(r.ents, k) && IdleOk(r.ents, r.st[k], k)
    {
      TotalAppend(s.ents, Fresh(p, c), k);
      assert IdleOk(s.ents, s.st[k], k);
      RisingGrows(s.ents, Fresh(p, c), s.st[k].idle);
    }
  }

  lemma {:induction false} RisingGrows(ents: seq<Entity>, e: Entity, l: seq<nat>)
    requires Rising(ents, l)
    ensures Rising(ents + [e], l)
  {
    if |l| >= 2 {
      RisingGrows(ents, e, l[1..]);
    }
  }

  /** A pending priority change or a new budget touches nothing else. */
  lemma TunedCore(s: Sched, i: nat, e: Entity)
    requires Core(s, None) && i < |s.ents|
    requires var o := s.ents[i];
      && (e == o.(budget := e.budget)
          || (e == o.(newPrio := e.newPrio, newCls := e.newCls, changed := true)
              && e.newPrio < PRIO_LEVELS && e.newCls < CLASSES))
    ensures Core(Put(s, i, e), None)
  {
    var r := Put(s, i, e);
    assert EntOk(s.ents[i], s.serving == Some(i), false);
    EntsPut(s, None, i, e, r, None);
    SumsPut(s, i, e, r);
    forall k | 0 <= k < CLASSES
      ensures IdleOk(r.ents, r.st[k], k)
    {
      IdleFrame(s.ents, i, e, s.st[k], s.st[k], k);
    }
  }

  // ---- Timestamps ------------------------------------------------------------

  /** Where an activated entity starts: behind what it was charged when it comes from
      service, where it was when it is active already, and when it wakes up no earlier
      than its finish time and than virtual time, but no later than that.  An entity
      that is new to its class starts at virtual time. */
  predicate StartsRight(e: Entity, served: bool, vtime: int, newVtime: int, start: int) {
    if e.changed && e.newCls != e.cls then start == newVtime
    else if served then start - e.start == Delta(e.service, e.weight)
    else match e.tree
      case OnActive(_) => start == e.start
      case OnIdle(_) => start >= e.finish && start >= vtime && (start == e.finish || start == vtime)
      case NoTree => start == vtime
  }

  lemma ActivatedTimes(s: Sched, i: nat)
    requires Core(s, None) && i < |s.ents|
    ensures Fits(s, i)
    ensures var e, e' := s.ents[i], Activated(s, i).ents[i];
      && StartsRight(e, s.serving == Some(i), s.st[e.cls].vtime, s.st[e.newCls].vtime, e'.start)
      && e'.finish - e'.start == Delta(e'.budget, e'.weight) && e'.budget == e.budget
      && e'.cls == (if e.changed then e.newCls else e.cls) && !e'.changed
      && e'.weight == (if e.changed then PRIO_LEVELS - e.newPrio else e.weight)
  {
    assert EntOk(s.ents[i], s.serving == Some(i), false);
  }

  /** Where a deactivated entity ends: its finish time is moved to what it was charged,
      and it stays known as idle exactly if that is asked for and lies ahead. */
  lemma DeactivatedTimes(s: Sched, i: nat, requeue: bool)
    requires Core(s, None) && i < |s.ents| && s.ents[i].onSt
    ensures Fits(s, i)
    ensures var e, e' := s.ents[i], Deactivated(s, i, requeue).ents[i];
      && e'.finish == (if s.serving == Some(i) then e.start + Delta(e.service, e.weight) else e.finish)
      && e'.start == e.start && e'.weight == e.weight && e'.cls == e.cls
      && (if requeue && e'.finish > s.st[e.cls].vtime then e'.onSt && e'.tree == OnIdle(e.cls)
          else !e'.onSt && e'.tree == NoTree)
  {
    assert EntOk(s.ents[i], s.serving == Some(i), false);
  }

  lemma ActivatedOthers(s: Sched, i: nat, j: nat)
    requires Fits(s, i) && j < |s.ents| && j != i
    ensures |Activated(s, i).ents| == |s.ents| && Activated(s, i).ents[j] == s.ents[j]
  {
  }

  lemma DeactivatedOthers(s: Sched, i: nat, requeue: bool, j: nat)
    requires Fits(s, i) && j < |s.ents| && j != i
    ensures |Deactivated(s, i, requeue).ents| == |s.ents| && Deactivated(s, i, requeue).ents[j] == s.ents[j]
  {
  }

  lemma RetargetedInv(s: Sched, i: nat, b: nat)
    requires Inv(s) && i < |s.ents|
    ensures Fits(s, i)
    ensures var r := Restarted(s, i, b);
      && Inv(r) && |r.ents| == |s.ents| && r.ents[i].tree.OnActive? && r.ents[i].weight >= 1
  {
    var s1 := Put(s, i, s.ents[i].(budget := b));
    TunedCore(s, i, s.ents[i].(budget := b));
    ActivatedCore(s1, i);
    if s.serving.Some? && s.serving.value != i {
      ActivatedOthers(s1, i, s.serving.value);
    }
  }

  lemma DroppedInv(s: Sched, i: nat, requeue: bool)
    requires Inv(s) && i < |s.ents|
    ensures Inv(Deactivated(s, i, requeue))
  {
    DeactivatedCore(s, i, requeue);
    if s.serving.Some? && s.serving.value != i {
      DeactivatedOthers(s, i, requeue, s.serving.value);
    }
  }

  lemma IdleForgottenInv(s: Sched, c: nat)
    requires Inv(s) && c < CLASSES
    ensures Inv(IdleForgotten(s, c))
  {
    IdleForgottenCore(s, c);
    if s.serving.Some? {
      assert EntOk(s.ents[s.serving.value], true, false);
    }
  }

  /** What the code's own check lets through stays within the budget. */
  lemma DispatchedInv(s: Sched, n: nat, full: bool, b: nat)
    requires Inv(s) && s.serving.Some?
    ensures Inv(Step(s, Dispatch(n, full, b)))
  {
    var i := s.serving.value;
    ServedInv(s, i, Left(s.ents[i]));
    if n <= Left(s.ents[i]) {
      ServedInv(s, i, n);
    } else {
      RetargetedInv(Spent(s, i, full), i, b);
    }
  }

  /** Every operation keeps the sums, the links, the idle lists and the budget. */
  lemma StepKeepsInv(s: Sched, ev: Event)
    requires Inv(s) && Enabled(s, ev)
    ensures Inv(Step(s, ev))
  {
    match ev
    case Create(p, c) => CreatedCore(s, p, c);
    case SetPrio(i, p, c) => TunedCore(s, i, s.ents[i].(newPrio := p, newCls := c, changed := true));
    case Wake(i, b) => RetargetedInv(s, i, b);
    case Rebudget(i, b) => RetargetedInv(s, i, b);
    case Drop(i, r) => DroppedInv(s, i, r);
    case Pick(i, j) => PickedInv(s, i, j);
    case Dispatch(n, f, b) => DispatchedInv(s, n, f, b);
    case ChargeFull => ServedInv(s, s.serving.value, Left(s.ents[s.serving.value]));
    case Requeue(b) => RetargetedInv(s, s.serving.value, b);
    case Stop(r) => DroppedInv(s, s.serving.value, r);
    case Drain(c) => IdleForgottenInv(s, c);
  }

  ghost function Init(): (s: Sched)
    ensures Inv(s)
  {
    var t := Service(0, 0, [], None, None);
    Sched([], [t, t, t], None)
  }

  ghost predicate CanRun(s: Sched, evs: seq<Event>)
    requires Inv(s)
    decreases |evs|
  {
    evs == [] || (Enabled(s, evs[0]) && (StepKeepsInv(s, evs[0]); CanRun(Step(s, evs[0]), evs[1..])))
  }

  ghost function Run(s: Sched, evs: seq<Event>): (r: Sched)
    requires Inv(s) && CanRun(s, evs)
    ensures Inv(r)
    decreases |evs|
  {
    if evs == [] then s else (StepKeepsInv(s, evs[0]); Run(Step(s, evs[0]), evs[1..]))
  }

  /** Along every run from an empty device: the sum of a class is that of the
      entities on its trees or in service, it is not zero while one of them is
      served, the first idle pointer is the idle entity due first, and the
      service of the entity being served stays within its budget. */
  lemma SumsAndBudgetsHold(evs: seq<Event>)
    requires CanRun(Init(), evs)
    ensures var s := Run(Init(), evs);
      && (forall c :: 0 <= c < CLASSES ==> s.st[c].wsum == Total(s.ents, c))
      && (s.serving.Some? ==>
            var e := s.ents[s.serving.value];
            e.cls < CLASSES && s.st[e.cls].wsum >= e.weight >= 1 && e.service <= e.budget)
  {
    var s := Run(Init(), evs);
    if s.serving.Some? {
      assert EntOk(s.ents[s.serving.value], true, false);
      TotalAtLeast(s.ents, s.serving.value, s.ents[s.serving.value].cls);
    }
  }

  /** The idle pointers along every run. */
  lemma IdlePointersHold(evs: seq<Event>, c: nat)
    requires CanRun(Init(), evs) && c < CLASSES
    ensures var s := Run(Init(), evs);
      && (s.st[c].first.None? <==> s.st[c].idle == [])
      && (s.st[c].first.Some? ==>
            (&& s.st[c].first.value < |s.ents| && s.ents[s.st[c].first.value].tree == OnIdle(c)
             && forall j :: 0 <= j < |s.ents| && s.ents[j].tree == OnIdle(c) ==>
                  s.ents[s.st[c].first.value].finish <= s.ents[j].finish))
      && (s.st[c].last.Some? ==> s.st[c].last.value < |s.ents| && s.ents[s.st[c].last.value].tree == OnIdle(c))
  {
    var s := Run(Init(), evs);
    var t := s.st[c];
    assert IdleOk(s.ents, t, c);
    RisingHead(s.ents, t.idle);
    if t.first.Some? {
      assert t.idle[0] in t.idle;
      forall j | 0 <= j < |s.ents| && s.ents[j].tree == OnIdle(c)
        ensures s.ents[t.idle[0]].finish <= s.ents[j].finish
      {
        assert j in t.idle;
      }
    }
  }
}
