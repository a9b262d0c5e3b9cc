/**
 The active tree of BFQ's B-WF2Q+ scheduler.

 Entities are kept in a search tree ordered by finish time; every node also
 stores the least start time of its subtree.  The tree is a red-black tree; its
 rebalancing is modelled by the rotations it may perform, whatever the colours.
 */
module BfqTree {
  datatype Ent = Ent(id: nat, start: int, finish: int)

  datatype Tree = Nil | Node(left: Tree, e: Ent, min: int, right: Tree)

  datatype Side = L | R

  /** A step from a node to its parent: the side the node is on, the parent's
      entity and stored minimum, and the other child. */
  datatype Frame = Frame(side: Side, e: Ent, min: int, sib: Tree)

  /** The way up to the root, nearest parent first. */
  type Path = seq<Frame>

  function Plug(f: Frame, t: Tree): Tree {
    if f.side.L? then Node(t, f.e, f.min, f.sib) else Node(f.sib, f.e, f.min, t)
  }

  function Unzip(t: Tree, path: Path): Tree
    decreases |path|
  {
    if path == [] then t else Unzip(Plug(path[0], t), path[1..])
  }

  function InOrder(t: Tree): seq<Ent> {
    if t.Nil? then [] else InOrder(t.left) + [t.e] + InOrder(t.right)
  }

  function Least(a: int, b: int): int {
    if b < a then b else a
  }

  /** The least start time of a subtree, recomputed. */
  function MinStart(t: Tree): int
    requires t.Node?
  {
    var m := if t.right.Node? then Least(t.e.start, MinStart(t.right)) else t.e.start;
    if t.left.Node? then Least(m, MinStart(t.left)) else m
  }

  /** Every stored minimum is right. */
  predicate Clean(t: Tree) {
    t.Nil? || (t.min == MinStart(t) && Clean(t.left) && Clean(t.right))
  }

  /** Every stored minimum is right, except perhaps at the root. */
  predicate Almost(t: Tree) {
    t.Nil? || (Clean(t.left) && Clean(t.right))
  }

  lemma CleanParts(t: Tree)
    requires Clean(t)
    ensures Almost(t)
    ensures t.Node? ==> Almost(t.left) && Almost(t.right)
  {
  }

  predicate SibsClean(path: Path) {
    path == [] || (Clean(path[0].sib) && SibsClean(path[1..]))
  }

  predicate SibsAlmost(path: Path) {
    path == [] || (Almost(path[0].sib) && SibsAlmost(path[1..]))
  }

  // ---- bfq_update_active_tree --------------------------------------------

  /** `bfq_update_active_node`. */
  function UpdateNode(t: Tree): Tree {
    if t.Nil? then t
    else
      var m := if t.right.Node? then Least(t.e.start, t.right.min) else t.e.start;
      t.(min := if t.left.Node? then Least(m, t.left.min) else m)
  }

  lemma UpdateCleans(t: Tree)
    requires Almost(t)
    ensures Clean(UpdateNode(t)) && InOrder(UpdateNode(t)) == InOrder(t)
  {
  }

  /** What one step of a path adds before and after the hole. */
  function StepBefore(f: Frame, b: seq<Ent>): seq<Ent> {
    if f.side.L? then b else b + InOrder(f.sib) + [f.e]
  }

  function StepAfter(f: Frame, a: seq<Ent>): seq<Ent> {
    if f.side.L? then [f.e] + InOrder(f.sib) + a else a
  }

  /** What stands before and after the hole of a path. */
  function Before(path: Path): seq<Ent> {
    if path == [] then [] else StepBefore(path[0], Before(path[1..]))
  }

  function After(path: Path): seq<Ent> {
    if path == [] then [] else StepAfter(path[0], After(path[1..]))
  }

  lemma ConsPath(f: Frame, p: Path)
    ensures ([f] + p)[0] == f && ([f] + p)[1..] == p
    ensures Before([f] + p) == StepBefore(f, Before(p))
    ensures After([f] + p) == StepAfter(f, After(p))
    ensures SibsAlmost([f] + p) <==> Almost(f.sib) && SibsAlmost(p)
    ensures SibsClean([f] + p) <==> Clean(f.sib) && SibsClean(p)
  {
  }

  lemma Regroup(a: seq<Ent>, b: seq<Ent>, c: seq<Ent>, d: seq<Ent>, e: seq<Ent>)
    ensures a + (b + c + d) + e == a + b + (c + d + e)
    ensures a + (b + c + d) + e == a + b + c + d + e
  {
  }

  /** Taking one step up, whatever the parent stores, keeps the whole order. */
  lemma UpKeepsOrder(f: Frame, sib: Tree, t: Tree, path: Path)
    requires path != [] && f == path[0] && InOrder(sib) == InOrder(f.sib)
    ensures Before(path[1..]) + InOrder(Plug(f.(sib := sib), t)) + After(path[1..])
         == Before(path) + InOrder(t) + After(path)
  {
    var a, b, m, n := Before(path[1..]), After(path[1..]), InOrder(t), InOrder(f.sib);
    if f.side.L? {
      Regroup(a, m, [f.e], n, b);
    } else {
      Regroup(a, n, [f.e], m, b);
    }
  }

  lemma {:induction false} UnzipOrder(t: Tree, path: Path)
    ensures InOrder(Unzip(t, path)) == Before(path) + InOrder(t) + After(path)
    decreases |path|
  {
    if path == [] {
      assert [] + InOrder(t) + [] == InOrder(t);
    } else {
      UnzipOrder(Plug(path[0], t), path[1..]);
      UpKeepsOrder(path[0], path[0].sib, t, path);
      assert path[0].(sib := path[0].sib) == path[0];
    }
  }

  lemma PlugAlmost(f: Frame, t: Tree)
    requires Clean(f.sib) && Clean(t)
    ensures Almost(Plug(f, t))
  {
  }

  /** `bfq_update_active_tree`: walking up from the deepest modified node and
      repairing the sibling at each level makes the whole tree right. */
  method UpdateActiveTree(start: Tree, above: Path) returns (r: Tree)
    requires start.Node? && Almost(start) && SibsAlmost(above)
    ensures Clean(r) && InOrder(r) == Before(above) + InOrder(start) + After(above)
  {
    r := start;
    var path := above;
    ghost var all := Before(above) + InOrder(start) + After(above);
    while true
      invariant r.Node? && Almost(r) && SibsAlmost(path)
      invariant Before(path) + InOrder(r) + After(path) == all
      decreases |path|
    {
      UpdateCleans(r);
      r := UpdateNode(r);
      if path == [] {
        assert [] + InOrder(r) + [] == InOrder(r);
        return;
      }
      r, path := StepUp(r, path);
    }
  }

  method StepUp(t: Tree, path: Path) returns (r: Tree, rest: Path)
    requires t.Node? && Clean(t) && path != [] && SibsAlmost(path)
    ensures r.Node? && Almost(r) && rest == path[1..] && SibsAlmost(rest)
    ensures Before(rest) + InOrder(r) + After(rest) == Before(path) + InOrder(t) + After(path)
  {
    var f := path[0];
    var sib := if f.sib.Node? then UpdateNode(f.sib) else f.sib;
    UpdateCleans(f.sib);
    UpKeepsOrder(f, sib, t, path);
    r, rest := Plug(f.(sib := sib), t), path[1..];
    PlugAlmost(f.(sib := sib), t);
  }

  // ---- Rebalancing --------------------------------------------------------

  function Child(t: Tree, side: Side): Tree
    requires t.Node?
  {
    if side.L? then t.left else t.right
  }

  function Other(side: Side): Side {
    if side.L? then R else L
  }

  /** The one rotation, single or double, that ends a red-black insertion, seen
      from a node `p[0]` below its parent `p[1]` and grandparent `p[2]`. */
  function TurnHead(p: Path): Path
    requires |p| >= 3
  {
    var x := p[0];
    var q := p[1];
    var g := p[2];
    if q.side == g.side then
      [x] + ([Frame(q.side, q.e, q.min, Plug(g, q.sib))] + p[3..])
    else if x.side == g.side then
      [q] + ([Frame(g.side, x.e, x.min, Plug(g, x.sib))] + p[3..])
    else
      [g] + ([Frame(q.side, x.e, x.min, Plug(q, x.sib))] + p[3..])
  }

  function TurnAbove(p: Path, k: nat): Path
    requires |p| >= k + 3
  {
    if k == 0 then TurnHead(p) else [p[0]] + TurnAbove(p[1..], k - 1)
  }

  /** A node going down on the side its child came up from. */
  lemma OuterKeeps(q: Frame, g: Frame, b: seq<Ent>, a: seq<Ent>)
    requires q.side == g.side
    ensures var r := Frame(q.side, q.e, q.min, Plug(g, q.sib));
      && StepBefore(r, b) == StepBefore(q, StepBefore(g, b))
      && StepAfter(r, a) == StepAfter(q, StepAfter(g, a))
  {
    if q.side.L? {
      Regroup([q.e], InOrder(q.sib), [g.e], InOrder(g.sib), a);
    } else {
      Regroup(b, InOrder(g.sib), [g.e], InOrder(q.sib), [q.e]);
    }
  }

  lemma InnerKeeps(x: Frame, q: Frame, g: Frame, b: seq<Ent>, a: seq<Ent>)
    requires q.side != g.side && x.side == g.side
    ensures var r := Frame(g.side, x.e, x.min, Plug(g, x.sib));
      && StepBefore(q, StepBefore(r, b)) == StepBefore(x, StepBefore(q, StepBefore(g, b)))
      && StepAfter(q, StepAfter(r, a)) == StepAfter(x, StepAfter(q, StepAfter(g, a)))
  {
    if g.side.L? {
      Regroup([x.e], InOrder(x.sib), [g.e], InOrder(g.sib), a);
    } else {
      Regroup(b, InOrder(g.sib), [g.e], InOrder(x.sib), [x.e]);
    }
  }

  lemma CrossKeeps(x: Frame, q: Frame, g: Frame, b: seq<Ent>, a: seq<Ent>)
    requires q.side != g.side && x.side == q.side
    ensures var r := Frame(q.side, x.e, x.min, Plug(q, x.sib));
      && StepBefore(g, StepBefore(r, b)) == StepBefore(x, StepBefore(q, StepBefore(g, b)))
      && StepAfter(g, StepAfter(r, a)) == StepAfter(x, StepAfter(q, StepAfter(g, a)))
  {
    if q.side.L? {
      Regroup([x.e], InOrder(x.sib), [q.e], InOrder(q.sib), a);
    } else {
      Regroup(b, InOrder(q.sib), [q.e], InOrder(x.sib), [x.e]);
    }
  }

  lemma ThreeUp(p: Path)
    requires |p| >= 3
    ensures p == [p[0]] + ([p[1]] + ([p[2]] + p[3..]))
  {
  }

  lemma TurnHeadKeeps(p: Path)
    requires |p| >= 3
    ensures Before(TurnHead(p)) == Before(p) && After(TurnHead(p)) == After(p)
  {
    var x, q, g, rest := p[0], p[1], p[2], p[3..];
    var b, a := Before(rest), After(rest);
    ThreeUp(p);
    ConsPath(g, rest);
    ConsPath(q, [g] + rest);
    ConsPath(x, [q] + ([g] + rest));
    if q.side == g.side {
      var r := Frame(q.side, q.e, q.min, Plug(g, q.sib));
      OuterKeeps(q, g, b, a);
      ConsPath(r, rest);
      ConsPath(x, [r] + rest);
    } else if x.side == g.side {
      var r := Frame(g.side, x.e, x.min, Plug(g, x.sib));
      InnerKeeps(x, q, g, b, a);
      ConsPath(r, rest);
      ConsPath(q, [r] + rest);
    } else {
      var r := Frame(q.side, x.e, x.min, Plug(q, x.sib));
      CrossKeeps(x, q, g, b, a);
      ConsPath(r, rest);
      ConsPath(g, [r] + rest);
    }
  }

  lemma TurnHeadAlmost(p: Path)
    requires |p| >= 3 && SibsClean(p)
    ensures SibsAlmost(TurnHead(p))
  {
    var x, q, g, rest := p[0], p[1], p[2], p[3..];
    ThreeUp(p);
    ConsPath(g, rest);
    ConsPath(q, [g] + rest);
    ConsPath(x, [q] + ([g] + rest));
    CleanIsAlmost(rest);
    var (top, r) :=
      if q.side == g.side then (x, Frame(q.side, q.e, q.min, Plug(g, q.sib)))
      else if x.side == g.side then (q, Frame(g.side, x.e, x.min, Plug(g, x.sib)))
      else (g, Frame(q.side, x.e, x.min, Plug(q, x.sib)));
    ConsPath(r, rest);
    ConsPath(top, [r] + rest);
  }

  lemma {:induction false} CleanIsAlmost(p: Path)
    requires SibsClean(p)
    ensures SibsAlmost(p)
  {
    if p != [] {
      CleanIsAlmost(p[1..]);
    }
  }

  lemma {:induction false} TurnAboveKeeps(p: Path, k: nat)
    requires |p| >= k + 3
    ensures Before(TurnAbove(p, k)) == Before(p) && After(TurnAbove(p, k)) == After(p)
  {
    if k == 0 {
      TurnHeadKeeps(p);
    } else {
      TurnAboveKeeps(p[1..], k - 1);
      assert TurnAbove(p, k)[1..] == TurnAbove(p[1..], k - 1);
    }
  }

  lemma {:induction false} TurnAboveAlmost(p: Path, k: nat)
    requires |p| >= k + 3 && SibsClean(p)
    ensures SibsAlmost(TurnAbove(p, k))
  {
    if k == 0 {
      TurnHeadAlmost(p);
    } else {
      TurnAboveAlmost(p[1..], k - 1);
      assert TurnAbove(p, k)[1..] == TurnAbove(p[1..], k - 1);
    }
  }

  /** One rotation of a red-black deletion: the parent `p[0]` goes down towards
      the hole and its other child, or that child's near child, comes up. */
  function ShiftHead(p: Path, double: bool): Path
    requires p != []
  {
    var f := p[0];
    var s := f.sib;
    if s.Nil? || (double && Child(s, f.side).Nil?) then p
    else
      var near := Child(s, f.side);
      var far := Child(s, Other(f.side));
      if !double then
        [Frame(f.side, f.e, f.min, near)] + ([Frame(f.side, s.e, s.min, far)] + p[1..])
      else
        var down := Plug(Frame(f.side, s.e, s.min, far), Child(near, Other(f.side)));
        [Frame(f.side, f.e, f.min, Child(near, f.side))] + ([Frame(f.side, near.e, near.min, down)] + p[1..])
  }

  datatype Shift = Shift(level: nat, double: bool)

  /** A rotation the shape of the tree does not allow changes nothing. */
  function ShiftAt(p: Path, k: nat, double: bool): Path {
    if p == [] then p
    else if k == 0 then ShiftHead(p, double)
    else [p[0]] + ShiftAt(p[1..], k - 1, double)
  }

  function ShiftAll(p: Path, ms: seq<Shift>): Path
    decreases |ms|
  {
    if ms == [] then p else ShiftAll(ShiftAt(p, ms[0].level, ms[0].double), ms[1..])
  }

  /** The parent of the hole, whose other child must be right if the walk is to
      start there. */
  predicate Ready(p: Path) {
    SibsAlmost(p) && (p != [] ==> Clean(p[0].sib))
  }

  predicate SameOrder(p: Path, q: Path) {
    Before(p) == Before(q) && After(p) == After(q)
  }

  predicate SameParent(p: Path, q: Path) {
    if p == [] then q == [] else q != [] && q[0].e == p[0].e
  }

  lemma SingleKeeps(f: Frame, b: seq<Ent>, a: seq<Ent>)
    requires f.sib.Node?
    ensures var s := f.sib;
      var low := Frame(f.side, f.e, f.min, Child(s, f.side));
      var top := Frame(f.side, s.e, s.min, Child(s, Other(f.side)));
      && StepBefore(low, StepBefore(top, b)) == StepBefore(f, b)
      && StepAfter(low, StepAfter(top, a)) == StepAfter(f, a)
  {
    var s := f.sib;
    Regroup([f.e], InOrder(s.left), [s.e], InOrder(s.right), a);
    Regroup(b, InOrder(s.left), [s.e], InOrder(s.right), [f.e]);
  }

  /** A double rotation is two single ones: first the far half of the sibling
      below its near child, then the usual one. */
  lemma DoubleKeeps(f: Frame, b: seq<Ent>, a: seq<Ent>)
    requires f.sib.Node? && Child(f.sib, f.side).Node?
    ensures var s := f.sib;
      var near := Child(s, f.side);
      var low := Frame(f.side, f.e, f.min, Child(near, f.side));
      var down := Plug(Frame(f.side, s.e, s.min, Child(s, Other(f.side))), Child(near, Other(f.side)));
      var top := Frame(f.side, near.e, near.min, down);
      && StepBefore(low, StepBefore(top, b)) == StepBefore(f, b)
      && StepAfter(low, StepAfter(top, a)) == StepAfter(f, a)
  {
    var s := f.sib;
    var near := Child(s, f.side);
    var down := Plug(Frame(f.side, s.e, s.min, Child(s, Other(f.side))), Child(near, Other(f.side)));
    var turned := if f.side.L? then Node(near.left, near.e, near.min, down)
                  else Node(down, near.e, near.min, near.right);
    if f.side.L? {
      Regroup(InOrder(near.left), [near.e], InOrder(near.right), [s.e], InOrder(s.right));
      assert InOrder(turned) == InOrder(near.left) + [near.e] + (InOrder(near.right) + [s.e] + InOrder(s.right));
    } else {
      Regroup(InOrder(s.left), [s.e], InOrder(near.left), [near.e], InOrder(near.right));
      assert InOrder(turned) == InOrder(s.left) + [s.e] + InOrder(near.left) + [near.e] + InOrder(near.right);
    }
    assert InOrder(turned) == InOrder(s);
    SingleKeeps(f.(sib := turned), b, a);
  }

  lemma ShiftHeadKeeps(p: Path, double: bool)
    requires p != []
    ensures SameOrder(p, ShiftHead(p, double)) && SameParent(p, ShiftHead(p, double))
  {
    var r := ShiftHead(p, double);
    var f, rest := p[0], p[1..];
    var s := f.sib;
    if s.Nil? || (double && Child(s, f.side).Nil?) {
      return;
    }
    var near, far := Child(s, f.side), Child(s, Other(f.side));
    if double {
      DoubleKeeps(f, Before(rest), After(rest));
      var top := Frame(f.side, near.e, near.min, Plug(Frame(f.side, s.e, s.min, far), Child(near, Other(f.side))));
      ConsPath(top, rest);
      ConsPath(Frame(f.side, f.e, f.min, Child(near, f.side)), [top] + rest);
    } else {
      SingleKeeps(f, Before(rest), After(rest));
      var top := Frame(f.side, s.e, s.min, far);
      ConsPath(top, rest);
      ConsPath(Frame(f.side, f.e, f.min, near), [top] + rest);
    }
  }

  lemma ShiftHeadReady(p: Path, double: bool)
    requires p != [] && SibsAlmost(p)
    ensures SibsAlmost(ShiftHead(p, double))
    ensures Ready(p) ==> Ready(ShiftHead(p, double))
  {
    var f, rest := p[0], p[1..];
    var s := f.sib;
    if s.Nil? || (double && Child(s, f.side).Nil?) {
      return;
    }
    var near, far := Child(s, f.side), Child(s, Other(f.side));
    CleanParts(near);
    CleanParts(far);
    if double {
      var top := Frame(f.side, near.e, near.min, Plug(Frame(f.side, s.e, s.min, far), Child(near, Other(f.side))));
      PlugAlmost(Frame(f.side, s.e, s.min, far), Child(near, Other(f.side)));
      ConsPath(top, rest);
      ConsPath(Frame(f.side, f.e, f.min, Child(near, f.side)), [top] + rest);
    } else {
      var top := Frame(f.side, s.e, s.min, far);
      ConsPath(top, rest);
      ConsPath(Frame(f.side, f.e, f.min, near), [top] + rest);
    }
  }

  lemma {:induction false} ShiftAtKeeps(p: Path, k: nat, double: bool)
    ensures SameOrder(p, ShiftAt(p, k, double)) && SameParent(p, ShiftAt(p, k, double))
  {
    if p != [] {
      if k == 0 {
        ShiftHeadKeeps(p, double);
      } else {
        ShiftAtKeeps(p[1..], k - 1, double);
        assert ShiftAt(p, k, double)[1..] == ShiftAt(p[1..], k - 1, double);
      }
    }
  }

  lemma {:induction false} ShiftAtReady(p: Path, k: nat, double: bool)
    requires SibsAlmost(p)
    ensures SibsAlmost(ShiftAt(p, k, double))
    ensures Ready(p) ==> Ready(ShiftAt(p, k, double))
  {
    if p != [] {
      if k == 0 {
        ShiftHeadReady(p, double);
      } else {
        ShiftAtReady(p[1..], k - 1, double);
        assert ShiftAt(p, k, double)[1..] == ShiftAt(p[1..], k - 1, double);
      }
    }
  }

  /** Any rebalancing keeps the order, the parent of the hole, and the condition
      under which the upward walk repairs every minimum. */
  lemma {:induction false} ShiftAllKeeps(p: Path, ms: seq<Shift>)
    requires Ready(p)
    ensures Ready(ShiftAll(p, ms)) && SameOrder(p, ShiftAll(p, ms)) && SameParent(p, ShiftAll(p, ms))
    decreases |ms|
  {
    if ms != [] {
      ShiftAtKeeps(p, ms[0].level, ms[0].double);
      ShiftAtReady(p, ms[0].level, ms[0].double);
      ShiftAllKeeps(ShiftAt(p, ms[0].level, ms[0].double), ms[1..]);
    }
  }
}
