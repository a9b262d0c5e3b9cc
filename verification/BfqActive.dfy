/**
 Insertion into, extraction from and search of BFQ's active tree.
 */
module BfqActive {
  import opened Options
  import opened BfqTree

  // ---- Order --------------------------------------------------------------

  predicate Sorted(s: seq<Ent>) {
    |s| < 2 || (s[0].finish <= s[1].finish && Sorted(s[1..]))
  }

  predicate UpTo(s: seq<Ent>, f: int) {
    forall x :: x in s ==> x.finish <= f
  }

  predicate Beyond(s: seq<Ent>, f: int) {
    forall x :: x in s ==> x.finish > f
  }

  predicate AtLeast(s: seq<Ent>, f: int) {
    forall x :: x in s ==> x.finish >= f
  }

  /** Where a stable insertion by finish time puts `e`: after its equals. */
  function Inserted(s: seq<Ent>, e: Ent): seq<Ent> {
    if s == [] || s[0].finish > e.finish then [e] + s else [s[0]] + Inserted(s[1..], e)
  }

  lemma {:induction false} InsertedBetween(b: seq<Ent>, a: seq<Ent>, e: Ent)
    requires UpTo(b, e.finish) && Beyond(a, e.finish)
    ensures Inserted(b + a, e) == b + [e] + a
  {
    if b == [] {
      assert b + a == a;
    } else {
      assert (b + a)[1..] == b[1..] + a;
      InsertedBetween(b[1..], a, e);
      assert b == [b[0]] + b[1..];
    }
  }

  lemma {:induction false} InsertedSorted(s: seq<Ent>, e: Ent)
    requires Sorted(s)
    ensures Sorted(Inserted(s, e))
  {
    if s != [] && s[0].finish <= e.finish {
      InsertedSorted(s[1..], e);
      assert Inserted(s, e)[1..] == Inserted(s[1..], e);
    } else {
      assert Inserted(s, e)[1..] == s;
    }
  }

  lemma {:induction false} SortedHead(s: seq<Ent>)
    requires Sorted(s) && s != []
    ensures AtLeast(s, s[0].finish)
  {
    if |s| > 1 {
      SortedHead(s[1..]);
    }
  }

  lemma {:induction false} SortedSplit(a: seq<Ent>, b: seq<Ent>)
    requires Sorted(a + b)
    ensures Sorted(a) && Sorted(b)
    ensures b != [] ==> UpTo(a, b[0].finish)
  {
    if a == [] {
      assert a + b == b;
    } else {
      assert (a + b)[1..] == a[1..] + b;
      SortedSplit(a[1..], b);
      SortedHead(a + b);
      if b != [] {
        assert b[0] in a + b;
      }
      if |a| > 1 {
        assert (a + b)[1] == a[1];
      }
    }
  }

  lemma {:induction false} SortedWithout(a: seq<Ent>, x: Ent, b: seq<Ent>)
    requires Sorted(a + [x] + b)
    ensures Sorted(a + b)
  {
    if a == [] {
      assert a + [x] + b == [x] + b && a + b == b;
      SortedSplit([x], b);
    } else {
      assert (a + [x] + b)[1..] == a[1..] + [x] + b && (a + b)[1..] == a[1..] + b;
      SortedWithout(a[1..], x, b);
      SortedHead(a + [x] + b);
      if |a + b| > 1 {
        assert (a + b)[1] in a + [x] + b;
      }
    }
  }

  lemma SortedAround(l: seq<Ent>, x: Ent, r: seq<Ent>)
    requires Sorted(l + [x] + r)
    ensures Sorted(l) && Sorted(r) && UpTo(l, x.finish) && AtLeast(r, x.finish)
  {
    assert l + [x] + r == l + ([x] + r);
    SortedSplit(l, [x] + r);
    SortedSplit([x], r);
    SortedHead([x] + r);
    assert ([x] + r)[1..] == r;
  }

  // ---- bfq_insert and bfq_active_insert ------------------------------------

  /** The way down has left every entity on its side of `e`. */
  predicate Parted(s: seq<Ent>, e: Ent, node: Tree, path: Path) {
    && Clean(node) && Sorted(InOrder(node)) && SibsClean(path)
    && Before(path) + InOrder(node) + After(path) == s
    && UpTo(Before(path), e.finish) && Beyond(After(path), e.finish)
  }

  lemma LeftOf(s: seq<Ent>, e: Ent, node: Tree, path: Path)
    requires node.Node? && Parted(s, e, node, path) && node.e.finish > e.finish
    ensures Parted(s, e, node.left, [Frame(L, node.e, node.min, node.right)] + path)
  {
    var f := Frame(L, node.e, node.min, node.right);
    SortedAround(InOrder(node.left), node.e, InOrder(node.right));
    ConsPath(f, path);
    UpKeepsOrder(f, f.sib, node.left, [f] + path);
    assert Plug(f, node.left) == node;
  }

  lemma RightOf(s: seq<Ent>, e: Ent, node: Tree, path: Path)
    requires node.Node? && Parted(s, e, node, path) && node.e.finish <= e.finish
    ensures Parted(s, e, node.right, [Frame(R, node.e, node.min, node.left)] + path)
  {
    var f := Frame(R, node.e, node.min, node.left);
    SortedAround(InOrder(node.left), node.e, InOrder(node.right));
    ConsPath(f, path);
    UpKeepsOrder(f, f.sib, node.right, [f] + path);
    assert Plug(f, node.right) == node;
  }

  lemma PartedStart(t: Tree, e: Ent)
    requires Clean(t) && Sorted(InOrder(t))
    ensures Parted(InOrder(t), e, t, [])
  {
    assert [] + InOrder(t) + [] == InOrder(t);
  }

  lemma PartedEnd(s: seq<Ent>, e: Ent, path: Path)
    requires Parted(s, e, Nil, path)
    ensures SibsClean(path) && Before(path) + [e] + After(path) == Inserted(s, e)
  {
    assert Before(path) + [] + After(path) == Before(path) + After(path);
    InsertedBetween(Before(path), After(path), e);
  }

  /** The search for the place of a new entity. */
  method FindPlace(t: Tree, e: Ent) returns (path: Path)
    requires Clean(t) && Sorted(InOrder(t))
    ensures SibsClean(path)
    ensures Before(path) + [e] + After(path) == Inserted(InOrder(t), e)
  {
    var node := t;
    path := [];
    PartedStart(t, e);
    while node.Node?
      invariant Parted(InOrder(t), e, node, path)
      decreases node
    {
      if node.e.finish > e.finish {
        LeftOf(InOrder(t), e, node, path);
        path := [Frame(L, node.e, node.min, node.right)] + path;
        node := node.left;
      } else {
        RightOf(InOrder(t), e, node, path);
        path := [Frame(R, node.e, node.min, node.left)] + path;
        node := node.right;
      }
    }
    PartedEnd(InOrder(t), e, path);
  }

  /** The rotation that ends an insertion: none, one lifting the new node, or
      one lifting the node `k` levels above it.  One the shape does not allow
      changes nothing. */
  datatype Turn = NoTurn | AtNew | Above(k: nat)

  /** The new node, whose stored minimum is not set yet, and the way up from it
      once `rb_insert_color` is done. */
  function Linked(e: Ent, junk: int, path: Path, turn: Turn): (Tree, Path) {
    var leaf := Node(Nil, e, junk, Nil);
    match turn
    case Above(k) => if |path| >= k + 3 then (leaf, TurnAbove(path, k)) else (leaf, path)
    case AtNew =>
      if |path| < 2 then (leaf, path)
      else
        var q := path[0];
        var g := path[1];
        if q.side == g.side then (leaf, [Frame(q.side, q.e, q.min, Plug(g, q.sib))] + path[2..])
        else if g.side.L? then (Node(Plug(q, Nil), e, junk, Plug(g, Nil)), path[2..])
        else (Node(Plug(g, Nil), e, junk, Plug(q, Nil)), path[2..])
    case NoTurn => (leaf, path)
  }

  lemma TwoUp(p: Path)
    requires |p| >= 2
    ensures p == [p[0]] + ([p[1]] + p[2..])
  {
  }

  lemma Around(b: seq<Ent>, s: seq<Ent>, x: seq<Ent>, e: seq<Ent>, y: seq<Ent>, t: seq<Ent>, a: seq<Ent>)
    ensures b + (s + x + e + (y + t)) + a == (b + s + x) + e + (y + t + a)
  {
  }

  lemma LiftKeeps(e: Ent, junk: int, path: Path)
    requires |path| >= 2 && SibsClean(path)
    ensures var (node, above) := Linked(e, junk, path, AtNew);
      && node.Node? && node.e == e && Almost(node.left) && Almost(node.right) && SibsAlmost(above)
      && Before(above) + InOrder(node) + After(above) == Before(path) + [e] + After(path)
  {
    var q, g, rest := path[0], path[1], path[2..];
    TwoUp(path);
    ConsPath(g, rest);
    ConsPath(q, [g] + rest);
    CleanIsAlmost(rest);
    var b, a := Before(rest), After(rest);
    if q.side == g.side {
      assert InOrder(Node(Nil, e, junk, Nil)) == [e];
      OuterKeeps(q, g, b, a);
      ConsPath(Frame(q.side, q.e, q.min, Plug(g, q.sib)), rest);
    } else if g.side.L? {
      AloneInOrder(q);
      AloneInOrder(g);
      Around(b, InOrder(q.sib), [q.e], [e], [g.e], InOrder(g.sib), a);
    } else {
      AloneInOrder(q);
      AloneInOrder(g);
      Around(b, InOrder(g.sib), [g.e], [e], [q.e], InOrder(q.sib), a);
    }
  }

  lemma AloneInOrder(f: Frame)
    ensures InOrder(Plug(f, Nil)) == if f.side.L? then [f.e] + InOrder(f.sib) else InOrder(f.sib) + [f.e]
  {
  }

  lemma LinkedKeeps(e: Ent, junk: int, path: Path, turn: Turn)
    requires SibsClean(path)
    ensures var (node, above) := Linked(e, junk, path, turn);
      && node.Node? && node.e == e && Almost(node.left) && Almost(node.right) && SibsAlmost(above)
      && Before(above) + InOrder(node) + After(above) == Before(path) + [e] + After(path)
  {
    assert InOrder(Node(Nil, e, junk, Nil)) == [e];
    CleanIsAlmost(path);
    if turn.Above? && |path| >= turn.k + 3 {
      TurnAboveKeeps(path, turn.k);
      TurnAboveAlmost(path, turn.k);
    } else if turn.AtNew? && |path| >= 2 {
      LiftKeeps(e, junk, path);
    }
  }

  /** The walk of `bfq_active_insert`: from the left child of the new node if
      there is one, else from the right child, else from the node itself. */
  method UpdateFrom(node: Tree, above: Path) returns (r: Tree)
    requires node.Node? && Almost(node.left) && Almost(node.right) && SibsAlmost(above)
    ensures Clean(r) && InOrder(r) == Before(above) + InOrder(node) + After(above)
  {
    if node.left.Nil? && node.right.Nil? {
      r := UpdateActiveTree(node, above);
    } else {
      var f := if node.left.Node? then Frame(L, node.e, node.min, node.right)
               else Frame(R, node.e, node.min, node.left);
      var child := if node.left.Node? then node.left else node.right;
      ConsPath(f, above);
      UpKeepsOrder(f, f.sib, child, [f] + above);
      assert Plug(f, child) == node;
      r := UpdateActiveTree(child, [f] + above);
    }
  }

  // ---- bfq_extract and bfq_active_extract ----------------------------------

  /** The leftmost node of a subtree, and the entity of that node's parent. */
  function Leftmost(t: Tree): (r: Tree)
    requires t.Node?
    ensures r.Node? && r.left.Nil?
  {
    if t.left.Nil? then t else Leftmost(t.left)
  }

  function LeftmostParent(t: Tree): Ent
    requires t.Node? && t.left.Node?
  {
    if t.left.left.Nil? then t.e else LeftmostParent(t.left)
  }

  /** What stays at the place of the leftmost node, and the way up from there. */
  function LeftHole(t: Tree, path: Path): (Tree, Path)
    requires t.Node?
  {
    if t.left.Nil? then (t.right, path)
    else LeftHole(t.left, [Frame(L, t.e, t.min, t.right)] + path)
  }

  /** `rb_erase` before rebalancing: what moves into the emptied place, and the
      way up from there; a node with two children is replaced by its successor,
      which keeps its own stored minimum. */
  function Unlinked(n: Tree, path: Path): (Tree, Path)
    requires n.Node?
  {
    if n.left.Nil? then (n.right, path)
    else if n.right.Nil? then (n.left, path)
    else
      var y := Leftmost(n.right);
      LeftHole(n.right, [Frame(R, y.e, y.min, n.left)] + path)
  }

  /** `bfq_find_deepest`, on the tree before the removal. */
  function FindDeepest(n: Tree, path: Path): Option<Ent>
    requires n.Node?
  {
    if n.left.Nil? && n.right.Nil? then (if path == [] then None else Some(path[0].e))
    else if n.right.Nil? then Some(n.left.e)
    else if n.left.Nil? then Some(n.right.e)
    else
      var y := Leftmost(n.right);
      if y.right.Node? then Some(y.right.e)
      else if n.right.left.Node? then Some(LeftmostParent(n.right))
      else Some(y.e)
  }

  /** The node in the hole, or else the parent of the hole. */
  function LowestAt(hole: Tree, path: Path): Option<Ent> {
    if hole.Node? then Some(hole.e) else if path == [] then None else Some(path[0].e)
  }

  lemma {:induction false} LeftHoleLowest(t: Tree, path: Path)
    requires t.Node? && path != []
    ensures var (hole, up) := LeftHole(t, path);
      && hole == Leftmost(t).right
      && up != [] && up[0].e == if t.left.Nil? then path[0].e else LeftmostParent(t)
  {
    if t.left.Node? {
      LeftHoleLowest(t.left, [Frame(L, t.e, t.min, t.right)] + path);
    }
  }

  /** The node found before the removal is the lowest one the removal changes. */
  lemma DeepestIsLowest(n: Tree, path: Path)
    requires n.Node?
    ensures var (hole, up) := Unlinked(n, path); FindDeepest(n, path) == LowestAt(hole, up)
  {
    if n.left.Node? && n.right.Node? {
      var y := Leftmost(n.right);
      LeftHoleLowest(n.right, [Frame(R, y.e, y.min, n.left)] + path);
    }
  }

  lemma {:induction false} LeftHoleKeeps(t: Tree, path: Path)
    requires t.Node? && Clean(t) && SibsClean(path)
    ensures InOrder(t) != [] && InOrder(t)[0] == Leftmost(t).e
    ensures var (hole, up) := LeftHole(t, path);
      && Clean(hole) && SibsClean(up)
      && Before(up) + InOrder(hole) + After(up) == Before(path) + InOrder(t)[1..] + After(path)
  {
    if t.left.Nil? {
      assert InOrder(t) == [t.e] + InOrder(t.right);
    } else {
      var f := Frame(L, t.e, t.min, t.right);
      ConsPath(f, path);
      LeftHoleKeeps(t.left, [f] + path);
      var l, r := InOrder(t.left), InOrder(t.right);
      assert InOrder(t)[1..] == l[1..] + [t.e] + r;
      Regroup(Before(path), l[1..], [t.e], r, After(path));
    }
  }

  /** Unlinking takes out exactly the node's own entity. */
  lemma UnlinkedKeeps(n: Tree, path: Path)
    requires n.Node? && Clean(n) && SibsClean(path)
    ensures var (hole, up) := Unlinked(n, path);
      && Clean(hole) && SibsClean(up)
      && Before(up) + InOrder(hole) + After(up)
         == Before(path) + (InOrder(n.left) + InOrder(n.right)) + After(path)
  {
    var l, r := InOrder(n.left), InOrder(n.right);
    if n.left.Nil? {
      assert l + r == r;
    } else if n.right.Nil? {
      assert l + r == l;
    } else {
      var y := Leftmost(n.right);
      var f := Frame(R, y.e, y.min, n.left);
      ConsPath(f, path);
      LeftHoleKeeps(n.right, [f] + path);
      assert l + r == l + [y.e] + r[1..];
      Regroup(Before(path), l, [y.e], r[1..], After(path));
    }
  }

  lemma {:induction false} CleanUnzip(t: Tree, path: Path)
    requires Clean(Unzip(t, path))
    ensures Clean(t) && SibsClean(path)
    decreases |path|
  {
    if path != [] {
      CleanUnzip(Plug(path[0], t), path[1..]);
    }
  }

  /** The walk of `bfq_active_extract`, after any rebalancing. */
  method UpdateHole(hole: Tree, up: Path, shifts: seq<Shift>, deepest: Option<Ent>) returns (r: Tree)
    requires Clean(hole) && SibsClean(up) && deepest == LowestAt(hole, up)
    ensures Clean(r) && InOrder(r) == Before(up) + InOrder(hole) + After(up)
  {
    CleanIsAlmost(up);
    ShiftAllKeeps(up, shifts);
    var path := ShiftAll(up, shifts);
    assert deepest == LowestAt(hole, path);
    if deepest.None? {
      assert [] + InOrder(Nil) + [] == InOrder(Nil);
      r := Nil;
    } else if hole.Node? {
      CleanParts(hole);
      r := UpdateActiveTree(hole, path);
    } else {
      var f := path[0];
      PlugAlmost(f, hole);
      UpKeepsOrder(f, f.sib, hole, path);
      assert f.(sib := f.sib) == f;
      r := UpdateActiveTree(Plug(f, hole), path[1..]);
    }
  }

  // ---- bfq_first_active_entity ---------------------------------------------

  predicate Eligible(e: Ent, v: int) {
    e.start <= v
  }

  predicate NoneEligible(s: seq<Ent>, v: int) {
    s == [] || (s[0].start > v && NoneEligible(s[1..], v))
  }

  /** The eligible entity that comes first in a list. */
  function FirstEligible(s: seq<Ent>, v: int): (r: Option<Ent>)
    ensures r.None? <==> NoneEligible(s, v)
    ensures r.Some? ==> r.value in s && Eligible(r.value, v)
  {
    if s == [] then None
    else if s[0].start <= v then Some(s[0])
    else FirstEligible(s[1..], v)
  }

  /** In a list sorted by finish time it has the least finish time. */
  lemma {:induction false} FirstIsLeast(s: seq<Ent>, v: int, x: Ent)
    requires Sorted(s) && x in s && Eligible(x, v)
    ensures FirstEligible(s, v).Some? && FirstEligible(s, v).value.finish <= x.finish
  {
    SortedHead(s);
    if s[0].start > v {
      FirstIsLeast(s[1..], v, x);
    }
  }

  lemma {:induction false} EligibleConcat(a: seq<Ent>, b: seq<Ent>, v: int)
    ensures NoneEligible(a + b, v) <==> NoneEligible(a, v) && NoneEligible(b, v)
    ensures FirstEligible(a + b, v) == if NoneEligible(a, v) then FirstEligible(b, v) else FirstEligible(a, v)
  {
    if a == [] {
      assert a + b == b;
    } else {
      assert (a + b)[1..] == a[1..] + b;
      EligibleConcat(a[1..], b, v);
    }
  }

  lemma RootEligible(t: Tree, v: int)
    requires t.Node?
    ensures NoneEligible(InOrder(t), v)
       <==> NoneEligible(InOrder(t.left), v) && t.e.start > v && NoneEligible(InOrder(t.right), v)
    ensures NoneEligible(InOrder(t.left), v) ==>
      FirstEligible(InOrder(t), v) == if t.e.start <= v then Some(t.e) else FirstEligible(InOrder(t.right), v)
    ensures !NoneEligible(InOrder(t.left), v) ==>
      FirstEligible(InOrder(t), v) == FirstEligible(InOrder(t.left), v)
  {
    var l, r := InOrder(t.left), InOrder(t.right);
    EligibleConcat(l + [t.e], r, v);
    EligibleConcat(l, [t.e], v);
    assert [t.e][1..] == [];
    if t.e.start > v {
      assert FirstEligible([t.e], v) == FirstEligible([t.e][1..], v);
    }
  }

  /** The stored minimum tells whether a subtree holds an eligible entity. */
  lemma {:induction false} MinTells(t: Tree, v: int)
    requires t.Node? && Clean(t)
    ensures t.min <= v <==> !NoneEligible(InOrder(t), v)
  {
    RootEligible(t, v);
    if t.left.Node? {
      MinTells(t.left, v);
    }
    if t.right.Node? {
      MinTells(t.right, v);
    }
  }

  /** The descent: the entity last found eligible on the way, and the last node
      visited. */
  function Descent(t: Tree, v: int, first: Option<Ent>): (Option<Ent>, Tree)
    requires t.Node?
  {
    var found := if t.e.start <= v then Some(t.e) else first;
    if t.left.Node? && t.left.min <= v then Descent(t.left, v, found)
    else if found.Some? || t.right.Nil? then (found, t)
    else Descent(t.right, v, found)
  }

  /** What the descent finds below `t`, given that `t` holds an eligible entity:
      the first eligible one in order when the last node visited is eligible;
      else that one hides in the right subtree of the last node, which the
      descent did not enter because it had an eligible ancestor in hand. */
  lemma {:induction false} DescentFinds(t: Tree, v: int, first: Option<Ent>)
    requires t.Node? && Clean(t) && t.min <= v
    ensures var (r, last) := Descent(t, v, first);
      && last.Node? && r.Some?
      && (Eligible(last.e, v) ==> r == FirstEligible(InOrder(t), v))
      && (!Eligible(last.e, v) ==>
            last.right.Node? && FirstEligible(InOrder(last.right), v).Some?
            && FirstEligible(InOrder(t), v) == FirstEligible(InOrder(last.right), v))
  {
    var found := if t.e.start <= v then Some(t.e) else first;
    RootEligible(t, v);
    MinTells(t, v);
    if t.left.Node? {
      MinTells(t.left, v);
    }
    if t.left.Node? && t.left.min <= v {
      DescentFinds(t.left, v, found);
    } else if t.right.Node? {
      MinTells(t.right, v);
      if found.None? {
        DescentFinds(t.right, v, found);
      }
    }
  }

  /** The answer is always eligible, and is either in the tree or the one in
      hand. */
  lemma {:induction false} DescentEligible(t: Tree, v: int, first: Option<Ent>)
    requires t.Node?
    requires first.Some? ==> Eligible(first.value, v)
    ensures var r := Descent(t, v, first).0;
      && (r.Some? ==> Eligible(r.value, v))
      && (r == first || (r.Some? && r.value in InOrder(t)))
  {
    var found := if t.e.start <= v then Some(t.e) else first;
    if t.left.Node? && t.left.min <= v {
      DescentEligible(t.left, v, found);
    } else if found.None? && t.right.Node? {
      DescentEligible(t.right, v, found);
    }
  }

  predicate Distinct(s: seq<Ent>) {
    s == [] || (s[0] !in s[1..] && Distinct(s[1..]))
  }

  lemma {:induction false} DistinctConcat(a: seq<Ent>, b: seq<Ent>)
    requires Distinct(a + b)
    ensures Distinct(a) && Distinct(b) && forall x :: x in a ==> x !in b
  {
    if a == [] {
      assert a + b == b;
    } else {
      assert (a + b)[1..] == a[1..] + b;
      DistinctConcat(a[1..], b);
    }
  }

  lemma RootDistinct(t: Tree)
    requires t.Node? && Distinct(InOrder(t))
    ensures Distinct(InOrder(t.left)) && Distinct(InOrder(t.right))
    ensures t.e !in InOrder(t.left) && t.e !in InOrder(t.right)
    ensures forall x :: x in InOrder(t.left) ==> x !in InOrder(t.right)
  {
    var l, r := InOrder(t.left), InOrder(t.right);
    DistinctConcat(l + [t.e], r);
    DistinctConcat(l, [t.e]);
  }

  /** An answer given at a node that is not eligible is never the first eligible
      entity in order. */
  lemma {:induction false} DescentMisses(t: Tree, v: int, first: Option<Ent>)
    requires t.Node? && Clean(t) && t.min <= v && Distinct(InOrder(t))
    requires first.Some? ==> first.value !in InOrder(t)
    ensures var (r, last) := Descent(t, v, first);
      last.Node? && (!Eligible(last.e, v) ==> r != FirstEligible(InOrder(t), v))
  {
    var found := if t.e.start <= v then Some(t.e) else first;
    RootEligible(t, v);
    RootDistinct(t);
    if t.left.Node? {
      MinTells(t.left, v);
    }
    if t.left.Node? && t.left.min <= v {
      DescentMisses(t.left, v, found);
    } else if found.None? && t.right.Node? {
      MinTells(t, v);
      MinTells(t.right, v);
      DescentMisses(t.right, v, found);
    }
  }

  /** `bfq_first_active_entity` returns the eligible entity with the least finish
      time (the first of those in tree order) exactly when the last node it
      visits is eligible. */
  lemma FoundIffEligible(t: Tree, v: int)
    requires t.Node? && Clean(t) && t.min <= v && Distinct(InOrder(t))
    ensures var (r, last) := Descent(t, v, None);
      last.Node? && (r == FirstEligible(InOrder(t), v) <==> Eligible(last.e, v))
  {
    DescentFinds(t, v, None);
    DescentMisses(t, v, None);
  }

  // ---- Which entities the search misses ------------------------------------

  /** `x` lies in the right subtree of some node of `t`. */
  predicate RightBelow(t: Tree, x: Ent) {
    t.Node? && (x in InOrder(t.right) || RightBelow(t.left, x))
  }

  /** `x` lies in the right subtree of a node that is in the left subtree of an
      eligible one. */
  predicate Shadowed(t: Tree, v: int, x: Ent) {
    t.Node? && ((Eligible(t.e, v) && RightBelow(t.left, x)) || Shadowed(t.left, v, x) || Shadowed(t.right, v, x))
  }

  lemma {:induction false} ShadowedInside(t: Tree, v: int, x: Ent)
    ensures RightBelow(t, x) || Shadowed(t, v, x) ==> x in InOrder(t)
  {
    if t.Node? {
      ShadowedInside(t.left, v, x);
      ShadowedInside(t.right, v, x);
    }
  }

  lemma {:induction false} FirstIsInside(s: seq<Ent>, v: int)
    requires !NoneEligible(s, v)
    ensures FirstEligible(s, v).Some? && FirstEligible(s, v).value in s && Eligible(FirstEligible(s, v).value, v)
  {
    if s[0].start > v { FirstIsInside(s[1..], v); }
  }

  /** What the descent misses, with an eligible ancestor in hand or not. */
  lemma {:induction false} DescentMissesShadowed(t: Tree, v: int, first: Option<Ent>, x: Ent)
    requires t.Node? && Clean(t) && t.min <= v && Distinct(InOrder(t))
    requires first.Some? ==> first.value !in InOrder(t)
    requires FirstEligible(InOrder(t), v) == Some(x)
    ensures Descent(t, v, first).0 != Some(x) <==> (first.Some? && RightBelow(t, x)) || Shadowed(t, v, x)
  {
    var found := if t.e.start <= v then Some(t.e) else first;
    RootEligible(t, v);
    RootDistinct(t);
    MinTells(t, v);
    ShadowedInside(t.left, v, x);
    ShadowedInside(t.right, v, x);
    if t.left.Node? {
      MinTells(t.left, v);
    }
    if t.left.Node? && t.left.min <= v {
      FirstIsInside(InOrder(t.left), v);
      DescentMissesShadowed(t.left, v, found, x);
    } else if t.e.start > v {
      FirstIsInside(InOrder(t.right), v);
      MinTells(t.right, v);
      if found.None? {
        DescentMissesShadowed(t.right, v, found, x);
      }
    }
  }

  /** Where the search misses the least finish time: exactly when the first eligible
      entity lies in the right subtree of a node in the left subtree of an eligible
      one. */
  lemma MissedIffShadowed(t: Tree, v: int)
    requires t.Node? && Clean(t) && t.min <= v && Distinct(InOrder(t))
    ensures var x := FirstEligible(InOrder(t), v);
      x.Some? && (Descent(t, v, None).0 != x <==> Shadowed(t, v, x.value))
  {
    MinTells(t, v);
    FirstIsInside(InOrder(t), v);
    DescentMissesShadowed(t, v, None, FirstEligible(InOrder(t), v).value);
  }

  /** The tree with an eligible root `a`, a left child `b` that is not eligible yet,
      below it to the right an eligible `c` due earlier than the root, and any right
      subtree. */
  function Hiding(a: Ent, b: Ent, c: Ent, r: Tree): Tree {
    var bc := Node(Nil, b, c.start, Node(Nil, c, c.start, Nil));
    var m := if r.Node? then Least(a.start, r.min) else a.start;
    Node(bc, a, Least(m, c.start), r)
  }

  /** On all of these a later entity than the one with the least finish time is
      returned. */
  lemma LaterEntityServed(v: int, a: Ent, b: Ent, c: Ent, r: Tree)
    requires a.start <= v && c.start <= v < b.start
    requires b.finish <= c.finish < a.finish && Clean(r) && Sorted([a] + InOrder(r))
    ensures var t := Hiding(a, b, c, r);
      && Clean(t) && t.min <= v && InOrder(t) == [b, c, a] + InOrder(r) && Sorted(InOrder(t))
      && Descent(t, v, None).0 == Some(a)
      && FirstEligible(InOrder(t), v) == Some(c)
  {
    var t := Hiding(a, b, c, r);
    var bc, tail := t.left, InOrder(r);
    assert InOrder(bc.right) == [c];
    assert InOrder(bc) == [b, c];
    assert InOrder(t) == [b, c, a] + tail;
    var s := [b, c, a] + tail;
    assert s[1..] == [c, a] + tail && ([c, a] + tail)[1..] == [a] + tail;
    assert MinStart(bc.right) == c.start;
    assert MinStart(bc) == c.start;
    assert Clean(bc.right) && Clean(bc);
    assert Descent(bc, v, Some(a)) == (Some(a), bc);
  }

  /** The rules that kernel/lib/rbtree.c keeps, the entities in `red` being red: no red
      node has a red child, and all ways down pass `h` black nodes. */
  predicate RedBlack(t: Tree, red: set<Ent>, h: nat) {
    if t.Nil? then h == 0
    else if t.e in red then
      && !(t.left.Node? && t.left.e in red) && !(t.right.Node? && t.right.e in red)
      && RedBlack(t.left, red, h) && RedBlack(t.right, red, h)
    else h > 0 && RedBlack(t.left, red, h - 1) && RedBlack(t.right, red, h - 1)
  }

  /** With one node on the right such a tree is a red-black tree. */
  lemma HidingIsRedBlack(a: Ent, b: Ent, c: Ent, d: Ent)
    requires a != c && b != c && d != c
    ensures RedBlack(Hiding(a, b, c, Node(Nil, d, d.start, Nil)), {c}, 2)
  {
    var t := Hiding(a, b, c, Node(Nil, d, d.start, Nil));
    assert RedBlack(t.left.right, {c}, 0) && RedBlack(t.left, {c}, 1) && RedBlack(t.right, {c}, 1);
  }

  /** The loop of `bfq_first_active_entity`, whose two assertions hold. */
  method FirstActive(t: Tree, v: int) returns (first: Option<Ent>, ghost last: Tree)
    requires t.Node? && Clean(t) && t.min <= v
    ensures (first, last) == Descent(t, v, None)
    ensures first.Some? && Eligible(first.value, v) && first.value in InOrder(t)
  {
    DescentFinds(t, v, None);
    DescentEligible(t, v, None);
    var node := t;
    first, last := None, t;
    while true
      invariant node.Node? && Clean(node) && node.min <= v
      invariant Descent(node, v, first) == Descent(t, v, None)
      decreases node
    {
      last := node;
      if node.e.start <= v {
        first := Some(node.e);
      }
      assert node.min <= v;
      if node.left.Node? && node.left.min <= v {
        node := node.left;
      } else if first.Some? {
        break;
      } else {
        assert node.right.Node? && node.right.min <= v;
        node := node.right;
      }
    }
  }

  // ---- The service tree ------------------------------------------------------

  /** `struct bfq_service_tree`; `idle` is the idle tree in its order. */
  class ServiceTree {
    var active: Tree
    var idle: seq<Ent>
    var lastIdle: Option<Ent>
    var vtime: int

    constructor ()
      ensures Valid() && InOrder(active) == [] && idle == [] && lastIdle.None? && vtime == 0
    {
      active, idle, lastIdle, vtime := Nil, [], None, 0;
    }

    ghost predicate Valid()
      reads this
    {
      Clean(active) && Sorted(InOrder(active)) && Distinct(InOrder(active))
    }

    /** `bfq_active_insert` of an entity that is on no tree; `junk` is the stale
        minimum it carries. */
    method ActiveInsert(e: Ent, junk: int, turn: Turn)
      requires Valid() && e !in InOrder(active)
      modifies `active
      ensures Valid() && InOrder(active) == Inserted(old(InOrder(active)), e)
    {
      var path := FindPlace(active, e);
      InsertedSorted(InOrder(active), e);
      InsertedDistinct(InOrder(active), e, e);
      LinkedKeeps(e, junk, path, turn);
      var (node, above) := Linked(e, junk, path, turn);
      active := UpdateFrom(node, above);
    }

    /** `bfq_active_extract` of the entity at a node of the tree, given by the
        subtree below it and the way up. */
    method ActiveExtract(n: Tree, path: Path, shifts: seq<Shift>)
      requires Valid() && n.Node? && Unzip(n, path) == active
      modifies `active
      ensures Valid()
      ensures
        var a := Before(path) + InOrder(n.left);
        var b := InOrder(n.right) + After(path);
        old(InOrder(active)) == a + [n.e] + b && InOrder(active) == a + b
    {
      var deepest := FindDeepest(n, path);
      ExtractOrder(n, path);
      ExtractDistinct(Before(path) + InOrder(n.left), n.e, InOrder(n.right) + After(path));
      CleanUnzip(n, path);
      DeepestIsLowest(n, path);
      UnlinkedKeeps(n, path);
      var (hole, up) := Unlinked(n, path);
      active := UpdateHole(hole, up, shifts, deepest);
    }

    /** `__bfq_lookup_next_entity`: virtual time jumps to the least start time if
        nothing is eligible, forgetting the first idle entity if that is due; what is
        found is eligible, and it is the eligible entity with the least finish time
        exactly when the last node visited is eligible. */
    method LookupNext() returns (r: Option<Ent>)
      requires Valid()
      modifies `vtime, `idle, `lastIdle
      ensures active.Nil? ==> r.None? && unchanged(this)
      ensures active.Node? ==>
        && vtime == (if active.min > old(vtime) then active.min else old(vtime))
        && idle == (if vtime > old(vtime) then Forgotten(old(idle), vtime) else old(idle))
      ensures lastIdle == LastLeft(old(lastIdle), old(idle), idle)
      ensures active.Node? ==>
        && r.Some? && Eligible(r.value, vtime) && r.value in InOrder(active)
        && var (_, last) := Descent(active, vtime, None);
           last.Node? && (r == FirstEligible(InOrder(active), vtime) <==> Eligible(last.e, vtime))
      ensures active.Node? && NoneEligible(InOrder(active), old(vtime)) ==>
        r.value.start == vtime
    {
      if active.Nil? {
        return None;
      }
      MinTells(active, vtime);
      UpdateVtime();
      FoundIffEligible(active, vtime);
      ghost var last;
      r, last := FirstActive(active, vtime);
      LeastStart(active, r.value);
    }

    /** `bfq_update_vtime`. */
    method UpdateVtime()
      requires active.Node?
      modifies `vtime, `idle, `lastIdle
      ensures vtime == (if active.min > old(vtime) then active.min else old(vtime))
      ensures idle == (if vtime > old(vtime) then Forgotten(old(idle), vtime) else old(idle))
      ensures lastIdle == LastLeft(old(lastIdle), old(idle), idle)
    {
      if active.min > vtime {
        vtime := active.min;
        ForgetIdle();
      }
    }

    /** `bfq_forget_idle`: with nothing active, virtual time goes to the finish time
        of the last idle entity if that has passed; then the first idle entity is
        forgotten if it is due. */
    method ForgetIdle()
      modifies `vtime, `idle, `lastIdle
      ensures vtime == if active.Nil? && old(lastIdle).Some? && old(lastIdle).value.finish <= old(vtime)
                       then old(lastIdle).value.finish else old(vtime)
      ensures idle == Forgotten(old(idle), vtime)
      ensures lastIdle == LastLeft(old(lastIdle), old(idle), idle)
    {
      if active.Nil? && lastIdle.Some? && lastIdle.value.finish <= vtime {
        vtime := lastIdle.value.finish;
      }
      if idle != [] && idle[0].finish <= vtime {
        if lastIdle == Some(idle[0]) {
          lastIdle := None;
        }
        idle := idle[1..];
      }
    }
  }

  /** The loop of `bfq_lookup_next_entity` over the classes, the most urgent first: an
      entity comes from the first class that has one active, and the clocks of the other
      classes stand still. */
  method LookupNextEntity(trees: seq<ServiceTree>) returns (r: Option<Ent>, c: nat)
    requires forall i :: 0 <= i < |trees| ==> trees[i].Valid()
    modifies set t | t in trees
    ensures r.None? ==> c == |trees|
    ensures r.Some? ==> c < |trees| && r.value in InOrder(trees[c].active) && Eligible(r.value, trees[c].vtime)
    ensures forall i :: 0 <= i < c ==> old(trees[i].active).Nil?
    ensures forall t :: t in trees && (r.Some? ==> t != trees[c]) ==> unchanged(t)
    ensures forall t :: t in trees ==> t.Valid() && t.active == old(t.active)
  {
    c := 0;
    while c < |trees|
      invariant c <= |trees|
      invariant forall i :: 0 <= i < c ==> trees[i].active.Nil?
      invariant forall t :: t in trees ==> unchanged(t)
    {
      r := trees[c].LookupNext();
      if r.Some? {
        return;
      }
      c := c + 1;
    }
    r := None;
  }

  /** The last idle entity after the first one was forgotten or not: none if it was
      that one. */
  function LastLeft(last: Option<Ent>, before: seq<Ent>, after: seq<Ent>): Option<Ent> {
    if |after| < |before| && last == Some(before[0]) then None else last
  }

  /** The idle entities after one call of `bfq_forget_idle`. */
  function Forgotten(idle: seq<Ent>, v: int): seq<Ent> {
    if idle != [] && idle[0].finish <= v then idle[1..] else idle
  }

  lemma {:induction false} InsertedDistinct(s: seq<Ent>, e: Ent, x: Ent)
    requires Distinct(s) && e !in s
    ensures Distinct(Inserted(s, e)) && (x in Inserted(s, e) <==> x == e || x in s)
  {
    if s != [] && s[0].finish <= e.finish {
      InsertedDistinct(s[1..], e, x);
      InsertedDistinct(s[1..], e, s[0]);
      assert Inserted(s, e)[1..] == Inserted(s[1..], e);
      assert s == [s[0]] + s[1..];
    } else {
      assert Inserted(s, e)[1..] == s;
    }
  }

  lemma {:induction false} ExtractDistinct(a: seq<Ent>, e: Ent, b: seq<Ent>)
    requires Distinct(a + [e] + b)
    ensures Distinct(a + b)
  {
    if a == [] {
      assert a + [e] + b == [e] + b && ([e] + b)[1..] == b && a + b == b;
    } else {
      assert (a + [e] + b)[1..] == a[1..] + [e] + b && (a + b)[1..] == a[1..] + b;
      ExtractDistinct(a[1..], e, b);
    }
  }

  lemma {:induction false} LeastStart(t: Tree, x: Ent)
    requires t.Node? && Clean(t) && x in InOrder(t)
    ensures t.min <= x.start
  {
    if x in InOrder(t.left) {
      LeastStart(t.left, x);
    } else if x in InOrder(t.right) {
      LeastStart(t.right, x);
    }
  }

  lemma RegroupHalves(p: seq<Ent>, l: seq<Ent>, e: seq<Ent>, r: seq<Ent>, q: seq<Ent>)
    ensures p + (l + e + r) + q == (p + l) + e + (r + q)
    ensures p + (l + r) + q == (p + l) + (r + q)
  {
  }

  lemma {:induction false} ExtractOrder(n: Tree, path: Path)
    requires n.Node? && Sorted(InOrder(Unzip(n, path)))
    ensures var a := Before(path) + InOrder(n.left);
      var b := InOrder(n.right) + After(path);
      && InOrder(Unzip(n, path)) == a + [n.e] + b
      && Before(path) + (InOrder(n.left) + InOrder(n.right)) + After(path) == a + b
      && Sorted(a + b)
  {
    UnzipOrder(n, path);
    RegroupHalves(Before(path), InOrder(n.left), [n.e], InOrder(n.right), After(path));
    SortedWithout(Before(path) + InOrder(n.left), n.e, InOrder(n.right) + After(path));
  }

  // ---- bfq_gt ----------------------------------------------------------------

  const WORD: int := 0x1_0000_0000_0000_0000
  const HALF: int := 0x8000_0000_0000_0000

  /** `bfq_gt` on 64-bit timestamps: the sign of the wrapped difference. */
  predicate Gt(a: int, b: int)
    requires 0 <= a < WORD && 0 <= b < WORD
  {
    0 < (a - b) % WORD < HALF
  }

  lemma ModShift(x: int, q: int)
    ensures (x + q * WORD) % WORD == x % WORD
  {
    var d := x / WORD;
    assert x + q * WORD == (d + q) * WORD + x % WORD;
    UniqueMod(x + q * WORD, d + q, x % WORD);
  }

  lemma UniqueMod(x: int, q: int, r: int)
    requires x == q * WORD + r && 0 <= r < WORD
    ensures x % WORD == r
  {
  }

  /** Wrapped timestamps compare like the unbounded ones, as long as those are
      less than half the range apart. */
  lemma WrapCompares(a: int, b: int)
    requires -HALF <= a - b < HALF
    ensures Gt(a % WORD, b % WORD) <==> a > b
  {
    var d := a - b;
    var q := a / WORD - b / WORD;
    assert a % WORD - b % WORD == d - q * WORD;
    ModShift(d, -q);
    if 0 <= d {
      UniqueMod(d, 0, d);
    } else {
      UniqueMod(d, -1, d + WORD);
    }
  }
}
