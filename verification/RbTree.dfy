/** Rebalancing of the active tree, with the path to the deepest node it may have touched:
    insertion and removal of a red-black tree, as values. */
module RbTree {
  import opened BfqTree

  function Painted(t: Tree, red: bool): Tree
    requires t.Node?
  {
    t.(x := t.x.(red := red))
  }

  predicate IsRed(t: Tree) { t.Node? && t.x.red }

  // ----- Insertion -------------------------------------------------------------------

  /** How far the rebalancing loop has come: it is over; it looks at the root of this
      subtree; or it has found that root red, and waits for its parent. */
  datatype Status = Settled | AtNode | AtParent

  /** A subtree after an insertion in it, and the path to the deepest node affected. */
  datatype Grown = Grown(t: Tree, p: Path, st: Status)

  /** One turn of the rebalancing loop, at the grandparent: a red uncle is repainted, a black
      one means one or two rotations. */
  function Rebalance(t: Tree, d: Side, c: Grown): Grown
    requires t.Node? && c.t.Node? && c.p != [] && Near(c.t, c.p[0]).Node?
  {
    var parent, uncle, o := c.t, Near(t, Opposite(d)), Opposite(d);
    if IsRed(uncle) then
      Grown(Link(d, Painted(parent, false), t.x.(red := true), Painted(uncle, false)), [d] + c.p, AtNode)
    else if c.p[0] == d then
      Grown(Link(d, Near(parent, d), parent.x.(red := false), Link(d, Near(parent, o), t.x.(red := true), uncle)),
            c.p, Settled)
    else
      var node := Near(parent, o);
      var p := if |c.p| == 1 then [L] else if c.p[1] == d then [d, o] + c.p[2..] else [o, d] + c.p[2..];
      Grown(Link(d, Link(d, Near(parent, d), parent.x, Near(node, d)), node.x.(red := false),
                 Link(d, Near(node, o), t.x.(red := true), uncle)), p, Settled)
  }

  /** What the insertion below side `d` does to a node. */
  function Climb(t: Tree, d: Side, c: Grown): Grown
    requires t.Node? && c.t.Node? && (c.st == AtParent ==> c.p != [] && Near(c.t, c.p[0]).Node?)
  {
    match c.st
    case Settled => Grown(Replace(t, d, c.t), [d] + c.p, Settled)
    case AtNode => Grown(Replace(t, d, c.t), [d] + c.p, if t.x.red then AtParent else Settled)
    case AtParent => Rebalance(t, d, c)
  }

  /** Where an entity goes: after those that finish no later. */
  function SideFor(t: Tree, e: Entity): Side
    requires t.Node?
  {
    if t.x.e.finish > e.finish then L else R
  }

  function Insert(t: Tree, x: Item): (g: Grown)
    ensures g.t.Node? && (g.st == AtParent ==> g.p != [] && Near(g.t, g.p[0]).Node?)
  {
    if t.Leaf? then Grown(Node(Leaf, x, Leaf), [], AtNode)
    else Climb(t, SideFor(t, x.e), Insert(Near(t, SideFor(t, x.e)), x))
  }

  /** All damage is on the path: siblings record the right minimum. */
  ghost predicate Clean(t: Tree, p: Path)
    decreases |p|
  {
    t.Node? &&
    if p == [] then Exact(t.left) && Exact(t.right)
    else Clean(Near(t, p[0]), p[1..]) && Exact(Near(t, Opposite(p[0])))
  }

  lemma {:induction false} CleanIsDamaged(t: Tree, p: Path)
    requires Clean(t, p)
    ensures Damaged(t, p)
    decreases |p|
  {
    if p != [] {
      CleanIsDamaged(Near(t, p[0]), p[1..]);
    }
  }

  /** What is known of the damage at each stage of an insertion. */
  ghost predicate GrownOk(g: Grown) {
    && (g.st != Settled ==> Clean(g.t, g.p))
    && (g.st == Settled ==> Damaged(g.t, g.p))
    && (g.st == AtParent ==> g.p != [])
  }

  lemma PaintedExact(t: Tree, red: bool)
    requires t.Node? && Exact(t)
    ensures Exact(Painted(t, red)) && InOrder(Painted(t, red)) == InOrder(t)
  {
  }

  lemma PaintedClean(t: Tree, p: Path, red: bool)
    requires Clean(t, p)
    ensures Clean(Painted(t, red), p) && InOrder(Painted(t, red)) == InOrder(t)
  {
  }

  lemma PaintedDamaged(t: Tree, p: Path, red: bool)
    requires Damaged(t, p)
    ensures Damaged(Painted(t, red), p) && InOrder(Painted(t, red)) == InOrder(t)
  {
  }

  lemma RebalanceKeeps(t: Tree, d: Side, c: Grown)
    requires t.Node? && c.p != [] && Clean(c.t, c.p) && Exact(Near(t, Opposite(d)))
    ensures Near(c.t, c.p[0]).Node? && GrownOk(Rebalance(t, d, c))
  {
    hide MinStart, InOrder;
    var parent, uncle, o := c.t, Near(t, Opposite(d)), Opposite(d);
    if IsRed(uncle) {
      PaintedExact(uncle, false);
      PaintedClean(parent, c.p, false);
      var g := Rebalance(t, d, c);
      assert g.p[1..] == c.p;
    } else if c.p[0] == d {
      CleanIsDamaged(Near(parent, d), c.p[1..]);
    } else {
      InnerKeeps(t, d, c);
    }
  }

  lemma InnerKeeps(t: Tree, d: Side, c: Grown)
    requires t.Node? && c.p != [] && c.p[0] == Opposite(d) && Clean(c.t, c.p) && Exact(Near(t, Opposite(d)))
    requires !IsRed(Near(t, Opposite(d)))
    ensures Near(c.t, c.p[0]).Node? && Damaged(Rebalance(t, d, c).t, Rebalance(t, d, c).p)
  {
    hide MinStart, InOrder;
    var parent, o := c.t, Opposite(d);
    var node := Near(parent, o);
    var g := Rebalance(t, d, c);
    if |c.p| == 1 {
      assert g.p[1..] == [];
    } else {
      assert c.p[1..][0] == c.p[1] && c.p[1..][1..] == c.p[2..];
      CleanIsDamaged(Near(node, c.p[1]), c.p[2..]);
      assert g.p[1..][1..] == c.p[2..];
    }
  }

  lemma ClimbKeeps(t: Tree, d: Side, c: Grown)
    requires t.Node? && GrownOk(c) && Exact(Near(t, Opposite(d)))
    requires c.t.Node? && (c.st == AtParent ==> Near(c.t, c.p[0]).Node?)
    ensures GrownOk(Climb(t, d, c))
  {
    hide MinStart, InOrder, Rebalance;
    if c.st == AtParent {
      RebalanceKeeps(t, d, c);
    } else {
      assert ([d] + c.p)[1..] == c.p;
      if c.st == AtNode {
        CleanIsDamaged(c.t, c.p);
      }
    }
  }

  /** Insertion, however it rebalances, leaves damage only along the path it reports. */
  lemma {:induction false} InsertKeeps(t: Tree, x: Item)
    requires Exact(t)
    ensures GrownOk(Insert(t, x))
  {
    hide MinStart, InOrder, Climb, GrownOk;
    if t.Leaf? {
      NewLeafOk(x);
    } else {
      var d := SideFor(t, x.e);
      InsertKeeps(Near(t, d), x);
      ClimbKeeps(t, d, Insert(Near(t, d), x));
    }
  }

  lemma NewLeafOk(x: Item)
    ensures GrownOk(Grown(Node(Leaf, x, Leaf), [], AtNode))
  {
  }

  // ----- Insertion: order and path ---------------------------------------------------

  /** The order of a node's entities, by its sides. */
  function Around(d: Side, near: seq<Entity>, e: Entity, far: seq<Entity>): seq<Entity> {
    if d == L then near + [e] + far else far + [e] + near
  }

  lemma LinkOrder(d: Side, near: Tree, x: Item, far: Tree)
    ensures InOrder(Link(d, near, x, far)) == Around(d, InOrder(near), x.e, InOrder(far))
  {
  }

  lemma NodeOrder(t: Tree, d: Side)
    requires t.Node?
    ensures InOrder(t) == Around(d, InOrder(Near(t, d)), t.x.e, InOrder(Near(t, Opposite(d))))
  {
  }

  lemma AroundTwice(d: Side, a: seq<Entity>, e: Entity, b: seq<Entity>, f: Entity, c: seq<Entity>)
    ensures Around(d, Around(d, a, e, b), f, c) == Around(d, a, e, Around(d, b, f, c))
  {
  }

  /** A rotation changes no order. */
  lemma RotateOrder(d: Side, a: Tree, x: Item, b: Tree, y: Item, c: Tree)
    ensures InOrder(Link(d, Link(d, a, x, b), y, c)) == InOrder(Link(d, a, x, Link(d, b, y, c)))
  {
    hide InOrder;
    LinkOrder(d, a, x, b);
    LinkOrder(d, b, y, c);
    LinkOrder(d, Link(d, a, x, b), y, c);
    LinkOrder(d, a, x, Link(d, b, y, c));
    AroundTwice(d, InOrder(a), x.e, InOrder(b), y.e, InOrder(c));
  }

  lemma LinkBack(t: Tree, d: Side)
    requires t.Node?
    ensures Link(d, Near(t, d), t.x, Near(t, Opposite(d))) == t
    ensures Link(Opposite(d), Near(t, Opposite(d)), t.x, Near(t, d)) == t
  {
  }

  lemma ReplaceOrder(t: Tree, d: Side, near: Tree)
    requires t.Node?
    ensures InOrder(Replace(t, d, near)) == Around(d, InOrder(near), t.x.e, InOrder(Near(t, Opposite(d))))
  {
  }

  lemma ClimbOrder(t: Tree, d: Side, c: Grown)
    requires t.Node? && c.t.Node? && (c.st == AtParent ==> c.p != [] && Near(c.t, c.p[0]).Node?)
    ensures InOrder(Climb(t, d, c).t) == Around(d, InOrder(c.t), t.x.e, InOrder(Near(t, Opposite(d))))
  {
    if c.st == AtParent {
      RebalanceOrder(t, d, c);
    } else {
      ReplaceOrder(t, d, c.t);
    }
  }

  lemma PaintedOrder(t: Tree, red: bool)
    requires t.Node?
    ensures InOrder(Painted(t, red)) == InOrder(t)
  {
  }

  lemma RebalanceOrder(t: Tree, d: Side, c: Grown)
    requires t.Node? && c.t.Node? && c.p != [] && Near(c.t, c.p[0]).Node?
    ensures InOrder(Rebalance(t, d, c).t) == Around(d, InOrder(c.t), t.x.e, InOrder(Near(t, Opposite(d))))
  {
    hide InOrder, Around;
    var parent, uncle, o := c.t, Near(t, Opposite(d)), Opposite(d);
    LinkOrder(d, parent, t.x, uncle);
    if IsRed(uncle) {
      PaintedOrder(parent, false);
      PaintedOrder(uncle, false);
      LinkOrder(d, Painted(parent, false), t.x.(red := true), Painted(uncle, false));
    } else if c.p[0] == d {
      OuterOrder(d, Near(parent, d), parent.x, parent.x.(red := false), Near(parent, o), t.x, t.x.(red := true), uncle);
      LinkBack(parent, d);
    } else {
      var node := Near(parent, o);
      InnerOrder(d, Near(parent, d), parent.x, Near(node, d), node.x, node.x.(red := false), Near(node, o), t.x, t.x.(red := true), uncle);
      LinkBack(node, d);
      LinkBack(parent, d);
    }
  }

  /** One rotation with repainting. */
  lemma OuterOrder(d: Side, a: Tree, x: Item, x': Item, b: Tree, y: Item, y': Item, c: Tree)
    requires x.e == x'.e && y.e == y'.e
    ensures InOrder(Link(d, a, x', Link(d, b, y', c))) == InOrder(Link(d, Link(d, a, x, b), y, c))
  {
    hide InOrder, Around;
    RotateOrder(d, a, x, b, y, c);
    LinkOrder(d, b, y, c);
    LinkOrder(d, b, y', c);
    LinkOrder(d, a, x, Link(d, b, y, c));
    LinkOrder(d, a, x', Link(d, b, y', c));
  }

  /** Two rotations with repainting. */
  lemma InnerOrder(d: Side, a: Tree, x: Item, b: Tree, y: Item, y': Item, c: Tree, z: Item, z': Item, u: Tree)
    requires y.e == y'.e && z.e == z'.e
    ensures InOrder(Link(d, Link(d, a, x, b), y', Link(d, c, z', u))) == InOrder(Link(d, Link(d, a, x, Link(d, b, y, c)), z, u))
  {
    hide InOrder, Around;
    OuterOrder(d, Link(d, a, x, b), y, y', c, z, z', u);
    RotateOrder(d, a, x, b, y, c);
    LinkOrder(d, Link(d, Link(d, a, x, b), y, c), z, u);
    LinkOrder(d, Link(d, a, x, Link(d, b, y, c)), z, u);
  }

  /** A list with an entity put in at a place. */
  function PutAt(s: seq<Entity>, k: nat, e: Entity): seq<Entity>
    requires k <= |s|
  {
    s[..k] + [e] + s[k..]
  }

  /** Where an entity belongs in a list in order: after all that finish no later. */
  ghost predicate Belongs(s: seq<Entity>, k: nat, e: Entity) {
    && k <= |s|
    && (forall i :: 0 <= i < k ==> s[i].finish <= e.finish)
    && (forall i :: k <= i < |s| ==> s[i].finish > e.finish)
  }

  /** Insertion puts the entity where it belongs and moves nothing else. */
  lemma {:induction false} InsertOrder(t: Tree, x: Item) returns (k: nat)
    requires Ordered(InOrder(t))
    ensures Belongs(InOrder(t), k, x.e) && InOrder(Insert(t, x).t) == PutAt(InOrder(t), k, x.e)
  {
    hide Climb;
    if t.Leaf? {
      k := 0;
    } else {
      hide InOrder, Around;
      var d := SideFor(t, x.e);
      var l, r := InOrder(t.left), InOrder(t.right);
      NodeOrder(t, L);
      assert InOrder(t) == l + [t.x.e] + r by { PlainOrder(t); }
      OrderedParts(l, t.x.e, r);
      ClimbOrder(t, d, Insert(Near(t, d), x));
      if d == L {
        k := InsertOrder(t.left, x);
        BelongsLeft(l, k, t.x.e, r, x.e);
        assert Around(L, PutAt(l, k, x.e), t.x.e, r) == PutAt(l, k, x.e) + [t.x.e] + r by { AroundL(PutAt(l, k, x.e), t.x.e, r); }
      } else {
        var j := InsertOrder(t.right, x);
        k := |l| + 1 + j;
        BelongsRight(l, t.x.e, r, j, x.e);
        assert Around(R, PutAt(r, j, x.e), t.x.e, l) == l + [t.x.e] + PutAt(r, j, x.e) by { AroundR(l, t.x.e, PutAt(r, j, x.e)); }
      }
    }
  }

  lemma AroundL(a: seq<Entity>, e: Entity, b: seq<Entity>)
    ensures Around(L, a, e, b) == a + [e] + b
  {
  }

  lemma AroundR(a: seq<Entity>, e: Entity, b: seq<Entity>)
    ensures Around(R, b, e, a) == a + [e] + b
  {
  }

  lemma OrderedParts(a: seq<Entity>, e: Entity, b: seq<Entity>)
    requires Ordered(a + [e] + b)
    ensures Ordered(a) && Ordered(b)
    ensures forall i :: 0 <= i < |a| ==> a[i].finish <= e.finish
    ensures forall i :: 0 <= i < |b| ==> e.finish <= b[i].finish
  {
    var s := a + [e] + b;
    assert s[|a|] == e;
    assert forall i :: 0 <= i < |a| ==> s[i] == a[i];
    assert forall i :: 0 <= i < |b| ==> s[|a| + 1 + i] == b[i];
  }

  lemma BelongsLeft(a: seq<Entity>, k: nat, m: Entity, b: seq<Entity>, e: Entity)
    requires Belongs(a, k, e) && m.finish > e.finish && forall i :: 0 <= i < |b| ==> m.finish <= b[i].finish
    ensures Belongs(a + [m] + b, k, e) && PutAt(a + [m] + b, k, e) == PutAt(a, k, e) + [m] + b
  {
    var s := a + [m] + b;
    forall i | k <= i < |s| ensures s[i].finish > e.finish {
      if i > |a| {
        assert s[i] == b[i - |a| - 1];
      }
    }
  }

  lemma BelongsRight(a: seq<Entity>, m: Entity, b: seq<Entity>, j: nat, e: Entity)
    requires Belongs(b, j, e) && m.finish <= e.finish && forall i :: 0 <= i < |a| ==> a[i].finish <= m.finish
    ensures Belongs(a + [m] + b, |a| + 1 + j, e) && PutAt(a + [m] + b, |a| + 1 + j, e) == a + [m] + PutAt(b, j, e)
  {
    var s := a + [m] + b;
    forall i | 0 <= i < |s| ensures if i < |a| + 1 + j then s[i].finish <= e.finish else s[i].finish > e.finish {
      if i > |a| {
        assert s[i] == b[i - |a| - 1];
      }
    }
  }

  /** Putting an entity where it belongs keeps a list in order. */
  lemma PutKeepsOrder(s: seq<Entity>, k: nat, e: Entity)
    requires Ordered(s) && Belongs(s, k, e)
    ensures Ordered(PutAt(s, k, e))
  {
    var r := PutAt(s, k, e);
    forall i, j | 0 <= i < j < |r| ensures r[i].finish <= r[j].finish {
      assert i < k ==> r[i] == s[i];
      assert i > k ==> r[i] == s[i - 1];
      assert j < k ==> r[j] == s[j];
      assert j > k ==> r[j] == s[j - 1];
    }
  }

  // ----- Insertion: the node the repair starts from ----------------------------------

  /** The node at the end of a path. */
  function At(t: Tree, p: Path): (n: Tree)
    requires Reaches(t, p)
    ensures n.Node?
    decreases |p|
  {
    if p == [] then t else At(Near(t, p[0]), p[1..])
  }

  /** The path ends at the entity's node, and that has no child. */
  ghost predicate EndsAt(t: Tree, p: Path, e: Entity) {
    Reaches(t, p) && At(t, p).x.e == e && At(t, p).left.Leaf? && At(t, p).right.Leaf?
  }

  /** The path ends at the left child of the entity's node. */
  ghost predicate EndsLeftOf(t: Tree, p: Path, e: Entity) {
    && p != [] && p[|p| - 1] == L && Reaches(t, p)
    && Reaches(t, p[..|p| - 1]) && At(t, p[..|p| - 1]).x.e == e
  }

  lemma EndsDeeper(t: Tree, d: Side, p: Path, e: Entity)
    requires t.Node?
    ensures EndsAt(Near(t, d), p, e) ==> EndsAt(t, [d] + p, e)
    ensures EndsLeftOf(Near(t, d), p, e) ==> EndsLeftOf(t, [d] + p, e)
  {
    var q := [d] + p;
    assert q[1..] == p && q[0] == d;
    if p != [] {
      assert q[..|q| - 1][1..] == p[..|p| - 1] && q[..|q| - 1][0] == d;
    }
  }

  lemma EndsBelow(t: Tree, p: Path, e: Entity)
    requires EndsAt(t, p, e) && p != []
    ensures EndsAt(Near(t, p[0]), p[1..], e)
  {
  }

  ghost predicate GrownEnds(g: Grown, e: Entity) {
    EndsAt(g.t, g.p, e) || (g.st == Settled && EndsLeftOf(g.t, g.p, e))
  }

  lemma RebalanceEnds(t: Tree, d: Side, c: Grown, e: Entity)
    requires t.Node? && c.t.Node? && c.p != [] && Near(c.t, c.p[0]).Node? && EndsAt(c.t, c.p, e)
    ensures GrownEnds(Rebalance(t, d, c), e)
  {
    var parent, uncle, o := c.t, Near(t, Opposite(d)), Opposite(d);
    var g := Rebalance(t, d, c);
    if IsRed(uncle) {
      assert EndsAt(Painted(parent, false), c.p, e);
      EndsDeeper(g.t, d, c.p, e);
    } else if c.p[0] == d {
      assert [d] + c.p[1..] == c.p;
      EndsDeeper(g.t, d, c.p[1..], e);
    } else {
      InnerEnds(t, d, c, e);
    }
  }

  lemma InnerEnds(t: Tree, d: Side, c: Grown, e: Entity)
    requires t.Node? && c.t.Node? && c.p != [] && c.p[0] == Opposite(d) && Near(c.t, c.p[0]).Node? && EndsAt(c.t, c.p, e)
    requires !IsRed(Near(t, Opposite(d)))
    ensures GrownEnds(Rebalance(t, d, c), e)
  {
    hide EndsAt, EndsLeftOf;
    var parent := c.t;
    var node := Near(parent, Opposite(d));
    var g := Rebalance(t, d, c);
    EndsBelow(parent, c.p, e);
    if |c.p| == 1 {
      assert c.p[1..] == [];
      EndsLeft(node, g.t, e);
    } else {
      var rest, s := c.p[2..], c.p[1];
      assert c.p[1..][0] == s && c.p[1..][1..] == rest;
      EndsBelow(node, c.p[1..], e);
      EndsDeeper(Near(g.t, s), Opposite(s), rest, e);
      EndsDeeper(g.t, s, [Opposite(s)] + rest, e);
      assert g.p == [s] + ([Opposite(s)] + rest);
    }
  }

  lemma EndsLeft(node: Tree, t: Tree, e: Entity)
    requires EndsAt(node, [], e) && t.Node? && t.left.Node? && t.x.e == node.x.e
    ensures EndsLeftOf(t, [L], e)
  {
    assert [L][..0] == [] && [L][1..] == [];
    assert Reaches(t, []) && At(t, []) == t && Reaches(t.left, []);
  }

  /** The reported path ends where the repair is to start: at the new entity's node, or at
      its left child if rotations have given it children. */
  lemma {:induction false} InsertEnds(t: Tree, x: Item)
    ensures GrownEnds(Insert(t, x), x.e)
  {
    hide Rebalance, EndsAt, EndsLeftOf;
    if t.Leaf? {
      assert EndsAt(Node(Leaf, x, Leaf), [], x.e) by { NewLeafEnds(x); }
    } else {
      var d := SideFor(t, x.e);
      var c := Insert(Near(t, d), x);
      InsertEnds(Near(t, d), x);
      EndsDeeper(Replace(t, d, c.t), d, c.p, x.e);
      if c.st == AtParent {
        RebalanceEnds(t, d, c, x.e);
      }
    }
  }

  lemma NewLeafEnds(x: Item)
    ensures EndsAt(Node(Leaf, x, Leaf), [], x.e)
  {
  }
}
