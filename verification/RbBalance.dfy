/** Insertion and removal keep the tree balanced: no red node has a red child, and every path
    down meets the same number of black nodes. */
module RbBalance {
  import opened BfqTree
  import opened RbTree
  import opened RbErase

  /** Balanced, with `h` black nodes on every path down. */
  ghost predicate Rb(t: Tree, h: nat) {
    if t.Leaf? then h == 0
    else if t.x.red then !IsRed(t.left) && !IsRed(t.right) && Rb(t.left, h) && Rb(t.right, h)
    else h > 0 && Rb(t.left, h - 1) && Rb(t.right, h - 1)
  }

  /** A balanced tree with a black root. */
  ghost predicate Balanced(t: Tree) { !IsRed(t) && exists h: nat :: Rb(t, h) }

  lemma NearRb(t: Tree, d: Side, h: nat)
    requires t.Node? && Rb(t, h)
    ensures if t.x.red then Rb(Near(t, d), h) && !IsRed(Near(t, d)) else h > 0 && Rb(Near(t, d), h - 1)
  {
  }

  lemma BlackLink(d: Side, near: Tree, x: Item, far: Tree, h: nat)
    requires Rb(near, h) && Rb(far, h) && !x.red
    ensures Rb(Link(d, near, x, far), h + 1)
  {
  }

  lemma RedLink(d: Side, near: Tree, x: Item, far: Tree, h: nat)
    requires Rb(near, h) && Rb(far, h) && x.red && !IsRed(near) && !IsRed(far)
    ensures Rb(Link(d, near, x, far), h)
  {
  }

  lemma PaintBlack(t: Tree, h: nat)
    requires t.Node? && t.x.red && Rb(t, h)
    ensures Rb(Painted(t, false), h + 1)
  {
  }

  // ----- Insertion -------------------------------------------------------------------

  /** A red root with one red child, on side `d`. */
  ghost predicate RedPair(t: Tree, d: Side, h: nat) {
    && t.Node? && t.x.red
    && IsRed(Near(t, d)) && Rb(Near(t, d), h)
    && !IsRed(Near(t, Opposite(d))) && Rb(Near(t, Opposite(d)), h)
  }

  /** How balanced a subtree of height `h` is at each stage of an insertion. */
  ghost predicate GrownRb(g: Grown, h: nat, wasRed: bool) {
    match g.st
    case Settled => Rb(g.t, h) && (IsRed(g.t) ==> wasRed)
    case AtNode => Rb(g.t, h) && IsRed(g.t) && !wasRed
    case AtParent => g.p != [] && RedPair(g.t, g.p[0], h) && wasRed
  }

  lemma RebalanceRb(t: Tree, d: Side, c: Grown, h: nat)
    requires t.Node? && !t.x.red && h > 0 && Rb(Near(t, Opposite(d)), h - 1)
    requires c.p != [] && RedPair(c.t, c.p[0], h - 1)
    ensures GrownRb(Rebalance(t, d, c), h, false)
  {
    hide Rb;
    var parent, uncle, o, k := c.t, Near(t, Opposite(d)), Opposite(d), h - 1;
    if IsRed(uncle) {
      assert Rb(Painted(uncle, false), h) by { PaintBlack(uncle, k); }
      BlackLink(c.p[0], Near(parent, c.p[0]), parent.x.(red := false), Near(parent, Opposite(c.p[0])), k);
      assert Painted(parent, false) == Link(c.p[0], Near(parent, c.p[0]), parent.x.(red := false), Near(parent, Opposite(c.p[0])));
      RedLink(d, Painted(parent, false), t.x.(red := true), Painted(uncle, false), h);
    } else if c.p[0] == d {
      RedLink(d, Near(parent, o), t.x.(red := true), uncle, k);
      BlackLink(d, Near(parent, d), parent.x.(red := false), Link(d, Near(parent, o), t.x.(red := true), uncle), k);
    } else {
      var node := Near(parent, o);
      NearRb(node, d, k);
      NearRb(node, o, k);
      RedLink(d, Near(parent, d), parent.x, Near(node, d), k);
      RedLink(d, Near(node, o), t.x.(red := true), uncle, k);
      BlackLink(d, Link(d, Near(parent, d), parent.x, Near(node, d)), node.x.(red := false),
                Link(d, Near(node, o), t.x.(red := true), uncle), k);
    }
  }

  /** Every stage of an insertion is as balanced as it should be. */
  lemma {:induction false} InsertRb(t: Tree, x: Item, h: nat)
    requires Rb(t, h) && x.red
    ensures GrownRb(Insert(t, x), h, IsRed(t))
  {
    if t.Leaf? {
      assert Rb(Node(Leaf, x, Leaf), 0);
    } else {
      hide Rebalance;
      var d := SideFor(t, x.e);
      var c := Insert(Near(t, d), x);
      NearRb(t, d, h);
      NearRb(t, Opposite(d), h);
      if t.x.red {
        InsertRb(Near(t, d), x, h);
      } else {
        InsertRb(Near(t, d), x, h - 1);
        if c.st == AtParent {
          RebalanceRb(t, d, c, h);
        }
      }
    }
  }

  /** After the root has been painted black the tree is balanced. */
  lemma InsertBalances(t: Tree, x: Item)
    requires Balanced(t) && x.red
    ensures Balanced(Painted(Insert(t, x).t, false))
  {
    var h: nat :| Rb(t, h);
    InsertRb(t, x, h);
    var g := Insert(t, x).t;
    if g.x.red {
      PaintBlack(g, h);
    } else {
      assert Painted(g, false) == g;
    }
  }

  // ----- Removal ---------------------------------------------------------------------

  /** How balanced a subtree of height `h` is after a removal: as before; or, while the loop
      still looks at its root, one short, which painting a red root black makes up for. */
  ghost predicate CutRb(c: Cut, h: nat, wasRed: bool) {
    if !c.short then Rb(c.t, h) && (IsRed(c.t) ==> wasRed)
    else if IsRed(c.t) then Rb(Painted(c.t, false), h)
    else h > 0 && Rb(c.t, h - 1)
  }

  /** The height of a node whose children have height `n`. */
  function HeightOver(red: bool, n: nat): nat { if red then n else n + 1 }

  lemma BlackNeedsNode(t: Tree, h: nat)
    requires Rb(t, h) && h > 0
    ensures t.Node?
  {
  }

  lemma PaintRed(t: Tree, h: nat)
    requires t.Node? && !t.x.red && Rb(t, h) && !IsRed(t.left) && !IsRed(t.right)
    ensures h > 0 && Rb(Painted(t, true), h - 1)
  {
  }

  lemma ColouredLink(d: Side, near: Tree, x: Item, far: Tree, n: nat)
    requires Rb(near, n) && Rb(far, n) && !IsRed(near) && !IsRed(far)
    ensures Rb(Link(d, near, x, far), HeightOver(x.red, n))
  {
  }

  /** One turn of the removal loop under a black sibling: there is one, and balance is
      restored or the shortage is passed up. */
  lemma LiftBlackRb(t: Tree, d: Side, p: Path, n: nat)
    requires t.Node? && n > 0 && Rb(Near(t, d), n - 1) && !IsRed(Near(t, d))
    requires Rb(Near(t, Opposite(d)), n) && !IsRed(Near(t, Opposite(d)))
    ensures Near(t, Opposite(d)).Node?
    ensures CutRb(LiftBlack(t, d, p), HeightOver(t.x.red, n), t.x.red)
    ensures LiftBlack(t, d, p).short ==> LiftBlack(t, d, p).t.Node? && LiftBlack(t, d, p).t.x.red == t.x.red
  {
    hide Rb;
    var o, near, other := Opposite(d), Near(t, d), Near(t, Opposite(d));
    BlackNeedsNode(other, n);
    NearRb(other, d, n);
    NearRb(other, o, n);
    var inner, outer := Near(other, d), Near(other, o);
    var x := t.x.(red := false);
    if !IsRed(inner) && !IsRed(outer) {
      PaintRed(other, n);
      BlackLink(d, near, x, Painted(other, true), n - 1);
      assert t.x.red ==> Painted(LiftBlack(t, d, p).t, false) == Link(d, near, x, Painted(other, true));
      assert !t.x.red ==> x == t.x;
    } else if !IsRed(outer) {
      NearRb(inner, d, n - 1);
      NearRb(inner, o, n - 1);
      BlackLink(d, near, x, Near(inner, d), n - 1);
      BlackLink(d, Near(inner, o), other.x.(red := false), outer, n - 1);
      ColouredLink(d, Link(d, near, x, Near(inner, d)), inner.x.(red := t.x.red),
                   Link(d, Near(inner, o), other.x.(red := false), outer), n);
    } else {
      PaintBlack(outer, n - 1);
      BlackLink(d, near, x, inner, n - 1);
      ColouredLink(d, Link(d, near, x, inner), other.x.(red := t.x.red), Painted(outer, false), n);
    }
  }

  /** One turn of the removal loop. */
  lemma LiftRb(t: Tree, d: Side, p: Path, n: nat)
    requires t.Node? && n > 0 && Rb(Near(t, d), n - 1) && !IsRed(Near(t, d))
    requires Rb(Near(t, Opposite(d)), n) && (t.x.red ==> !IsRed(Near(t, Opposite(d))))
    ensures CutRb(Lift(t, d, p), HeightOver(t.x.red, n), t.x.red)
  {
    hide Rb, LiftBlack;
    var o, other := Opposite(d), Near(t, Opposite(d));
    if IsRed(other) {
      NearRb(other, d, n);
      NearRb(other, o, n);
      var low := Link(d, Near(t, d), t.x.(red := true), Near(other, d));
      LiftBlackRb(low, d, p, n);
      var c := LiftBlack(low, d, p);
      var lower := if c.short && c.t.Node? then Painted(c.t, false) else c.t;
      BlackLink(d, lower, other.x.(red := false), Near(other, o), n);
    } else {
      LiftBlackRb(t, d, p, n);
    }
  }

  /** The height of the children of a balanced node. */
  function Below(t: Tree, h: nat): nat
    requires t.Node? && (!t.x.red ==> h > 0)
  {
    if t.x.red then h else h - 1
  }

  lemma SettleRb(t: Tree, d: Side, c: Cut, h: nat)
    requires t.Node? && (!t.x.red ==> h > 0) && Rb(Near(t, Opposite(d)), Below(t, h))
    requires t.x.red ==> !IsRed(Near(t, Opposite(d)))
    requires CutRb(c, Below(t, h), !t.x.red && IsRed(Near(t, d)))
    ensures CutRb(Settle(t, d, c), h, t.x.red)
  {
    hide Rb, Lift;
    var n, far := Below(t, h), Near(t, Opposite(d));
    if !c.short {
      ReplaceIsLink(t, d, c.t);
      if t.x.red {
        RedLink(d, c.t, t.x, far, n);
      } else {
        BlackLink(d, c.t, t.x, far, n);
      }
    } else if IsRed(c.t) {
      ReplaceIsLink(t, d, Painted(c.t, false));
      if t.x.red {
        RedLink(d, Painted(c.t, false), t.x, far, n);
      } else {
        BlackLink(d, Painted(c.t, false), t.x, far, n);
      }
    } else {
      LiftRb(Replace(t, d, c.t), d, Longer(d, c.p), n);
    }
  }

  lemma DropRb(t: Tree, h: nat)
    requires t.Node? && (t.left.Leaf? || t.right.Leaf?) && Rb(t, h)
    ensures CutRb(Drop(t), h, t.x.red)
  {
    var child := if t.left.Leaf? then t.right else t.left;
    if child.Node? && child.x.red {
      PaintBlack(child, 0);
    }
  }

  lemma {:induction false} DropLeftmostRb(t: Tree, h: nat)
    requires t.Node? && Rb(t, h)
    ensures CutRb(DropLeftmost(t), h, t.x.red)
  {
    if t.left.Leaf? {
      DropRb(t, h);
    } else {
      NearRb(t, L, h);
      NearRb(t, R, h);
      hide Rb, Settle;
      DropLeftmostRb(t.left, Below(t, h));
      SettleRb(t, L, DropLeftmost(t.left), h);
    }
  }

  /** Every stage of a removal is as balanced as it should be; the loop always finds the
      sibling it looks for. */
  lemma {:induction false} EraseRb(t: Tree, at: Path, h: nat)
    requires Reaches(t, at) && Rb(t, h)
    ensures CutRb(Erase(t, at), h, t.x.red)
    decreases |at|
  {
    NearRb(t, L, h);
    NearRb(t, R, h);
    if at != [] {
      hide Rb, Settle;
      var d := at[0];
      EraseRb(Near(t, d), at[1..], Below(t, h));
      SettleRb(t, d, Erase(Near(t, d), at[1..]), h);
    } else if t.left.Leaf? || t.right.Leaf? {
      DropRb(t, h);
    } else {
      hide Rb, Settle;
      DropLeftmostRb(t.right, Below(t, h));
      SettleRb(t.(x := Leftmost(t.right).(red := t.x.red)), R, DropLeftmost(t.right), h);
    }
  }

  /** The tree once the root has been painted, if the loop ended there. */
  function Finished(c: Cut): Tree {
    if c.t.Node? && (c.short || c.paint) then Painted(c.t, false) else c.t
  }

  lemma EraseBalances(t: Tree, at: Path)
    requires Reaches(t, at) && Balanced(t)
    ensures Balanced(Finished(Erase(t, at)))
  {
    var h: nat :| Rb(t, h);
    EraseRb(t, at, h);
    var c := Erase(t, at);
    assert c.t.Node? && !c.t.x.red ==> Painted(c.t, false) == c.t;
    if c.short && !IsRed(c.t) {
      assert Rb(c.t, h - 1);
    }
  }

  /** Balance does not depend on the recorded minima. */
  lemma {:induction false} BareRb(t: Tree, h: nat)
    ensures Rb(Bare(t), h) <==> Rb(t, h)
    ensures IsRed(Bare(t)) == IsRed(t)
  {
    if t.Node? {
      BareRb(t.left, h);
      BareRb(t.right, h);
      if h > 0 {
        BareRb(t.left, h - 1);
        BareRb(t.right, h - 1);
      }
    }
  }

  lemma SameShapeBalanced(t: Tree, r: Tree)
    requires Balanced(t) && Bare(r) == Bare(t)
    ensures Balanced(r)
  {
    var h: nat :| Rb(t, h);
    BareRb(t, h);
    BareRb(r, h);
  }
}
