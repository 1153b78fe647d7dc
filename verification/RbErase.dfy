/** Removal from the active tree, with the path to the deepest node it may have touched. */
module RbErase {
  import opened Requests
  import opened BfqTree
  import opened RbTree

  /** A subtree after a removal in it: the path to the deepest node affected, if it is in
      here; whether the rebalancing loop still looks at its root; whether the root of the
      whole tree is to be painted black at the end. */
  datatype Cut = Cut(t: Tree, p: Option<Path>, short: bool, paint: bool)

  /** A turn of the rebalancing loop with a sibling that is, or is taken for, black: repaint
      it, or rotate once or twice and be done.  A missing sibling, which a balanced tree
      does not have here, counts as black. */
  function LiftBlack(t: Tree, d: Side, p: Path): Cut
    requires t.Node?
  {
    var o, other := Opposite(d), Near(t, Opposite(d));
    if other.Leaf? then Cut(t, Some(p), true, false)
    else
      var inner, outer := Near(other, d), Near(other, o);
      if !IsRed(inner) && !IsRed(outer) then
        Cut(Link(d, Near(t, d), t.x, Painted(other, true)), Some(p), true, false)
      else if !IsRed(outer) then
        Cut(Link(d, Link(d, Near(t, d), t.x.(red := false), Near(inner, d)), inner.x.(red := t.x.red),
                 Link(d, Near(inner, o), other.x.(red := false), outer)),
            Some([d] + p), false, true)
      else
        Cut(Link(d, Link(d, Near(t, d), t.x.(red := false), inner), other.x.(red := t.x.red), Painted(outer, false)),
            Some([d] + p), false, true)
  }

  /** A turn of the loop: a red sibling is first rotated above the parent. */
  function Lift(t: Tree, d: Side, p: Path): Cut
    requires t.Node?
  {
    var other := Near(t, Opposite(d));
    if IsRed(other) then
      var c := LiftBlack(Link(d, Near(t, d), t.x.(red := true), Near(other, d)), d, p);
      var lower := if c.short && c.t.Node? then Painted(c.t, false) else c.t;
      Cut(Link(d, lower, other.x.(red := false), Near(other, Opposite(d))),
          Some([d] + if c.p.Some? then c.p.value else []), false, c.paint)
    else LiftBlack(t, d, p)
  }

  /** The path as seen from the parent, which is itself the deepest node left if there is
      none below. */
  function Longer(d: Side, p: Option<Path>): Path {
    if p.Some? then [d] + p.value else []
  }

  /** What a removal below side `d` does to a node. */
  function Settle(t: Tree, d: Side, c: Cut): Cut
    requires t.Node?
  {
    var p := Longer(d, c.p);
    if !c.short then Cut(Replace(t, d, c.t), Some(p), false, c.paint)
    else if IsRed(c.t) then Cut(Replace(t, d, Painted(c.t, false)), Some(p), false, c.paint)
    else Lift(Replace(t, d, c.t), d, p)
  }

  /** A node with at most one child, gone. */
  function Drop(t: Tree): Cut
    requires t.Node? && (t.left.Leaf? || t.right.Leaf?)
  {
    var child := if t.left.Leaf? then t.right else t.left;
    Cut(child, if child.Leaf? then None else Some([]), !t.x.red, false)
  }

  function Leftmost(t: Tree): Item
    requires t.Node?
  {
    if t.left.Leaf? then t.x else Leftmost(t.left)
  }

  function DropLeftmost(t: Tree): Cut
    requires t.Node?
  {
    if t.left.Leaf? then Drop(t) else Settle(t, L, DropLeftmost(t.left))
  }

  /** Removal of the node at the end of a path.  A node with two children is replaced by its
      successor, which takes over its colour. */
  function Erase(t: Tree, at: Path): Cut
    requires Reaches(t, at)
    decreases |at|
  {
    if at != [] then Settle(t, at[0], Erase(Near(t, at[0]), at[1..]))
    else if t.left.Leaf? || t.right.Leaf? then Drop(t)
    else Settle(t.(x := Leftmost(t.right).(red := t.x.red)), R, DropLeftmost(t.right))
  }

  // ----- Damage ----------------------------------------------------------------------

  /** What is known of the damage at each stage of a removal. */
  ghost predicate CutOk(c: Cut) {
    && (c.p.None? ==> c.t.Leaf?)
    && (c.p.Some? ==> if c.short then Clean(c.t, c.p.value) else Damaged(c.t, c.p.value))
  }

  lemma DamagedLink(d: Side, near: Tree, x: Item, far: Tree, p: Path)
    requires Damaged(near, p) && Shallow(far)
    ensures Damaged(Link(d, near, x, far), [d] + p)
  {
    assert ([d] + p)[1..] == p && ([d] + p)[0] == d;
  }

  /** A node on the path may be repainted and given another sound subtree off the path. */
  lemma OtherFar(t: Tree, d: Side, p: Path, x: Item, far: Tree)
    requires Clean(t, p) && (p == [] || p[0] == d) && Exact(far)
    ensures Clean(Link(d, Near(t, d), x, far), p) && Damaged(Link(d, Near(t, d), x, far), p)
  {
    var t' := Link(d, Near(t, d), x, far);
    assert Clean(t', p);
    CleanIsDamaged(t', p);
  }

  lemma ExactBelow(t: Tree)
    requires Exact(t)
    ensures t.Node? ==> Exact(t.left) && Exact(t.right)
    ensures Shallow(t)
  {
  }

  lemma LiftBlackKeeps(t: Tree, d: Side, p: Path)
    requires Clean(t, p) && (p == [] || p[0] == d)
    ensures CutOk(LiftBlack(t, d, p)) && LiftBlack(t, d, p).p.Some?
  {
    hide MinStart, InOrder, Damaged;
    var o, other := Opposite(d), Near(t, Opposite(d));
    if other.Node? {
      var inner, outer := Near(other, d), Near(other, o);
      ExactBelow(other);
      ExactBelow(inner);
      if !IsRed(inner) && !IsRed(outer) {
        PaintedExact(other, true);
        OtherFar(t, d, p, t.x, Painted(other, true));
      } else if !IsRed(outer) {
        OtherFar(t, d, p, t.x.(red := false), Near(inner, d));
        DamagedLink(d, Link(d, Near(t, d), t.x.(red := false), Near(inner, d)), inner.x.(red := t.x.red),
                    Link(d, Near(inner, o), other.x.(red := false), outer), p);
      } else {
        PaintedExact(outer, false);
        OtherFar(t, d, p, t.x.(red := false), inner);
        DamagedLink(d, Link(d, Near(t, d), t.x.(red := false), inner), other.x.(red := t.x.red), Painted(outer, false), p);
      }
    }
  }

  lemma LiftKeeps(t: Tree, d: Side, p: Path)
    requires Clean(t, p) && (p == [] || p[0] == d)
    ensures CutOk(Lift(t, d, p)) && Lift(t, d, p).p.Some?
  {
    hide MinStart, InOrder, LiftBlack, Damaged;
    var other := Near(t, Opposite(d));
    if IsRed(other) {
      var low := Link(d, Near(t, d), t.x.(red := true), Near(other, d));
      ExactBelow(other);
      ExactBelow(Near(other, Opposite(d)));
      OtherFar(t, d, p, t.x.(red := true), Near(other, d));
      LiftBlackKeeps(low, d, p);
      var c := LiftBlack(low, d, p);
      if c.short {
        CleanIsDamaged(c.t, c.p.value);
        PaintedDamaged(c.t, c.p.value, false);
      }
      DamagedLink(d, if c.short then Painted(c.t, false) else c.t, other.x.(red := false), Near(other, Opposite(d)), c.p.value);
    } else {
      LiftBlackKeeps(t, d, p);
    }
  }

  lemma SettleKeeps(t: Tree, d: Side, c: Cut)
    requires t.Node? && CutOk(c) && Exact(Near(t, Opposite(d)))
    ensures CutOk(Settle(t, d, c)) && Settle(t, d, c).p.Some?
  {
    hide MinStart, InOrder, Lift;
    var p := Longer(d, c.p);
    if c.p.Some? {
      assert p[1..] == c.p.value && p[0] == d;
      if c.short {
        CleanIsDamaged(c.t, c.p.value);
        PaintedDamaged(c.t, c.p.value, false);
      }
    }
    if c.short && !IsRed(c.t) {
      assert Clean(Replace(t, d, c.t), p);
      LiftKeeps(Replace(t, d, c.t), d, p);
    }
  }

  lemma DropKeeps(t: Tree)
    requires t.Node? && (t.left.Leaf? || t.right.Leaf?) && Exact(t)
    ensures CutOk(Drop(t))
  {
    hide MinStart, InOrder;
  }

  lemma {:induction false} DropLeftmostKeeps(t: Tree)
    requires t.Node? && Exact(t)
    ensures CutOk(DropLeftmost(t))
  {
    hide MinStart, InOrder, Settle, CutOk, Drop;
    if t.left.Leaf? {
      DropKeeps(t);
    } else {
      DropLeftmostKeeps(t.left);
      SettleKeeps(t, L, DropLeftmost(t.left));
    }
  }

  /** Removal, however it rebalances, leaves damage only along the path it reports. */
  lemma {:induction false} EraseKeeps(t: Tree, at: Path)
    requires Reaches(t, at) && Exact(t)
    ensures CutOk(Erase(t, at))
    decreases |at|
  {
    hide MinStart, InOrder, Settle, CutOk, Drop, DropLeftmost;
    if at != [] {
      EraseKeeps(Near(t, at[0]), at[1..]);
      SettleKeeps(t, at[0], Erase(Near(t, at[0]), at[1..]));
    } else if t.left.Leaf? || t.right.Leaf? {
      DropKeeps(t);
    } else {
      DropLeftmostKeeps(t.right);
      SettleKeeps(t.(x := Leftmost(t.right).(red := t.x.red)), R, DropLeftmost(t.right));
    }
  }

  // ----- Order -----------------------------------------------------------------------

  lemma LiftBlackOrder(t: Tree, d: Side, p: Path)
    requires t.Node?
    ensures InOrder(LiftBlack(t, d, p).t) == InOrder(t)
  {
    hide InOrder, Around;
    var o, other := Opposite(d), Near(t, Opposite(d));
    LinkBack(t, d);
    if other.Node? {
      LinkBack(other, d);
      var inner, outer := Near(other, d), Near(other, o);
      if !IsRed(inner) && !IsRed(outer) {
        PaintedOrder(other, true);
        FarOrder(d, Near(t, d), t.x, other, Painted(other, true));
      } else if !IsRed(outer) {
        LinkBack(inner, d);
        MirrorInner(d, Near(t, d), t.x, t.x.(red := false), Near(inner, d), inner.x, inner.x.(red := t.x.red),
                    Near(inner, o), other.x, other.x.(red := false), outer);
      } else {
        PaintedOrder(outer, false);
        OuterOrder(d, Near(t, d), t.x.(red := false), t.x, inner, other.x.(red := t.x.red), other.x, outer);
        FarOrder(d, Link(d, Near(t, d), t.x.(red := false), inner), other.x.(red := t.x.red), outer, Painted(outer, false));
      }
    }
  }

  lemma FarOrder(d: Side, near: Tree, x: Item, far: Tree, far': Tree)
    requires InOrder(far) == InOrder(far')
    ensures InOrder(Link(d, near, x, far)) == InOrder(Link(d, near, x, far'))
  {
    hide InOrder, Around;
    LinkOrder(d, near, x, far);
    LinkOrder(d, near, x, far');
  }

  lemma NearOrder(d: Side, near: Tree, near': Tree, x: Item, far: Tree)
    requires InOrder(near) == InOrder(near')
    ensures InOrder(Link(d, near, x, far)) == InOrder(Link(d, near', x, far))
  {
    hide InOrder, Around;
    LinkOrder(d, near, x, far);
    LinkOrder(d, near', x, far);
  }

  /** The two rotations of a sibling with a red inner child. */
  lemma MirrorInner(d: Side, a: Tree, x: Item, x': Item, b: Tree, y: Item, y': Item, c: Tree, z: Item, z': Item, u: Tree)
    requires x.e == x'.e && y.e == y'.e && z.e == z'.e
    ensures InOrder(Link(d, Link(d, a, x', b), y', Link(d, c, z', u))) == InOrder(Link(d, a, x, Link(d, Link(d, b, y, c), z, u)))
  {
    hide InOrder, Around;
    OuterOrder(d, a, x', x, b, y', y, Link(d, c, z', u));
    OuterOrder(d, b, y, y', c, z, z', u);
    OuterOrder(d, b, y, y, c, z, z', u);
    FarOrder(d, a, x, Link(d, b, y, Link(d, c, z', u)), Link(d, Link(d, b, y, c), z, u));
  }

  lemma LiftOrder(t: Tree, d: Side, p: Path)
    requires t.Node?
    ensures InOrder(Lift(t, d, p).t) == InOrder(t)
  {
    hide InOrder, Around, LiftBlack;
    var other := Near(t, Opposite(d));
    if IsRed(other) {
      var low := Link(d, Near(t, d), t.x.(red := true), Near(other, d));
      LiftBlackOrder(low, d, p);
      var c := LiftBlack(low, d, p);
      var lower := if c.short && c.t.Node? then Painted(c.t, false) else c.t;
      if c.short && c.t.Node? {
        PaintedOrder(c.t, false);
      }
      LinkBack(t, d);
      LinkBack(other, d);
      NearOrder(d, lower, low, other.x.(red := false), Near(other, Opposite(d)));
      OuterOrder(d, Near(t, d), t.x.(red := true), t.x, Near(other, d), other.x.(red := false), other.x, Near(other, Opposite(d)));
    } else {
      LiftBlackOrder(t, d, p);
    }
  }

  lemma SettleOrder(t: Tree, d: Side, c: Cut)
    requires t.Node?
    ensures InOrder(Settle(t, d, c).t) == Around(d, InOrder(c.t), t.x.e, InOrder(Near(t, Opposite(d))))
  {
    hide InOrder, Around, Lift;
    ReplaceOrder(t, d, c.t);
    if c.short {
      if IsRed(c.t) {
        PaintedOrder(c.t, false);
        ReplaceOrder(t, d, Painted(c.t, false));
      } else {
        LiftOrder(Replace(t, d, c.t), d, Longer(d, c.p));
      }
    }
  }

  lemma {:induction false} DropLeftmostOrder(t: Tree)
    requires t.Node?
    ensures InOrder(t) == [Leftmost(t).e] + InOrder(DropLeftmost(t).t)
  {
    if t.left.Node? {
      hide Settle, InOrder, Around;
      var c := DropLeftmost(t.left);
      DropLeftmostOrder(t.left);
      SettleOrder(t, L, c);
      PlainOrder(t);
      AroundL(InOrder(c.t), t.x.e, InOrder(t.right));
    }
  }

  /** A list without one of its entities. */
  function Without(s: seq<Entity>, k: nat): seq<Entity>
    requires k < |s|
  {
    s[..k] + s[k + 1..]
  }

  lemma WithoutLeft(a: seq<Entity>, k: nat, m: Entity, b: seq<Entity>)
    requires k < |a|
    ensures (a + [m] + b)[k] == a[k] && Without(a + [m] + b, k) == Without(a, k) + [m] + b
  {
  }

  lemma WithoutRight(a: seq<Entity>, m: Entity, b: seq<Entity>, k: nat)
    requires k < |b|
    ensures (a + [m] + b)[|a| + 1 + k] == b[k] && Without(a + [m] + b, |a| + 1 + k) == a + [m] + Without(b, k)
  {
  }

  lemma WithoutMiddle(a: seq<Entity>, m: Entity, b: seq<Entity>)
    ensures (a + [m] + b)[|a|] == m && Without(a + [m] + b, |a|) == a + b
  {
  }

  /** Removal takes one entity out and moves nothing else. */
  lemma {:induction false} EraseOrder(t: Tree, at: Path) returns (k: nat)
    requires Reaches(t, at)
    ensures k < |InOrder(t)| && InOrder(t)[k] == RbTree.At(t, at).x.e && InOrder(Erase(t, at).t) == Without(InOrder(t), k)
    decreases |at|
  {
    var l, r := InOrder(t.left), InOrder(t.right);
    if at != [] {
      hide Settle, Without, InOrder, Around;
      var d := at[0];
      var c := Erase(Near(t, d), at[1..]);
      var j := EraseOrder(Near(t, d), at[1..]);
      SettleOrder(t, d, c);
      PlainOrder(t);
      if d == L {
        k := j;
        WithoutLeft(l, j, t.x.e, r);
        AroundL(InOrder(c.t), t.x.e, r);
      } else {
        k := |l| + 1 + j;
        WithoutRight(l, t.x.e, r, j);
        AroundR(l, t.x.e, InOrder(c.t));
      }
    } else {
      k := |l|;
      WithoutMiddle(l, t.x.e, r);
      PlainOrder(t);
      if !t.left.Leaf? && !t.right.Leaf? {
        ReplacedOrder(t);
      }
    }
  }

  /** A node with two children gives way to its successor. */
  lemma ReplacedOrder(t: Tree)
    requires t.Node? && t.left.Node? && t.right.Node?
    ensures InOrder(Erase(t, []).t) == InOrder(t.left) + InOrder(t.right)
  {
    hide Settle, DropLeftmost, InOrder, Around;
    var s, c := t.(x := Leftmost(t.right).(red := t.x.red)), DropLeftmost(t.right);
    DropLeftmostOrder(t.right);
    SettleOrder(s, R, c);
    AroundR(InOrder(t.left), s.x.e, InOrder(c.t));
    assert InOrder(t.left) + ([s.x.e] + InOrder(c.t)) == InOrder(t.left) + [s.x.e] + InOrder(c.t);
  }

  // ----- The deepest node ------------------------------------------------------------

  /** The entity of the node that the repair starts from, chosen before the removal: `parent`
      is that of the node to be removed, or of the one that takes its place. */
  function DeepestOf(t: Tree, at: Path, parent: Option<Entity>): Option<Entity>
    requires Reaches(t, at)
    decreases |at|
  {
    if at != [] then DeepestOf(Near(t, at[0]), at[1..], Some(t.x.e))
    else if t.right.Leaf? && t.left.Leaf? then parent
    else if t.right.Leaf? then Some(t.left.x.e)
    else if t.left.Leaf? then Some(t.right.x.e)
    else Some(DeepestRight(t.right, Leftmost(t.right).e))
  }

  /** Right of a node with two children: the successor's right child, else its parent, else
      the successor itself if it is the right child. */
  function DeepestRight(t: Tree, parent: Entity): Entity
    requires t.Node?
  {
    if t.left.Node? then DeepestRight(t.left, t.x.e)
    else if t.right.Node? then t.right.x.e
    else parent
  }

  /** A path ends at an entity's node. */
  ghost predicate Ends(t: Tree, p: Path, e: Entity) {
    Reaches(t, p) && RbTree.At(t, p).x.e == e
  }

  /** The path of a removal ends at an entity's node; without one, it is that of the node
      above. */
  ghost predicate CutEnds(c: Cut, e: Option<Entity>, above: Option<Entity>) {
    match c.p
    case None => e == above && c.t.Leaf?
    case Some(p) => e.Some? && Ends(c.t, p, e.value)
  }

  lemma EndsLink(d: Side, near: Tree, x: Item, far: Tree, p: Path, e: Entity)
    requires Ends(near, p, e)
    ensures Ends(Link(d, near, x, far), [d] + p, e)
  {
    assert ([d] + p)[1..] == p && ([d] + p)[0] == d;
  }

  lemma EndsPainted(t: Tree, p: Path, e: Entity, red: bool)
    requires Ends(t, p, e)
    ensures t.Node? && Ends(Painted(t, red), p, e)
  {
  }

  /** Changing what is off the path changes nothing of where it ends. */
  lemma EndsFar(t: Tree, d: Side, p: Path, x: Item, far: Tree, e: Entity)
    requires Ends(t, p, e) && (p == [] || p[0] == d) && t.x.e == x.e
    ensures Ends(Link(d, Near(t, d), x, far), p, e)
  {
  }

  lemma LiftBlackEnds(t: Tree, d: Side, p: Path, e: Entity)
    requires Ends(t, p, e) && (p == [] || p[0] == d)
    ensures t.Node? && CutEnds(LiftBlack(t, d, p), Some(e), None)
  {
    EndsPainted(t, p, e, t.x.red);
    hide Ends;
    var o, other := Opposite(d), Near(t, Opposite(d));
    if other.Node? {
      var inner, outer := Near(other, d), Near(other, o);
      if !IsRed(inner) && !IsRed(outer) {
        EndsFar(t, d, p, t.x, Painted(other, true), e);
      } else if !IsRed(outer) {
        EndsFar(t, d, p, t.x.(red := false), Near(inner, d), e);
        EndsLink(d, Link(d, Near(t, d), t.x.(red := false), Near(inner, d)), inner.x.(red := t.x.red),
                 Link(d, Near(inner, o), other.x.(red := false), outer), p, e);
      } else {
        EndsFar(t, d, p, t.x.(red := false), inner, e);
        EndsLink(d, Link(d, Near(t, d), t.x.(red := false), inner), other.x.(red := t.x.red), Painted(outer, false), p, e);
      }
    }
  }

  lemma LiftEnds(t: Tree, d: Side, p: Path, e: Entity)
    requires Ends(t, p, e) && (p == [] || p[0] == d)
    ensures t.Node? && CutEnds(Lift(t, d, p), Some(e), None)
  {
    EndsPainted(t, p, e, t.x.red);
    hide Ends, LiftBlack;
    var other := Near(t, Opposite(d));
    if IsRed(other) {
      var low := Link(d, Near(t, d), t.x.(red := true), Near(other, d));
      EndsFar(t, d, p, t.x.(red := true), Near(other, d), e);
      LiftBlackEnds(low, d, p, e);
      var c := LiftBlack(low, d, p);
      EndsPainted(c.t, c.p.value, e, false);
      EndsLink(d, if c.short then Painted(c.t, false) else c.t, other.x.(red := false), Near(other, Opposite(d)), c.p.value, e);
    } else {
      LiftBlackEnds(t, d, p, e);
    }
  }

  lemma ReplaceIsLink(t: Tree, d: Side, near: Tree)
    requires t.Node?
    ensures Replace(t, d, near) == Link(d, near, t.x, Near(t, Opposite(d)))
  {
  }

  lemma SettleEnds(t: Tree, d: Side, c: Cut, e: Option<Entity>)
    requires t.Node? && CutEnds(c, e, Some(t.x.e))
    ensures CutEnds(Settle(t, d, c), e, None)
  {
    hide Lift;
    var p, r := Longer(d, c.p), Replace(t, d, c.t);
    if c.p.Some? {
      hide Ends;
      ReplaceIsLink(t, d, c.t);
      EndsLink(d, c.t, t.x, Near(t, Opposite(d)), c.p.value, e.value);
      EndsPainted(c.t, c.p.value, e.value, false);
      ReplaceIsLink(t, d, Painted(c.t, false));
      EndsLink(d, Painted(c.t, false), t.x, Near(t, Opposite(d)), c.p.value, e.value);
    } else {
      assert Ends(r, [], t.x.e);
    }
    if c.short && !IsRed(c.t) {
      LiftEnds(r, d, p, e.value);
    }
  }

  lemma DropEnds(t: Tree, above: Entity)
    requires t.Node? && (t.left.Leaf? || t.right.Leaf?)
    ensures CutEnds(Drop(t), Some(if t.left.Node? then t.left.x.e else if t.right.Node? then t.right.x.e else above), Some(above))
  {
  }

  lemma {:induction false} DropLeftmostEnds(t: Tree, above: Entity)
    requires t.Node?
    ensures CutEnds(DropLeftmost(t), Some(DeepestRight(t, above)), Some(above))
  {
    hide Settle, CutEnds, Drop;
    if t.left.Leaf? {
      DropEnds(t, above);
    } else {
      DropLeftmostEnds(t.left, t.x.e);
      SettleEnds(t, L, DropLeftmost(t.left), Some(DeepestRight(t.left, t.x.e)));
      CutEndsAnywhere(Settle(t, L, DropLeftmost(t.left)), Some(DeepestRight(t.left, t.x.e)), Some(above));
    }
  }

  lemma CutEndsAnywhere(c: Cut, e: Option<Entity>, above: Option<Entity>)
    requires CutEnds(c, e, None) && e.Some?
    ensures CutEnds(c, e, above)
  {
  }

  /** The node chosen before a removal is where the path of the damage ends after it. */
  lemma {:induction false} EraseEnds(t: Tree, at: Path, above: Option<Entity>)
    requires Reaches(t, at)
    ensures CutEnds(Erase(t, at), DeepestOf(t, at, above), above)
    decreases |at|
  {
    hide Settle, Drop, DropLeftmost;
    if at != [] {
      var e := DeepestOf(Near(t, at[0]), at[1..], Some(t.x.e));
      EraseEnds(Near(t, at[0]), at[1..], Some(t.x.e));
      SettleEnds(t, at[0], Erase(Near(t, at[0]), at[1..]), e);
    } else if t.left.Leaf? || t.right.Leaf? {
      LoneEnds(t, above);
    } else {
      var s := t.(x := Leftmost(t.right).(red := t.x.red));
      DropLeftmostEnds(t.right, s.x.e);
      SettleEnds(s, R, DropLeftmost(t.right), Some(DeepestRight(t.right, s.x.e)));
    }
  }

  lemma LoneEnds(t: Tree, above: Option<Entity>)
    requires t.Node? && (t.left.Leaf? || t.right.Leaf?)
    ensures CutEnds(Drop(t), DeepestOf(t, [], above), above)
  {
  }
}
