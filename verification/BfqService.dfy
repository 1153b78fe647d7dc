/** One class's active tree and virtual time, changed in place. */
module BfqService {
  import opened Requests
  import opened BfqTree
  import opened RbTree
  import opened RbErase
  import opened RbBalance

  /** The path to an entity's node. */
  function PathTo(t: Tree, e: Entity): (p: Path)
    requires e in InOrder(t)
    ensures Reaches(t, p)
  {
    if t.x.e == e then []
    else if e in InOrder(t.left) then [L] + PathTo(t.left, e)
    else [R] + PathTo(t.right, e)
  }

  lemma {:induction false} PathEnds(t: Tree, e: Entity)
    requires e in InOrder(t)
    ensures At(t, PathTo(t, e)).x.e == e
  {
    if t.x.e != e {
      if e in InOrder(t.left) {
        PathEnds(t.left, e);
        assert ([L] + PathTo(t.left, e))[1..] == PathTo(t.left, e);
      } else {
        PathEnds(t.right, e);
        assert ([R] + PathTo(t.right, e))[1..] == PathTo(t.right, e);
      }
    }
  }

  lemma WithoutKeepsOrder(s: seq<Entity>, k: nat)
    requires Ordered(s) && Distinct(s) && k < |s|
    ensures Ordered(Without(s, k)) && Distinct(Without(s, k))
  {
    var r := Without(s, k);
    forall i, j | 0 <= i < j < |r| ensures r[i].finish <= r[j].finish && r[i] != r[j] {
      assert r[i] == s[if i < k then i else i + 1] && r[j] == s[if j < k then j else j + 1];
    }
  }

  lemma PutKeepsDistinct(s: seq<Entity>, k: nat, e: Entity)
    requires Distinct(s) && e !in s && k <= |s|
    ensures Distinct(PutAt(s, k, e))
  {
    var r := PutAt(s, k, e);
    forall i, j | 0 <= i < j < |r| ensures r[i] != r[j] {
      assert i != k ==> r[i] == s[if i < k then i else i - 1];
      assert j != k ==> r[j] == s[if j < k then j else j - 1];
    }
  }

  class ServiceTree {
    var active: Tree
    var vtime: int

    constructor (vtime: int)
      ensures Valid() && InOrder(active) == []
    {
      active, this.vtime := Leaf, vtime;
      assert Rb(Leaf, 0);
    }

    /** In the order of finish times, balanced, and with every minimum exact. */
    ghost predicate Valid()
      reads this
    {
      Balanced(active) && Exact(active) && Ordered(InOrder(active)) && Distinct(InOrder(active))
    }

    /** Puts an entity where its finish time says, rebalances and repairs the minima. */
    method ActiveInsert(e: Entity)
      requires Valid() && e !in InOrder(active)
      modifies this`active
      ensures Valid()
      ensures exists k :: Belongs(old(InOrder(active)), k, e) && InOrder(active) == PutAt(old(InOrder(active)), k, e)
    {
      hide InOrder, Exact, MinStart, Insert, Damaged, Ordered, Distinct, PutAt, Balanced, Bare;
      var x := Item(e, e.start, true);
      var k := InsertOrder(active, x);
      InsertKeeps(active, x);
      PutKeepsOrder(InOrder(active), k, e);
      PutKeepsDistinct(InOrder(active), k, e);
      var g := Insert(active, x);
      InsertEnds(active, x);
      PaintedGrown(g, e);
      GrownDamage(g);
      PaintedDamaged(g.t, g.p, false);
      InsertBalances(active, x);
      var root := Painted(g.t, false);
      assert EndsAt(root, g.p, e) || EndsLeftOf(root, g.p, e);
      active := UpdateActiveTree(root, g.p);
      SameShapeBalanced(root, active);
    }

    /** Takes an entity out, rebalances and repairs the minima from the deepest node on. */
    method ActiveExtract(e: Entity)
      requires Valid() && e in InOrder(active)
      modifies this`active
      ensures Valid()
      ensures exists k :: 0 <= k < |old(InOrder(active))| && old(InOrder(active))[k] == e
                          && InOrder(active) == Without(old(InOrder(active)), k)
    {
      hide InOrder, Exact, MinStart, Erase, Damaged, Ordered, Distinct, Without, Balanced, Bare;
      var p := PathTo(active, e);
      PathEnds(active, e);
      var k := EraseOrder(active, p);
      EraseKeeps(active, p);
      EraseBalances(active, p);
      WithoutKeepsOrder(InOrder(active), k);
      var c := Erase(active, p);
      EraseEnds(active, p, None);
      ghost var deepest := DeepestOf(active, p, None);
      if c.p.Some? {
        CutDamage(c);
        PaintedDamaged(c.t, c.p.value, false);
        PaintedEnds(c.t, c.p.value, deepest.value);
        var root := if c.short || c.paint then Painted(c.t, false) else c.t;
        assert Ends(root, c.p.value, deepest.value);
        active := UpdateActiveTree(root, c.p.value);
        SameShapeBalanced(root, active);
      } else {
        NothingLeft(c);
        active := c.t;
      }
    }

    /** Moves the virtual time on if need be and finds an entity to serve: one that is
        eligible, and the first such if the search ends at an eligible one. */
    method LookupNext() returns (first: Option<Entity>)
      requires Valid()
      modifies this`vtime
      ensures active.Leaf? ==> first == None && vtime == old(vtime)
      ensures active.Node? ==> vtime == UpdateVtime(active, old(vtime)) && Eligible(first, vtime)
      ensures active.Node? ==> (IsFirst(InOrder(active), first, vtime) <==> Walk(active, vtime, None).stop.start <= vtime)
    {
      hide InOrder, Exact, MinStart, Walk, Ordered, Distinct;
      if active.Leaf? {
        return None;
      }
      vtime := UpdateVtime(active, vtime);
      LookupFinds(active, vtime);
      WalkIsFirstIff(active, vtime);
      first := FirstActiveEntity(active, vtime);
    }
  }

  lemma PaintedEnds(t: Tree, p: Path, e: Entity)
    requires Ends(t, p, e)
    ensures t.Node? && Ends(Painted(t, false), p, e)
  {
  }

  /** Where the repair of an insertion starts: at the new entity's node if that has no child,
      else at its left child. */
  lemma PaintedGrown(g: Grown, e: Entity)
    requires GrownEnds(g, e)
    ensures g.t.Node? && (EndsAt(Painted(g.t, false), g.p, e) || EndsLeftOf(Painted(g.t, false), g.p, e))
  {
    if g.p != [] {
      var root, up := Painted(g.t, false), g.p[..|g.p| - 1];
      assert up != [] ==> up[0] == g.p[0] && Near(root, up[0]) == Near(g.t, up[0]);
    }
  }

  lemma GrownDamage(g: Grown)
    requires GrownOk(g)
    ensures Damaged(g.t, g.p)
  {
    if g.st != Settled {
      CleanIsDamaged(g.t, g.p);
    }
  }

  lemma CutDamage(c: Cut)
    requires CutOk(c) && c.p.Some?
    ensures Damaged(c.t, c.p.value)
  {
    if c.short {
      CleanIsDamaged(c.t, c.p.value);
    }
  }

  lemma NothingLeft(c: Cut)
    requires CutOk(c) && c.p.None?
    ensures c.t.Leaf? && Exact(c.t)
  {
  }
}
