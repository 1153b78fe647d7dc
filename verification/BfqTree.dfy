/** The tree of active entities, ordered by finish time, every node with the least start time
    below it: walking it, repairing it, and what damage the repair undoes. */
module BfqTree {
  import opened Requests

  /** A schedulable entity, with its virtual start and finish times. */
  datatype Entity = Entity(id: nat, start: int, finish: int)

  /** What a node holds: its entity, the least start time recorded for its subtree, its
      colour. */
  datatype Item = Item(e: Entity, min: int, red: bool)

  datatype Tree = Leaf | Node(left: Tree, x: Item, right: Tree)

  /** A child: the left one or the right one. */
  datatype Side = L | R

  function Opposite(d: Side): Side { if d == L then R else L }

  function Near(t: Tree, d: Side): Tree
    requires t.Node?
  {
    if d == L then t.left else t.right
  }

  /** A node with `near` on side `d` and `far` on the other. */
  function Link(d: Side, near: Tree, x: Item, far: Tree): Tree {
    if d == L then Node(near, x, far) else Node(far, x, near)
  }

  function InOrder(t: Tree): seq<Entity> {
    if t.Leaf? then [] else InOrder(t.left) + [t.x.e] + InOrder(t.right)
  }

  // ----- Times -----------------------------------------------------------------------

  /** A time as it is kept, in 64 bits. */
  function Kept(t: int): int { t % 0x1_0000_0000_0000_0000 }

  /** The comparison of kept times: the sign of their 64-bit difference. */
  predicate Later(a: int, b: int) {
    0 < (a - b) % 0x1_0000_0000_0000_0000 < 0x8000_0000_0000_0000
  }

  /** Between times less than half the range apart it is the comparison of the times. */
  lemma LaterIsGreater(x: int, y: int)
    requires -0x8000_0000_0000_0000 < x - y < 0x8000_0000_0000_0000
    ensures Later(Kept(x), Kept(y)) <==> x > y
  {
    var d := Kept(x) - Kept(y);
    var k := x / 0x1_0000_0000_0000_0000 - y / 0x1_0000_0000_0000_0000;
    assert d == x - y - 0x1_0000_0000_0000_0000 * k;
    assert d % 0x1_0000_0000_0000_0000 == (x - y) % 0x1_0000_0000_0000_0000;
  }

  // ----- Least start times -----------------------------------------------------------

  function Min(a: int, b: int): int { if a < b then a else b }

  function MinStart(t: Tree): int
    requires t.Node?
  {
    var m := t.x.e.start;
    var r := if t.right.Node? then Min(m, MinStart(t.right)) else m;
    if t.left.Node? then Min(r, MinStart(t.left)) else r
  }

  /** Every node records the least start time below it. */
  ghost predicate Exact(t: Tree) {
    t.Node? ==> t.x.min == MinStart(t) && Exact(t.left) && Exact(t.right)
  }

  /** Right below the root, which may itself be wrong. */
  ghost predicate Shallow(t: Tree) {
    t.Node? ==> Exact(t.left) && Exact(t.right)
  }

  /** The minimum of a node computed anew from its children. */
  function Refresh(t: Tree): Tree {
    if t.Leaf? then t
    else
      var m := t.x.e.start;
      var r := if t.right.Node? && m > t.right.x.min then t.right.x.min else m;
      var l := if t.left.Node? && r > t.left.x.min then t.left.x.min else r;
      t.(x := t.x.(min := l))
  }

  lemma RefreshExact(t: Tree)
    requires Shallow(t)
    ensures Exact(Refresh(t)) && InOrder(Refresh(t)) == InOrder(t)
  {
  }

  /** The least start is a lower bound that some entity meets. */
  lemma {:induction false} MinStartIsLeast(t: Tree)
    requires t.Node?
    ensures forall e :: e in InOrder(t) ==> MinStart(t) <= e.start
    ensures exists e :: e in InOrder(t) && e.start == MinStart(t)
  {
    var m := MinStart(t);
    if t.left.Node? {
      MinStartIsLeast(t.left);
    }
    if t.right.Node? {
      MinStartIsLeast(t.right);
    }
    if t.left.Node? && MinStart(t.left) == m {
      var e :| e in InOrder(t.left) && e.start == m;
      assert e in InOrder(t);
    } else if t.right.Node? && MinStart(t.right) == m {
      var e :| e in InOrder(t.right) && e.start == m;
      assert e in InOrder(t);
    } else {
      assert t.x.e in InOrder(t);
    }
  }

  // ----- Damage along a path ---------------------------------------------------------

  /** A path down from the root. */
  type Path = seq<Side>

  /** Only nodes on the path and their siblings may record a wrong minimum. */
  ghost predicate Damaged(t: Tree, p: Path)
    decreases |p|
  {
    t.Node? &&
    if p == [] then Exact(t.left) && Exact(t.right)
    else Damaged(Near(t, p[0]), p[1..]) && Shallow(Near(t, Opposite(p[0])))
  }

  predicate Reaches(t: Tree, p: Path)
    decreases |p|
  {
    t.Node? && (p != [] ==> Reaches(Near(t, p[0]), p[1..]))
  }

  function Replace(t: Tree, d: Side, near: Tree): Tree
    requires t.Node?
  {
    if d == L then t.(left := near) else t.(right := near)
  }

  /** The tree with the node at the end of a path refreshed. */
  function RefreshAt(t: Tree, p: Path): Tree
    requires Reaches(t, p)
    decreases |p|
  {
    if p == [] then Refresh(t) else Replace(t, p[0], RefreshAt(Near(t, p[0]), p[1..]))
  }

  /** The tree with the sibling of the node at the end of a path refreshed. */
  function RefreshSibling(t: Tree, p: Path): Tree
    requires Reaches(t, p) && p != []
    decreases |p|
  {
    if |p| == 1 then Replace(t, Opposite(p[0]), Refresh(Near(t, Opposite(p[0]))))
    else Replace(t, p[0], RefreshSibling(Near(t, p[0]), p[1..]))
  }

  /** A tree without its recorded minima. */
  function Bare(t: Tree): Tree {
    if t.Leaf? then t else Node(Bare(t.left), t.x.(min := 0), Bare(t.right))
  }

  lemma {:induction false} DamagedReaches(t: Tree, p: Path)
    requires Damaged(t, p)
    ensures Reaches(t, p)
    decreases |p|
  {
    if p != [] {
      DamagedReaches(Near(t, p[0]), p[1..]);
    }
  }

  lemma {:induction false} RefreshAtKeeps(t: Tree, p: Path)
    requires Reaches(t, p)
    ensures Reaches(RefreshAt(t, p), p) && InOrder(RefreshAt(t, p)) == InOrder(t) && Bare(RefreshAt(t, p)) == Bare(t)
    decreases |p|
  {
    hide MinStart;
    if p != [] {
      RefreshAtKeeps(Near(t, p[0]), p[1..]);
    }
  }

  lemma {:induction false} RefreshSiblingKeeps(t: Tree, p: Path)
    requires Reaches(t, p) && p != []
    ensures InOrder(RefreshSibling(t, p)) == InOrder(t) && Bare(RefreshSibling(t, p)) == Bare(t)
    decreases |p|
  {
    hide MinStart;
    if |p| > 1 {
      RefreshSiblingKeeps(Near(t, p[0]), p[1..]);
    } else {
      RefreshOrder(Near(t, Opposite(p[0])));
    }
  }

  lemma RefreshOrder(t: Tree)
    ensures InOrder(Refresh(t)) == InOrder(t) && Bare(Refresh(t)) == Bare(t)
  {
  }

  /** One step up: with the node and its sibling refreshed, the damage ends a level higher. */
  lemma {:induction false} StepUp(t: Tree, p: Path)
    requires Damaged(t, p) && p != []
    ensures Reaches(t, p) && Reaches(RefreshAt(t, p), p)
    ensures Damaged(RefreshSibling(RefreshAt(t, p), p), p[..|p| - 1])
    decreases |p|
  {
    hide MinStart, Refresh, InOrder;
    DamagedReaches(t, p);
    RefreshAtKeeps(t, p);
    var near, far := Near(t, p[0]), Near(t, Opposite(p[0]));
    if |p| == 1 {
      RefreshExact(near);
      RefreshExact(far);
    } else {
      StepUp(near, p[1..]);
      assert p[1..][..|p| - 2] == p[..|p| - 1][1..];
    }
  }

  /** The repair: from the deepest node up to the root, node and sibling, recomputing. */
  method UpdateActiveTree(t: Tree, p: Path) returns (r: Tree)
    requires Damaged(t, p)
    ensures Exact(r) && InOrder(r) == InOrder(t) && Bare(r) == Bare(t)
  {
    hide MinStart, InOrder, Damaged, Refresh, RefreshAt, RefreshSibling, Exact, Bare;
    r := t;
    var q := p;
    while q != []
      invariant Damaged(r, q) && InOrder(r) == InOrder(t) && Bare(r) == Bare(t)
      decreases |q|
    {
      DamagedReaches(r, q);
      RefreshAtKeeps(r, q);
      StepUp(r, q);
      RefreshSiblingKeeps(RefreshAt(r, q), q);
      r := RefreshAt(r, q);
      r := RefreshSibling(r, q);
      q := q[..|q| - 1];
    }
    RootDamage(r);
    RefreshExact(r);
    RefreshOrder(r);
    r := Refresh(r);
  }

  lemma RootDamage(t: Tree)
    requires Damaged(t, [])
    ensures Shallow(t)
  {
  }

  // ----- The walk --------------------------------------------------------------------

  /** Entities in the order of their finish times. */
  ghost predicate Ordered(s: seq<Entity>) {
    forall i, j :: 0 <= i < j < |s| ==> s[i].finish <= s[j].finish
  }

  ghost predicate NoneEligible(s: seq<Entity>, vtime: int) {
    forall e :: e in s ==> e.start > vtime
  }

  /** What the walk returns, and the entity of the node where it stops. */
  datatype Walked = Walked(first: Option<Entity>, stop: Entity)

  /** The search from a node: left while there is something eligible there, right only
      while nothing eligible has been met. */
  function Walk(t: Tree, vtime: int, first: Option<Entity>): Walked
    requires t.Node?
  {
    var f := if t.x.e.start <= vtime then Some(t.x.e) else first;
    if t.left.Node? && t.left.x.min <= vtime then Walk(t.left, vtime, f)
    else if f.Some? || t.right.Leaf? then Walked(f, t.x.e)
    else Walk(t.right, vtime, f)
  }

  /** The nodes the walk visits, in order. */
  function Visited(t: Tree, vtime: int, first: Option<Entity>): seq<Tree>
    requires t.Node?
  {
    var f := if t.x.e.start <= vtime then Some(t.x.e) else first;
    if t.left.Node? && t.left.x.min <= vtime then [t] + Visited(t.left, vtime, f)
    else if f.Some? || t.right.Leaf? then [t]
    else [t] + Visited(t.right, vtime, f)
  }

  /** Nothing to be served at a node or on its left: then there is on its right. */
  lemma OnTheRight(t: Tree, vtime: int)
    requires t.Node? && Exact(t) && t.x.min <= vtime < t.x.e.start
    requires t.left.Node? ==> t.left.x.min > vtime
    ensures t.right.Node? && Exact(t.right) && t.right.x.min <= vtime
  {
  }

  /** At every node the walk visits, and where it stops, there is something to be served: the
      assertion made at each of them cannot fail. */
  lemma {:induction false} VisitedWithin(t: Tree, vtime: int, first: Option<Entity>)
    requires t.Node? && Exact(t) && t.x.min <= vtime
    ensures forall n :: n in Visited(t, vtime, first) ==> n.Node? && n.x.min <= vtime
    ensures var v := Visited(t, vtime, first); v != [] && v[|v| - 1].Node? && v[|v| - 1].x.e == Walk(t, vtime, first).stop
  {
    hide MinStart;
    var f := if t.x.e.start <= vtime then Some(t.x.e) else first;
    if t.left.Node? && t.left.x.min <= vtime {
      VisitedWithin(t.left, vtime, f);
    } else if f.None? && t.right.Node? {
      OnTheRight(t, vtime);
      VisitedWithin(t.right, vtime, f);
    }
  }

  /** The walk as the loop that does it, with the assertions made at every node and at the
      end. */
  method FirstActiveEntity(t: Tree, vtime: int) returns (first: Option<Entity>)
    requires t.Node? ==> Exact(t) && t.x.min <= vtime
    ensures t.Leaf? ==> first.None?
    ensures t.Node? ==> first == Walk(t, vtime, None).first && first.Some? && first.value.start <= vtime
  {
    hide MinStart;
    first := None;
    var node := t;
    while node.Node?
      invariant t.Leaf? ==> node.Leaf? && first.None?
      invariant t.Node? ==> node.Node? && Walk(t, vtime, None) == Walk(node, vtime, first)
      invariant node.Node? ==> Exact(node) && node.x.min <= vtime
      invariant first.Some? ==> first.value.start <= vtime
      decreases node
    {
      if node.x.e.start <= vtime {
        first := Some(node.x.e);
      }
      assert node.x.min <= vtime;
      if node.left.Node? && node.left.x.min <= vtime {
        node := node.left;
      } else {
        if first.Some? {
          return;
        }
        OnTheRight(node, vtime);
        node := node.right;
      }
    }
    assert first.Some? || t.Leaf?;
  }

  lemma NothingBelow(t: Tree, vtime: int)
    requires t.Node? ==> MinStart(t) > vtime
    ensures NoneEligible(InOrder(t), vtime)
  {
    if t.Node? {
      MinStartIsLeast(t);
    }
  }

  /** An entity that can be served, from the tree or met before it. */
  ghost predicate Eligible(f: Option<Entity>, vtime: int) { f.Some? && f.value.start <= vtime }

  /** Where the walk stops in a list of entities: nothing eligible before, and something
      eligible after if it is not itself. */
  ghost predicate StopsAt(s: seq<Entity>, i: nat, stop: Entity, vtime: int) {
    && i < |s| && s[i] == stop && NoneEligible(s[..i], vtime)
    && (stop.start > vtime ==> exists j :: i < j < |s| && s[j].start <= vtime)
  }

  /** Whatever the walk met before, it ends with something eligible, and stops at the first
      node that no eligible one precedes and that has one in its right subtree at the latest. */
  lemma {:induction false} WalkFinds(t: Tree, vtime: int, first: Option<Entity>) returns (i: nat)
    requires t.Node? && Exact(t) && t.x.min <= vtime && (first.Some? ==> Eligible(first, vtime))
    ensures var w := Walk(t, vtime, first);
            Eligible(w.first, vtime) && StopsAt(InOrder(t), i, w.stop, vtime)
            && (w.stop.start <= vtime ==> w.first == Some(w.stop))
  {
    hide StopsAt, NoneEligible, InOrder;
    var f := if t.x.e.start <= vtime then Some(t.x.e) else first;
    var a, b := InOrder(t.left), InOrder(t.right);
    PlainOrder(t);
    if t.left.Node? && t.left.x.min <= vtime {
      i := WalkFinds(t.left, vtime, f);
      StopsEarlier(a, [t.x.e] + b, i, Walk(t.left, vtime, f).stop, vtime);
      assert a + ([t.x.e] + b) == a + [t.x.e] + b;
    } else {
      NothingBelow(t.left, vtime);
      SomethingHere(t, vtime);
      if f.Some? || t.right.Leaf? {
        i := |a|;
        StopsHere(a, t.x.e, b, vtime);
      } else {
        var k := WalkFinds(t.right, vtime, f);
        i := |a| + 1 + k;
        StopsLater(a, t.x.e, b, k, Walk(t.right, vtime, f).stop, vtime);
      }
    }
  }

  lemma PlainOrder(t: Tree)
    requires t.Node?
    ensures InOrder(t) == InOrder(t.left) + [t.x.e] + InOrder(t.right)
  {
  }

  /** Nothing eligible on the left: then it is the node, or something on the right. */
  lemma SomethingHere(t: Tree, vtime: int)
    requires t.Node? && Exact(t) && t.x.min <= vtime && NoneEligible(InOrder(t.left), vtime)
    ensures t.x.e.start > vtime ==>
            t.right.Node? && t.right.x.min <= vtime && exists e :: e in InOrder(t.right) && e.start <= vtime
  {
    MinStartIsLeast(t);
    if t.right.Node? {
      MinStartIsLeast(t.right);
    }
  }

  lemma StopsEarlier(a: seq<Entity>, b: seq<Entity>, i: nat, stop: Entity, vtime: int)
    requires StopsAt(a, i, stop, vtime)
    ensures StopsAt(a + b, i, stop, vtime)
  {
    var s := a + b;
    assert s[..i] == a[..i];
    if stop.start > vtime {
      var j :| i < j < |a| && a[j].start <= vtime;
      assert s[j].start <= vtime;
    }
  }

  lemma StopsHere(a: seq<Entity>, e: Entity, b: seq<Entity>, vtime: int)
    requires NoneEligible(a, vtime)
    requires e.start > vtime ==> exists x :: x in b && x.start <= vtime
    ensures StopsAt(a + [e] + b, |a|, e, vtime)
  {
    var s := a + [e] + b;
    assert s[..|a|] == a;
    if e.start > vtime {
      var x :| x in b && x.start <= vtime;
      var j :| 0 <= j < |b| && b[j] == x;
      assert s[|a| + 1 + j] == x;
    }
  }

  lemma StopsLater(a: seq<Entity>, e: Entity, b: seq<Entity>, k: nat, stop: Entity, vtime: int)
    requires NoneEligible(a, vtime) && e.start > vtime && StopsAt(b, k, stop, vtime)
    ensures StopsAt(a + [e] + b, |a| + 1 + k, stop, vtime)
  {
    var s := a + [e] + b;
    assert s[..|a| + 1 + k] == a + [e] + b[..k];
    if stop.start > vtime {
      var j :| k < j < |b| && b[j].start <= vtime;
      assert s[|a| + 1 + j].start <= vtime;
    }
  }

  // ----- When the walk is the search it is meant to be -------------------------------

  /** An eligible entity stands before the one found. */
  ghost predicate Skips(s: seq<Entity>, found: Option<Entity>, vtime: int) {
    exists j, m :: 0 <= j < m < |s| && s[j].start <= vtime && Some(s[m]) == found
  }

  lemma SkipsWider(a: seq<Entity>, s: seq<Entity>, b: seq<Entity>, found: Option<Entity>, vtime: int)
    requires Skips(s, found, vtime)
    ensures Skips(a + s + b, found, vtime)
  {
    var j, m :| 0 <= j < m < |s| && s[j].start <= vtime && Some(s[m]) == found;
    var w := a + s + b;
    assert w[|a| + j] == s[j] && w[|a| + m] == s[m];
  }

  lemma SkipsLeft(a: seq<Entity>, e: Entity, b: seq<Entity>, vtime: int)
    requires exists x :: x in a && x.start <= vtime
    ensures Skips(a + [e] + b, Some(e), vtime)
  {
    var x :| x in a && x.start <= vtime;
    var j :| 0 <= j < |a| && a[j] == x;
    var s := a + [e] + b;
    assert s[j] == x && s[|a|] == e;
  }

  lemma SomethingBelow(t: Tree, vtime: int)
    requires t.Node? && Exact(t) && t.x.min <= vtime
    ensures exists e :: e in InOrder(t) && e.start <= vtime
  {
    MinStartIsLeast(t);
  }

  /** A walk that stops at an entity that is not eligible has passed one that is. */
  lemma {:induction false} StoppedShort(t: Tree, vtime: int, first: Option<Entity>)
    requires t.Node? && Exact(t) && t.x.min <= vtime && Walk(t, vtime, first).stop.start > vtime
    ensures Walk(t, vtime, first).first == first || Skips(InOrder(t), Walk(t, vtime, first).first, vtime)
  {
    hide Skips, NoneEligible;
    var f := if t.x.e.start <= vtime then Some(t.x.e) else first;
    var w := Walk(t, vtime, first);
    if t.left.Node? && t.left.x.min <= vtime {
      StoppedShort(t.left, vtime, f);
      SomethingBelow(t.left, vtime);
      SkipsLeft(InOrder(t.left), t.x.e, InOrder(t.right), vtime);
      if w.first != f {
        SkipsWider([], InOrder(t.left), [t.x.e] + InOrder(t.right), w.first, vtime);
        assert [] + InOrder(t.left) + ([t.x.e] + InOrder(t.right)) == InOrder(t);
      }
    } else if !(f.Some? || t.right.Leaf?) {
      NothingBelow(t.left, vtime);
      SomethingHere(t, vtime);
      StoppedShort(t.right, vtime, f);
      if w.first != f {
        SkipsWider(InOrder(t.left) + [t.x.e], InOrder(t.right), [], w.first, vtime);
        assert InOrder(t.left) + [t.x.e] + InOrder(t.right) + [] == InOrder(t);
      }
    }
  }

  /** The first eligible entity of a list. */
  ghost predicate IsFirst(s: seq<Entity>, e: Option<Entity>, vtime: int) {
    exists i :: 0 <= i < |s| && Some(s[i]) == e && s[i].start <= vtime && NoneEligible(s[..i], vtime)
  }

  ghost predicate Distinct(s: seq<Entity>) {
    forall i, j :: 0 <= i < j < |s| ==> s[i] != s[j]
  }

  /** The walk returns the first eligible entity exactly when it stops at an eligible one. */
  lemma WalkIsFirstIff(t: Tree, vtime: int)
    requires t.Node? && Exact(t) && t.x.min <= vtime && Distinct(InOrder(t))
    ensures var w := Walk(t, vtime, None);
            Eligible(w.first, vtime) && (IsFirst(InOrder(t), w.first, vtime) <==> w.stop.start <= vtime)
  {
    hide Walk, Exact, InOrder;
    var s, w := InOrder(t), Walk(t, vtime, None);
    var i := WalkFinds(t, vtime, None);
    if w.stop.start <= vtime {
      assert IsFirst(s, w.first, vtime);
    } else {
      StoppedShort(t, vtime, None);
      SkippedIsNotFirst(s, w.first, vtime);
    }
  }

  lemma SkippedIsNotFirst(s: seq<Entity>, e: Option<Entity>, vtime: int)
    requires Skips(s, e, vtime) && Distinct(s)
    ensures !IsFirst(s, e, vtime)
  {
    var j, m :| 0 <= j < m < |s| && s[j].start <= vtime && Some(s[m]) == e;
    forall i | 0 <= i < |s| && Some(s[i]) == e ensures !NoneEligible(s[..i], vtime) {
      assert i == m;
      assert s[..i][j] == s[j];
    }
  }

  /** On a tree in order, stopping at an eligible entity returns one with the least finish
      time of all that are eligible. */
  lemma WalkIsLeast(t: Tree, vtime: int)
    requires t.Node? && Exact(t) && t.x.min <= vtime && Ordered(InOrder(t))
    requires Walk(t, vtime, None).stop.start <= vtime
    ensures var w := Walk(t, vtime, None);
            w.first == Some(w.stop) && forall e :: e in InOrder(t) && e.start <= vtime ==> w.stop.finish <= e.finish
  {
    hide Walk, Exact, InOrder;
    var s, w := InOrder(t), Walk(t, vtime, None);
    var i := WalkFinds(t, vtime, None);
    forall j | 0 <= j < i ensures s[j].start > vtime {
      assert s[..i][j] == s[j];
    }
    forall e | e in s && e.start <= vtime ensures w.stop.finish <= e.finish {
      var j :| 0 <= j < |s| && s[j] == e;
    }
  }

  /** The virtual time moved on, if need be, to where something is eligible. */
  function UpdateVtime(t: Tree, vtime: int): (v: int)
    requires t.Node?
    ensures v >= vtime && v >= t.x.min && (v == vtime || v == t.x.min)
  {
    if t.x.min > vtime then t.x.min else vtime
  }

  /** After the virtual time has been moved on, there is something to be served at every node
      the walk visits, and it finds an eligible entity of the tree: none of the three assertions
      on the way can fail. */
  lemma LookupFinds(t: Tree, vtime: int)
    requires t.Node? && Exact(t)
    ensures var v := UpdateVtime(t, vtime);
      && (forall n :: n in Visited(t, v, None) ==> n.Node? && n.x.min <= v)
      && Eligible(Walk(t, v, None).first, v)
  {
    VisitedWithin(t, UpdateVtime(t, vtime), None);
    var i := WalkFinds(t, UpdateVtime(t, vtime), None);
  }

  /** Past an eligible root the walk does not look right of an entity that is not: here it
      returns finish time 3 with 2 to be had. */
  lemma WalkMisses()
    ensures var early, mid, late := Entity(1, 10, 1), Entity(2, 0, 2), Entity(3, 0, 3);
            var t := Node(Node(Leaf, Item(early, 0, false), Node(Leaf, Item(mid, 0, true), Leaf)), Item(late, 0, false), Leaf);
            && Exact(t) && Ordered(InOrder(t)) && Walk(t, 0, None).first == Some(late)
            && mid in InOrder(t) && mid.start <= 0 && mid.finish < late.finish
  {
    var early, mid, late := Entity(1, 10, 1), Entity(2, 0, 2), Entity(3, 0, 3);
    var m := Node(Leaf, Item(mid, 0, true), Leaf);
    var l := Node(Leaf, Item(early, 0, false), m);
    var t := Node(l, Item(late, 0, false), Leaf);
    assert InOrder(m) == [mid];
    assert InOrder(l) == [early, mid];
    assert InOrder(t) == [early, mid, late];
    assert mid == InOrder(t)[1];
    assert MinStart(m) == 0 && MinStart(l) == 0 && MinStart(t) == 0;
  }
}
