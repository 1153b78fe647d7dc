/** CFQ's choice of the next request: only the two neighbours of the last request in sector
    order are compared. The choice is the best one of all when the requests carry the same
    flags; with mixed flags, exactly when the best of the highest-ranked requests is one of
    the two. */
module CfqNext {
  import opened Requests

  datatype Rq = Rq(pos: nat, sync: bool, meta: bool)

  /** How far back the head may seek, in KiB, and how much more that costs. */
  datatype Tunables = Tunables(backMax: nat, backPenalty: nat)

  predicate Wraps(t: Tunables, s: nat, last: nat) { s < last && s + t.backMax * 2 < last }

  function Distance(t: Tunables, s: nat, last: nat): nat {
    if s >= last then s - last
    else if s + t.backMax * 2 >= last then (last - s) * t.backPenalty
    else 0
  }

  /** Which of two requests is served next. */
  function ChooseReq(t: Tunables, rq1: Option<Rq>, rq2: Option<Rq>, last: nat): Option<Rq> {
    if rq1.None? || rq1 == rq2 then rq2
    else if rq2.None? then rq1
    else
      var a, b := rq1.value, rq2.value;
      if a.sync != b.sync then (if a.sync then rq1 else rq2)
      else if a.meta != b.meta then (if a.meta then rq1 else rq2)
      else if !Wraps(t, a.pos, last) && !Wraps(t, b.pos, last) then
        var d1, d2 := Distance(t, a.pos, last), Distance(t, b.pos, last);
        if d1 < d2 then rq1 else if d2 < d1 then rq2 else if a.pos >= b.pos then rq1 else rq2
      else if !Wraps(t, a.pos, last) then rq1
      else if !Wraps(t, b.pos, last) then rq2
      else if a.pos <= b.pos then rq1 else rq2
  }

  /** The requests of a queue by sector, no two at the same one. */
  ghost predicate Sorted(tree: seq<Rq>) {
    forall i, j :: 0 <= i < j < |tree| ==> tree[i].pos < tree[j].pos
  }

  ghost predicate Uniform(tree: seq<Rq>) {
    forall i, j :: 0 <= i < |tree| && 0 <= j < |tree| ==>
      tree[i].sync == tree[j].sync && tree[i].meta == tree[j].meta
  }

  /** The next request after `tree[i]`, from its neighbours or, past the end, the first. */
  function FindNextRq(t: Tunables, tree: seq<Rq>, i: nat): Option<Rq>
    requires i < |tree|
  {
    var prev := if i > 0 then Some(tree[i - 1]) else None;
    var next := if i + 1 < |tree| then Some(tree[i + 1]) else if i != 0 then Some(tree[0]) else None;
    ChooseReq(t, next, prev, tree[i].pos)
  }

  /** Request `r` is preferred to `other`, whichever is named first. */
  predicate Preferred(t: Tunables, r: Rq, other: Rq, last: nat) {
    ChooseReq(t, Some(r), Some(other), last) == Some(r) && ChooseReq(t, Some(other), Some(r), last) == Some(r)
  }

  /** `r` is the best request of `tree` but for `tree[i]` itself. */
  ghost predicate Best(t: Tunables, tree: seq<Rq>, i: nat, r: Rq)
    requires i < |tree|
  {
    && (exists k :: 0 <= k < |tree| && k != i && tree[k] == r)
    && forall j :: 0 <= j < |tree| && j != i ==> Preferred(t, r, tree[j], tree[i].pos)
  }

  lemma MulMonotone(x: nat, y: nat, k: nat)
    requires x <= y
    ensures x * k <= y * k
  {
  }

  /** Among requests behind the head that need no wrap the nearest is best, and it beats
      all that do need one; among the latter the lowest sector is best. */
  lemma BehindOrder(t: Tunables, near: Rq, far: Rq, last: nat)
    requires far.pos <= near.pos < last && near.sync == far.sync && near.meta == far.meta
    requires far.pos == near.pos ==> near == far
    ensures !Wraps(t, near.pos, last) ==> Preferred(t, near, far, last)
    ensures Wraps(t, near.pos, last) ==> Wraps(t, far.pos, last) && Preferred(t, far, near, last)
  {
    MulMonotone(last - near.pos, last - far.pos, t.backPenalty);
  }

  /** The preference between requests with the same flags is transitive. */
  lemma PreferenceTransitive(t: Tunables, a: Rq, b: Rq, c: Rq, last: nat)
    requires a.sync == b.sync == c.sync && a.meta == b.meta == c.meta
    requires Preferred(t, a, b, last) && Preferred(t, b, c, last)
    ensures Preferred(t, a, c, last)
  {
  }

  /** The request preferred to all others, when there is one. */
  lemma BestIsUnique(t: Tunables, tree: seq<Rq>, i: nat, r: Rq, r': Rq)
    requires i < |tree| && Best(t, tree, i, r) && Best(t, tree, i, r')
    ensures r == r'
  {
    var k :| 0 <= k < |tree| && k != i && tree[k] == r';
    assert Preferred(t, r, tree[k], tree[i].pos);
  }

  /** Looking at the neighbours is enough: with the same flags on all requests of the queue,
      the result is the best of the whole tree, and there is none only when the tree holds
      nothing else. */
  lemma NeighboursSuffice(t: Tunables, tree: seq<Rq>, i: nat)
    requires i < |tree| && Sorted(tree) && Uniform(tree)
    ensures FindNextRq(t, tree, i).None? <==> |tree| == 1
    ensures 1 < |tree| ==> Best(t, tree, i, FindNextRq(t, tree, i).value)
  {
    if 1 < |tree| {
      var last := tree[i].pos;
      var r := FindNextRq(t, tree, i).value;
      forall j | 0 <= j < |tree| && j != i
        ensures Preferred(t, r, tree[j], last)
      {
        if j > i {
          AheadOfHead(t, tree, i, j);
        } else {
          BehindOrder(t, tree[i - 1], tree[j], last);
          BehindOrder(t, tree[j], tree[0], last);
          BehindOrder(t, tree[i - 1], tree[0], last);
        }
      }
    }
  }

  lemma AheadOfHead(t: Tunables, tree: seq<Rq>, i: nat, j: nat)
    requires i < j < |tree| && Sorted(tree) && Uniform(tree)
    ensures Preferred(t, FindNextRq(t, tree, i).value, tree[j], tree[i].pos)
  {
  }

  // With mixed flags the neighbours may not be enough. What decides is where the best of the
  // highest-ranked requests lies.

  /** `a` is served before `b` wherever the two lie. */
  predicate Outranks(a: Rq, b: Rq) {
    (a.sync && !b.sync) || (a.sync == b.sync && a.meta && !b.meta)
  }

  /** The highest flags of the requests other than `tree[i]`. */
  predicate TopSync(tree: seq<Rq>, i: nat) {
    exists k :: 0 <= k < |tree| && k != i && tree[k].sync
  }

  predicate TopMeta(tree: seq<Rq>, i: nat) {
    exists k :: 0 <= k < |tree| && k != i && tree[k].sync == TopSync(tree, i) && tree[k].meta
  }

  /** The requests with the given flags among the first `n`, and `tree[i]` as if it had them. */
  function Flagged(tree: seq<Rq>, i: nat, sync: bool, meta: bool, n: nat): seq<Rq>
    requires n <= |tree|
  {
    if n == 0 then [] else
      var r := tree[n - 1];
      Flagged(tree, i, sync, meta, n - 1) +
      if n - 1 == i || (r.sync == sync && r.meta == meta) then [Rq(r.pos, sync, meta)] else []
  }

  /** The highest-ranked requests alone, with `tree[i]` among them at `TopPlace`. */
  function TopOf(tree: seq<Rq>, i: nat): seq<Rq> {
    Flagged(tree, i, TopSync(tree, i), TopMeta(tree, i), |tree|)
  }

  function TopPlace(tree: seq<Rq>, i: nat): nat
    requires i < |tree|
  {
    |Flagged(tree, i, TopSync(tree, i), TopMeta(tree, i), i)|
  }

  /** Request `r` comes from `tree[k]`. */
  ghost predicate From(tree: seq<Rq>, i: nat, k: nat, r: Rq) {
    k < |tree| && tree[k].pos == r.pos && (k != i ==> tree[k] == r)
  }

  lemma {:induction false} FlaggedIs(tree: seq<Rq>, i: nat, sync: bool, meta: bool, n: nat, r: Rq)
    requires n <= |tree|
    ensures r in Flagged(tree, i, sync, meta, n) <==>
            r.sync == sync && r.meta == meta && exists k :: 0 <= k < n && From(tree, i, k, r)
  {
    if n > 0 {
      FlaggedIs(tree, i, sync, meta, n - 1, r);
      assert From(tree, i, n - 1, r) || !From(tree, i, n - 1, r);
    }
  }

  lemma {:induction false} FlaggedSorted(tree: seq<Rq>, i: nat, sync: bool, meta: bool, n: nat)
    requires n <= |tree| && Sorted(tree)
    ensures Sorted(Flagged(tree, i, sync, meta, n)) && Uniform(Flagged(tree, i, sync, meta, n))
  {
    if n > 0 {
      FlaggedSorted(tree, i, sync, meta, n - 1);
      var before := Flagged(tree, i, sync, meta, n - 1);
      forall p | 0 <= p < |before|
        ensures before[p].pos < tree[n - 1].pos && before[p].sync == sync && before[p].meta == meta
      {
        FlaggedIs(tree, i, sync, meta, n - 1, before[p]);
      }
    }
  }

  lemma {:induction false} FlaggedPlace(tree: seq<Rq>, i: nat, sync: bool, meta: bool, n: nat)
    requires i < n <= |tree|
    ensures |Flagged(tree, i, sync, meta, i)| < |Flagged(tree, i, sync, meta, n)|
    ensures Flagged(tree, i, sync, meta, n)[|Flagged(tree, i, sync, meta, i)|] == Rq(tree[i].pos, sync, meta)
  {
    if n - 1 > i {
      FlaggedPlace(tree, i, sync, meta, n - 1);
    }
  }

  /** The highest-ranked requests meet what `NeighboursSuffice` asks for; they are those of
      the others that none of the others outranks, and there is one. */
  lemma TopFacts(tree: seq<Rq>, i: nat)
    requires i < |tree| && Sorted(tree) && 1 < |tree|
    ensures Sorted(TopOf(tree, i)) && Uniform(TopOf(tree, i)) && 1 < |TopOf(tree, i)|
    ensures TopPlace(tree, i) < |TopOf(tree, i)| && TopOf(tree, i)[TopPlace(tree, i)].pos == tree[i].pos
    ensures forall k :: 0 <= k < |tree| && k != i ==>
      (tree[k] in TopOf(tree, i) <==> forall m :: 0 <= m < |tree| && m != i ==> !Outranks(tree[m], tree[k]))
    ensures forall p :: 0 <= p < |TopOf(tree, i)| && p != TopPlace(tree, i) ==>
      exists k :: 0 <= k < |tree| && k != i && tree[k] == TopOf(tree, i)[p]
  {
    var sync, meta, top := TopSync(tree, i), TopMeta(tree, i), TopOf(tree, i);
    FlaggedSorted(tree, i, sync, meta, |tree|);
    FlaggedPlace(tree, i, sync, meta, |tree|);
    forall k | 0 <= k < |tree| && k != i
      ensures tree[k] in top <==> tree[k].sync == sync && tree[k].meta == meta
      ensures tree[k] in top <==> forall m :: 0 <= m < |tree| && m != i ==> !Outranks(tree[m], tree[k])
    {
      FlaggedIs(tree, i, sync, meta, |tree|, tree[k]);
      assert From(tree, i, k, tree[k]);
    }
    var w := TopWitness(tree, i);
    assert tree[w] in top;
    forall p | 0 <= p < |top| && p != TopPlace(tree, i)
      ensures exists k :: 0 <= k < |tree| && k != i && tree[k] == top[p]
    {
      FlaggedIs(tree, i, sync, meta, |tree|, top[p]);
    }
  }

  /** A request that has the highest flags. */
  lemma TopWitness(tree: seq<Rq>, i: nat) returns (k: nat)
    requires i < |tree| && 1 < |tree|
    ensures k < |tree| && k != i && tree[k].sync == TopSync(tree, i) && tree[k].meta == TopMeta(tree, i)
  {
    var other := if i == 0 then 1 else 0;
    if TopMeta(tree, i) {
      k :| 0 <= k < |tree| && k != i && tree[k].sync == TopSync(tree, i) && tree[k].meta;
    } else if TopSync(tree, i) {
      k :| 0 <= k < |tree| && k != i && tree[k].sync;
    } else {
      k := other;
    }
  }

  /** Searched alone, the highest-ranked requests yield the best request of the whole tree. */
  lemma TopIsBest(t: Tunables, tree: seq<Rq>, i: nat)
    requires i < |tree| && Sorted(tree) && 1 < |tree|
    ensures TopPlace(tree, i) < |TopOf(tree, i)|
    ensures var r := FindNextRq(t, TopOf(tree, i), TopPlace(tree, i));
      r.Some? && Best(t, tree, i, r.value)
  {
    TopFacts(tree, i);
    var top, j := TopOf(tree, i), TopPlace(tree, i);
    NeighboursSuffice(t, top, j);
    var r := FindNextRq(t, top, j).value;
    var p :| 0 <= p < |top| && p != j && top[p] == r;
    forall k | 0 <= k < |tree| && k != i
      ensures Preferred(t, r, tree[k], tree[i].pos)
    {
      if tree[k] in top {
        var q :| 0 <= q < |top| && top[q] == tree[k];
        assert q != j;
      } else {
        var m :| 0 <= m < |tree| && m != i && Outranks(tree[m], tree[k]);
        RankDecides(t, tree, i, r, k, m);
      }
    }
  }

  /** A request that nothing outranks is preferred to one that something does. */
  lemma RankDecides(t: Tunables, tree: seq<Rq>, i: nat, r: Rq, k: nat, m: nat)
    requires k < |tree| && m < |tree| && m != i && i < |tree|
    requires Outranks(tree[m], tree[k]) && !Outranks(tree[m], r)
    ensures Preferred(t, r, tree[k], tree[i].pos)
  {
  }

  /** One of the two requests that the search looks at. */
  predicate Neighbour(tree: seq<Rq>, i: nat, r: Rq)
    requires i < |tree|
  {
    || (i > 0 && tree[i - 1] == r)
    || (i + 1 < |tree| && tree[i + 1] == r)
    || (i + 1 == |tree| && i > 0 && tree[0] == r)
  }

  /** With any flags: the search finds the best request exactly when the one it would pick
      among the highest-ranked requests alone is a neighbour, or the first request when the
      last served one is at the end; and it then finds that one. */
  lemma NeighboursSufficeIff(t: Tunables, tree: seq<Rq>, i: nat)
    requires i < |tree| && Sorted(tree) && 1 < |tree|
    ensures FindNextRq(t, tree, i).Some? && TopPlace(tree, i) < |TopOf(tree, i)|
    ensures var found, top := FindNextRq(t, tree, i), FindNextRq(t, TopOf(tree, i), TopPlace(tree, i));
      && top.Some?
      && (Best(t, tree, i, found.value) <==> found == top)
      && (Best(t, tree, i, found.value) <==> Neighbour(tree, i, top.value))
  {
    TopIsBest(t, tree, i);
    var found, top := FindNextRq(t, tree, i), FindNextRq(t, TopOf(tree, i), TopPlace(tree, i));
    assert Neighbour(tree, i, found.value);
    if Best(t, tree, i, found.value) {
      BestIsUnique(t, tree, i, found.value, top.value);
    }
  }

  /** With mixed flags a better request can be missed: the metadata request at sector 9 is
      preferred to the neighbour that is chosen. */
  lemma MixedFlagsMiss()
    ensures var tree := [Rq(1, true, false), Rq(5, true, false), Rq(9, true, true)];
            var t := Tunables(16384, 2);
      && Sorted(tree) && FindNextRq(t, tree, 0) == Some(tree[1])
      && Preferred(t, tree[2], tree[1], tree[0].pos) && !Best(t, tree, 0, tree[1])
  {
    var tree, t := [Rq(1, true, false), Rq(5, true, false), Rq(9, true, true)], Tunables(16384, 2);
    assert !Preferred(t, tree[1], tree[2], tree[0].pos);
  }
}
