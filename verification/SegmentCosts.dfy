/** What a list of pieces costs: the least count that is right for it, given the sizes recorded
    for its outer segments, and how to compute it. */
module SegmentCosts {
  import opened Segments

  /** How many pieces from the front one segment of at most `limit` bytes takes, `k` at least. */
  function Head(q: Limits, vecs: seq<Vec>, limit: nat, k: nat): (n: nat)
    requires 1 <= k <= |vecs|
    ensures k <= n <= |vecs|
    decreases |vecs| - k
  {
    if k < |vecs| && Fits(q, false, vecs[..k], vecs[k]) && Size(vecs[..k + 1]) <= limit then Head(q, vecs, limit, k + 1)
    else k
  }

  /** The greedy split, but with a first part of at most `front` bytes if the first piece allows. */
  function FrontSplit(q: Limits, vecs: seq<Vec>, front: nat): (parts: Parts)
    requires vecs != []
    ensures parts.Snoc?
  {
    if vecs[0].len > front then Split(q, false, vecs)
    else var k := Head(q, vecs, front, 1); Append(Snoc(Nil, vecs[..k]), Split(q, false, vecs[k..]))
  }

  /** The segments needed by a list whose outer segments others take for `front` and `back`
      bytes: those of the split, and one more for each outer part that is larger. */
  function Cost(q: Limits, vecs: seq<Vec>, front: nat, back: nat): nat
    requires vecs != []
  {
    var parts := FrontSplit(q, vecs, front);
    Count(parts) + Over(parts, front, back)
  }

  // ----- Pieces taken off the front --------------------------------------------------

  /** A split without its first `n` pieces. */
  function Drop(parts: Parts, n: nat): Parts
    requires n <= |Flatten(parts)|
  {
    if parts.Nil? || n == |Flatten(parts)| then Nil
    else if n <= |Flatten(parts.init)| then Snoc(Drop(parts.init, n), parts.last)
    else Snoc(Nil, parts.last[n - |Flatten(parts.init)|..])
  }

  lemma TailIsSegment(q: Limits, p: seq<Vec>, n: nat)
    requires Segment(q, p) && n < |p|
    ensures Segment(q, p[n..])
  {
    hide Joins;
    SuffixSize(p, n);
  }

  lemma {:induction false} DropFacts(q: Limits, parts: Parts, n: nat)
    requires Segmented(q, parts) && n <= |Flatten(parts)|
    ensures Segmented(q, Drop(parts, n)) && Flatten(Drop(parts, n)) == Flatten(parts)[n..]
    ensures Count(Drop(parts, n)) <= Count(parts)
    ensures n < |Flatten(parts)| ==> Drop(parts, n).Snoc? && Size(Drop(parts, n).last) <= Size(parts.last)
  {
    hide Segment, Size;
    if parts.Snoc? && n < |Flatten(parts)| {
      if n <= |Flatten(parts.init)| {
        DropFacts(q, parts.init, n);
      } else {
        TailIsSegment(q, parts.last, n - |Flatten(parts.init)|);
        SuffixSize(parts.last, n - |Flatten(parts.init)|);
      }
    }
  }

  /** Dropping pieces of the first part only: all of it costs a part, some of it none. */
  lemma {:induction false} DropFirst(q: Limits, parts: Parts, n: nat)
    requires Segmented(q, parts) && parts.Snoc? && n <= |Flatten(parts)|
    ensures |First(parts)| <= |Flatten(parts)|
    ensures n >= |First(parts)| ==> Count(Drop(parts, n)) < Count(parts)
    ensures n < |First(parts)| ==> n < |Flatten(parts)| && Drop(parts, n).Snoc? && First(Drop(parts, n)) == First(parts)[n..]
  {
    hide Segment, Size;
    Edges(q, parts);
    if parts.init.Snoc? {
      if n <= |Flatten(parts.init)| {
        DropFirst(q, parts.init, n);
      } else {
        DropFirst(q, parts.init, |Flatten(parts.init)|);
      }
    }
  }

  // ----- Pieces taken off the back ---------------------------------------------------

  /** The first `n` pieces of a split. */
  function Take(parts: Parts, n: nat): Parts
    requires n <= |Flatten(parts)|
  {
    if parts.Nil? || n == |Flatten(parts)| then parts
    else if n <= |Flatten(parts.init)| then Take(parts.init, n)
    else Snoc(parts.init, parts.last[..n - |Flatten(parts.init)|])
  }

  lemma HeadIsShorter(q: Limits, p: seq<Vec>, n: nat)
    requires Segment(q, p) && 0 < n <= |p|
    ensures Segment(q, p[..n])
  {
    hide Joins;
    PrefixSize(p, n);
  }

  lemma {:induction false} TakeFacts(q: Limits, parts: Parts, n: nat)
    requires Segmented(q, parts) && n <= |Flatten(parts)|
    ensures Segmented(q, Take(parts, n)) && Flatten(Take(parts, n)) == Flatten(parts)[..n]
    ensures Count(Take(parts, n)) <= Count(parts)
    ensures n > 0 ==> Take(parts, n).Snoc? && parts.Snoc? && Size(First(Take(parts, n))) <= Size(First(parts))
  {
    hide Segment, Size;
    if parts.Snoc? && n < |Flatten(parts)| {
      if n <= |Flatten(parts.init)| {
        TakeFacts(q, parts.init, n);
      } else {
        HeadIsShorter(q, parts.last, n - |Flatten(parts.init)|);
        PrefixSize(parts.last, n - |Flatten(parts.init)|);
      }
    }
  }

  /** Taking off pieces of the last part only: all of it costs a part, some of it none. */
  lemma {:induction false} TakeLast(q: Limits, parts: Parts, n: nat)
    requires Segmented(q, parts) && parts.Snoc? && n <= |Flatten(parts)|
    ensures |Flatten(parts)| - n >= |parts.last| ==> Count(Take(parts, n)) < Count(parts)
    ensures |Flatten(parts)| - n < |parts.last| ==>
      Take(parts, n).Snoc? && Take(parts, n).last == parts.last[..|parts.last| - (|Flatten(parts)| - n)]
  {
    hide Segment, Size;
    Edges(q, parts);
    if n <= |Flatten(parts.init)| {
      TakeFacts(q, parts.init, n);
    }
  }

  // ----- The first part --------------------------------------------------------------

  lemma PrefixSize(s: seq<Vec>, k: nat)
    requires k <= |s|
    ensures Size(s[..k]) <= Size(s)
  {
    SizeConcat(s[..k], s[k..]);
    assert s[..k] + s[k..] == s;
  }

  lemma SizeStep(s: seq<Vec>, k: nat)
    requires k < |s|
    ensures s[..k + 1] == s[..k] + [s[k]] && Size(s[..k + 1]) == Size(s[..k]) + s[k].len
  {
    assert s[..k + 1] == s[..k] + [s[k]];
    SizeConcat(s[..k], [s[k]]);
    SizeOne(s[k]);
  }

  lemma {:induction false} HeadIsSegment(q: Limits, vecs: seq<Vec>, limit: nat, k: nat)
    requires 1 <= k <= |vecs| && Segment(q, vecs[..k]) && Size(vecs[..k]) <= limit
    ensures var n := Head(q, vecs, limit, k); Segment(q, vecs[..n]) && Size(vecs[..n]) <= limit
    decreases |vecs| - k
  {
    hide Segment, Fits, Size;
    if k < |vecs| && Fits(q, false, vecs[..k], vecs[k]) && Size(vecs[..k + 1]) <= limit {
      SizeStep(vecs, k);
      LongerSegment(q, false, vecs[..k], vecs[k]);
      HeadIsSegment(q, vecs, limit, k + 1);
    }
  }

  lemma {:induction false} HeadIsLongest(q: Limits, vecs: seq<Vec>, limit: nat, k: nat, m: nat)
    requires 1 <= k <= m <= |vecs| && Segment(q, vecs[..m]) && Size(vecs[..m]) <= limit
    ensures m <= Head(q, vecs, limit, k)
    decreases m - k
  {
    hide Size, Joins;
    if k < m {
      SizeStep(vecs, k);
      PrefixSize(vecs[..m], k + 1);
      assert vecs[..m][..k + 1] == vecs[..k + 1];
      assert Joins(q, vecs[..m][k - 1], vecs[..m][k]);
      HeadIsLongest(q, vecs, limit, k + 1, m);
    }
  }

  lemma {:induction false} FirstIsPrefix(q: Limits, parts: Parts)
    requires Segmented(q, parts) && parts.Snoc?
    ensures 1 <= |First(parts)| <= |Flatten(parts)| && First(parts) == Flatten(parts)[..|First(parts)|]
    ensures Segment(q, First(parts)) && Flatten(parts)[0].len <= Size(First(parts))
  {
    hide Segment, Size;
    Edges(q, parts);
    SizeOne(First(parts)[0]);
    PrefixSize(First(parts), 1);
    assert First(parts)[..1] == [First(parts)[0]];
    if parts.init.Snoc? {
      FirstIsPrefix(q, parts.init);
    }
  }

  // ----- The cost is the least -------------------------------------------------------

  lemma FrontSplitIsSplit(q: Limits, vecs: seq<Vec>, front: nat)
    requires vecs != []
    ensures var parts := FrontSplit(q, vecs, front);
      && Segmented(q, parts) && Flatten(parts) == vecs
      && (vecs[0].len <= front ==> Size(First(parts)) <= front)
  {
    hide Segment, Size, Split;
    if vecs[0].len > front {
      SplitIsSegmented(q, false, vecs);
    } else {
      var k := Head(q, vecs, front, 1);
      assert vecs[..1] == [vecs[0]];
      PieceIsSegment(q, vecs[0]);
      SizeOne(vecs[0]);
      HeadIsSegment(q, vecs, front, 1);
      SplitIsSegmented(q, false, vecs[k..]);
      HeadAndRest(q, vecs[..k], Split(q, false, vecs[k..]));
    }
  }

  /** A segment put before a split. */
  lemma HeadAndRest(q: Limits, head: seq<Vec>, rest: Parts)
    requires Segment(q, head) && Segmented(q, rest)
    ensures var parts := Append(Snoc(Nil, head), rest);
      && Segmented(q, parts) && parts.Snoc? && Flatten(parts) == head + Flatten(rest) && First(parts) == head
      && Count(parts) == 1 + Count(rest) && parts.last == (if rest.Nil? then head else rest.last)
  {
    hide Segment;
    var one := Snoc(Nil, head);
    assert Flatten(one) == head && Count(one) == 1;
    if rest.Snoc? {
      AppendFacts(q, one, rest);
    }
  }

  /** No split does better than the greedy one, counting its last part twice if it is over. */
  lemma GreedyCost(q: Limits, parts: Parts, back: nat)
    requires Segmented(q, parts) && parts.Snoc?
    ensures var greedy := Split(q, false, Flatten(parts));
      && greedy.Snoc?
      && Count(greedy) + (if Size(greedy.last) > back then 1 else 0) <= Count(parts) + (if Size(parts.last) > back then 1 else 0)
  {
    hide Segment, Size, AddPiece;
    var vecs := Flatten(parts);
    var greedy := Split(q, false, vecs);
    Edges(q, parts);
    GreedyIsMinimal(q, parts);
    SplitIsSegmented(q, false, vecs);
    Edges(q, greedy);
    if Count(greedy) == Count(parts) {
      var mine, theirs := greedy.last, parts.last;
      assert mine == vecs[|vecs| - |mine|..] && theirs == vecs[|vecs| - |theirs|..];
      assert mine == theirs[|theirs| - |mine|..];
      SuffixSize(theirs, |theirs| - |mine|);
    }
  }

  /** A split whose first part is within the recorded size. */
  lemma FittingCost(q: Limits, parts: Parts, front: nat, back: nat)
    requires Segmented(q, parts) && parts.Snoc? && Size(First(parts)) <= front
    ensures Flatten(parts) != [] && Cost(q, Flatten(parts), front, back) <= Count(parts) + Over(parts, front, back)
  {
    hide Segment, Size, Split;
    var vecs := Flatten(parts);
    FirstIsPrefix(q, parts);
    var m, k := |First(parts)|, Head(q, vecs, front, 1);
    HeadIsLongest(q, vecs, front, 1, m);
    assert vecs[..1] == [vecs[0]];
    PieceIsSegment(q, vecs[0]);
    SizeOne(vecs[0]);
    HeadIsSegment(q, vecs, front, 1);
    SplitIsSegmented(q, false, vecs[k..]);
    HeadAndRest(q, vecs[..k], Split(q, false, vecs[k..]));
    if k < |vecs| {
      DropFacts(q, parts, k);
      DropFirst(q, parts, k);
      GreedyCost(q, Drop(parts, k), back);
    } else {
      OneIsBoth(parts);
      assert vecs[..k] == vecs && Split(q, false, vecs[k..]).Nil? by { AllTaken(q, vecs, k); }
    }
  }

  lemma AllTaken(q: Limits, vecs: seq<Vec>, k: nat)
    requires k == |vecs|
    ensures vecs[..k] == vecs && Split(q, false, vecs[k..]).Nil?
  {
  }

  lemma OnePieceSize(p: seq<Vec>)
    requires p != []
    ensures |p| == 1 ==> Size(p) == p[0].len
  {
    assert Size(p[..0]) == 0;
  }

  /** A split whose first part is over but could be cut: its first piece is taken out. */
  lemma PeeledCost(q: Limits, parts: Parts, front: nat, back: nat)
    requires Segmented(q, parts) && parts.Snoc? && Flatten(parts) != []
    requires Flatten(parts)[0].len <= front < Size(First(parts))
    ensures Cost(q, Flatten(parts), front, back) <= Count(parts) + Over(parts, front, back)
  {
    hide Segmented, Segment, Size, Split, FrontSplit;
    var v, rest := Flatten(parts)[0], Drop(parts, 1);
    FirstIsPrefix(q, parts);
    SizeOne(v);
    OnePieceSize(First(parts));
    PieceIsSegment(q, v);
    DropFacts(q, parts, 1);
    HeadAndRest(q, [v], rest);
    assert [v] + Flatten(parts)[1..] == Flatten(parts);
    FittingCost(q, Append(Snoc(Nil, [v]), rest), front, back);
  }

  /** No split costs less. */
  lemma CostIsLeast(q: Limits, parts: Parts, front: nat, back: nat)
    requires Segmented(q, parts) && parts.Snoc?
    ensures Flatten(parts) != [] && Cost(q, Flatten(parts), front, back) <= Count(parts) + Over(parts, front, back)
  {
    hide Segment, Size, Split;
    var vecs := Flatten(parts);
    FirstIsPrefix(q, parts);
    if Size(First(parts)) <= front {
      FittingCost(q, parts, front, back);
    } else if vecs[0].len > front {
      GreedyCost(q, parts, back);
    } else {
      PeeledCost(q, parts, front, back);
    }
  }

  /** A count is right exactly when it is at least the cost. */
  lemma BoundedIff(q: Limits, vecs: seq<Vec>, nr: int, front: nat, back: nat)
    requires vecs != []
    ensures Bounded(q, vecs, nr, front, back) <==> Cost(q, vecs, front, back) <= nr
  {
    hide Segmented, Size, Split, FrontSplit;
    FrontSplitIsSplit(q, vecs, front);
    if Cost(q, vecs, front, back) <= nr {
      assert Counted(q, FrontSplit(q, vecs, front), vecs, nr, front, back);
    }
    if Bounded(q, vecs, nr, front, back) {
      var parts :| Counted(q, parts, vecs, nr, front, back);
      CostIsLeast(q, parts, front, back);
    }
  }

  // ----- One piece more --------------------------------------------------------------

  /** Whether a piece goes on with the last segment of the pieces before it; a first segment
      stays within its recorded size. */
  predicate GoesOn(q: Limits, vecs: seq<Vec>, front: nat, v: Vec)
    requires vecs != []
  {
    var parts := FrontSplit(q, vecs, front);
    && Fits(q, false, parts.last, v)
    && (parts.init.Nil? && vecs[0].len <= front ==> Size(parts.last) + v.len <= front)
  }

  lemma {:induction false} HeadMore(q: Limits, vecs: seq<Vec>, limit: nat, k: nat, v: Vec)
    requires 1 <= k <= |vecs|
    ensures Head(q, vecs, limit, k) < |vecs| ==> Head(q, vecs + [v], limit, k) == Head(q, vecs, limit, k)
    ensures Head(q, vecs, limit, k) == |vecs| ==>
      Head(q, vecs + [v], limit, k) == if Fits(q, false, vecs, v) && Size(vecs) + v.len <= limit then |vecs| + 1 else |vecs|
    decreases |vecs| - k
  {
    hide Fits, Size;
    var more := vecs + [v];
    assert more[..k] == vecs[..k];
    if k < |vecs| {
      assert more[..k + 1] == vecs[..k + 1] && more[k] == vecs[k];
      HeadMore(q, vecs, limit, k + 1, v);
    } else {
      assert vecs[..k] == vecs && more[..k + 1] == more && more[k] == v;
      SizeConcat(vecs, [v]);
      SizeOne(v);
    }
  }

  lemma AppendPiece(q: Limits, a: Parts, b: Parts, v: Vec)
    requires b.Snoc?
    ensures Append(a, AddPiece(q, false, b, v)) == AddPiece(q, false, Append(a, b), v)
  {
    hide Fits;
  }

  /** The split of one piece more is the split of the others with that piece at its end. */
  lemma FrontSplitMore(q: Limits, vecs: seq<Vec>, front: nat, v: Vec)
    requires vecs != []
    ensures var parts := FrontSplit(q, vecs, front);
      FrontSplit(q, vecs + [v], front) ==
      if GoesOn(q, vecs, front, v) then Snoc(parts.init, parts.last + [v]) else Snoc(parts, [v])
  {
    hide Fits, Size, Split, Head;
    var more := vecs + [v];
    if vecs[0].len > front {
      SplitStep(q, false, vecs, v);
    } else {
      var k := Head(q, vecs, front, 1);
      HeadMore(q, vecs, front, 1, v);
      if k < |vecs| {
        assert more[..k] == vecs[..k] && more[k..] == vecs[k..] + [v];
        SplitStep(q, false, vecs[k..], v);
        NotEmpty(q, vecs[k..]);
        AppendPiece(q, Snoc(Nil, vecs[..k]), Split(q, false, vecs[k..]), v);
      } else {
        AllTaken(q, vecs, k);
        assert FrontSplit(q, vecs, front) == Snoc(Nil, vecs);
        TwoWays(q, vecs, front, v);
      }
    }
  }

  lemma NotEmpty(q: Limits, vecs: seq<Vec>)
    requires vecs != []
    ensures Split(q, false, vecs).Snoc?
  {
  }

  /** After a first part that takes everything. */
  lemma TwoWays(q: Limits, vecs: seq<Vec>, front: nat, v: Vec)
    requires vecs != [] && vecs[0].len <= front && Head(q, vecs, front, 1) == |vecs|
    ensures FrontSplit(q, vecs + [v], front) ==
      if Fits(q, false, vecs, v) && Size(vecs) + v.len <= front then Snoc(Nil, vecs + [v]) else Snoc(Snoc(Nil, vecs), [v])
  {
    hide Fits, Size, Head;
    var more := vecs + [v];
    HeadMore(q, vecs, front, 1, v);
    if Fits(q, false, vecs, v) && Size(vecs) + v.len <= front {
      AllTaken(q, more, |vecs| + 1);
    } else {
      assert more[..|vecs|] == vecs && more[|vecs|..] == [v];
      var one, piece := Snoc(Nil, vecs), Snoc(Nil, [v]);
      assert [] + [v] == [v];
      SplitStep(q, false, [], v);
      assert Split(q, false, [v]) == piece;
      assert Append(one, Nil) == one && Append(one, piece) == Snoc(one, [v]);
    }
  }

  /** The cost read off the last piece: the segments of the others, one more if the first is
      larger than recorded; and either the last segment grows, or there is another. */
  lemma LastPieceCost(q: Limits, vecs: seq<Vec>, front: nat, back: nat, v: Vec)
    requires vecs != []
    ensures var parts := FrontSplit(q, vecs, front);
      Cost(q, vecs + [v], front, back) == Count(parts) + (if vecs[0].len > front then 1 else 0) +
        if GoesOn(q, vecs, front, v) then (if Size(parts.last) + v.len > back then 1 else 0)
        else 1 + (if v.len > back then 1 else 0)
  {
    hide Size, FrontSplit, Fits, Segmented;
    var parts, all := FrontSplit(q, vecs, front), FrontSplit(q, vecs + [v], front);
    FrontSplitMore(q, vecs, front, v);
    FrontSplitIsSplit(q, vecs + [v], front);
    FirstIsPrefix(q, all);
    SizeConcat(parts.last, [v]);
    SizeOne(v);
    assert (vecs + [v])[0] == vecs[0];
  }
}
