/** No weaker condition on the submitted bios would do: a trusted bio that is not right makes
    some run map a request to more entries than it counts. */
module MergeNeeds {
  import opened Segments
  import opened SegmentCosts
  import opened RequestMerge
  import opened MergeRuns

  /** Pieces for one segment that ends where a bio begins and fills its first segment up to
      the limit as recorded. */
  ghost predicate FrontRoom(q: Limits, bio: Bio, ws: seq<Vec>)
    requires bio.vecs != []
  {
    && Segment(q, ws) && Size(ws) + bio.front == q.maxSize && Joins(q, ws[|ws| - 1], bio.vecs[0])
    && Sectors(Size(ws)) <= bio.sector
  }

  /** The same behind it. */
  ghost predicate BackRoom(q: Limits, bio: Bio, xs: seq<Vec>)
    requires bio.vecs != []
  {
    Segment(q, xs) && Size(xs) + bio.back == q.maxSize && Joins(q, bio.vecs[|bio.vecs| - 1], xs[0])
  }

  /** Such pieces on each side where the recorded size leaves room for any, no piece too large
      for a segment, and room for all of it in one request. */
  ghost predicate Room(q: Limits, bio: Bio, ws: seq<Vec>, xs: seq<Vec>) {
    && bio.vecs != [] && q.cluster && bio.segs <= q.maxSegs
    && (forall i :: 0 <= i < |bio.vecs| ==> bio.vecs[i].len <= q.maxSize)
    && Sectors(Size(ws) + Size(bio.vecs) + Size(xs)) <= q.maxSectors
    && (bio.front < q.maxSize ==> FrontRoom(q, bio, ws))
    && (bio.back < q.maxSize ==> BackRoom(q, bio, xs))
  }

  // ----- What the neighbours add -----------------------------------------------------

  /** Without the pieces in front: a part less, or a first part within the recorded size. */
  lemma StripFront(q: Limits, parts: Parts, ws: seq<Vec>, vecs: seq<Vec>, front: nat)
    requires Segmented(q, parts) && Flatten(parts) == ws + vecs && ws != [] && vecs != [] && Size(ws) + front == q.maxSize
    ensures var less := Drop(parts, |ws|);
      && Segmented(q, less) && Flatten(less) == vecs && less.Snoc?
      && Count(less) + (if Size(First(less)) > front then 1 else 0) <= Count(parts)
  {
    hide Segmented, Segment, Size, Drop;
    assert parts.Snoc? by { assert Flatten(parts) != []; }
    DropFacts(q, parts, |ws|);
    DropFirst(q, parts, |ws|);
    FirstIsPrefix(q, parts);
    if |First(parts)| > |ws| {
      var p := First(parts);
      assert p[..|ws|] == ws;
      LongSize(q, p, |ws|);
    }
  }

  lemma LongSize(q: Limits, p: seq<Vec>, n: nat)
    requires Segment(q, p) && 0 < n < |p|
    ensures Size(p[..n]) + Size(p[n..]) <= q.maxSize
  {
    SizeConcat(p[..n], p[n..]);
    assert p[..n] + p[n..] == p;
  }

  /** The same behind; the first part does not grow. */
  lemma StripBack(q: Limits, parts: Parts, xs: seq<Vec>, vecs: seq<Vec>, back: nat)
    requires Segmented(q, parts) && Flatten(parts) == vecs + xs && xs != [] && vecs != [] && Size(xs) + back == q.maxSize
    ensures parts.Snoc?
    ensures var less := Take(parts, |vecs|);
      && Segmented(q, less) && Flatten(less) == vecs && less.Snoc?
      && Count(less) + (if Size(less.last) > back then 1 else 0) <= Count(parts)
      && Size(First(less)) <= Size(First(parts))
  {
    hide Segmented, Segment, Size, Take, Flatten, First;
    TakenBack(q, parts, xs, vecs);
    if |xs| < |parts.last| {
      LastSize(q, parts, xs, vecs);
    }
  }

  lemma TakenBack(q: Limits, parts: Parts, xs: seq<Vec>, vecs: seq<Vec>)
    requires Segmented(q, parts) && Flatten(parts) == vecs + xs && vecs != []
    ensures parts.Snoc?
    ensures var less := Take(parts, |vecs|);
      && Segmented(q, less) && Flatten(less) == vecs && less.Snoc? && Count(less) <= Count(parts)
      && Size(First(less)) <= Size(First(parts))
      && (|xs| >= |parts.last| ==> Count(less) < Count(parts))
      && (|xs| < |parts.last| ==> less.last == parts.last[..|parts.last| - |xs|])
  {
    hide Segmented, Segment, Size, Take, Flatten, First;
    assert (vecs + xs)[..|vecs|] == vecs;
    TakeFacts(q, parts, |vecs|);
    TakeLast(q, parts, |vecs|);
  }

  lemma LastSize(q: Limits, parts: Parts, xs: seq<Vec>, vecs: seq<Vec>)
    requires Segmented(q, parts) && parts.Snoc? && Flatten(parts) == vecs + xs && xs != [] && |xs| < |parts.last|
    ensures Size(parts.last[..|parts.last| - |xs|]) + Size(xs) <= q.maxSize
  {
    hide Segment, Size, Flatten, First;
    EndsWith(parts, vecs, xs);
    LongSize(q, parts.last, |parts.last| - |xs|);
  }

  lemma EndsWith(parts: Parts, vecs: seq<Vec>, xs: seq<Vec>)
    requires parts.Snoc? && Flatten(parts) == vecs + xs && |xs| < |parts.last|
    ensures parts.last[|parts.last| - |xs|..] == xs
  {
    var all, p := Flatten(parts), parts.last;
    assert p == all[|all| - |p|..];
    assert xs == all[|all| - |xs|..];
  }

  /** Between two such neighbours, a list that is not right needs more than it counts. */
  lemma FlankedCost(q: Limits, vecs: seq<Vec>, nr: int, front: nat, back: nat, ws: seq<Vec>, xs: seq<Vec>)
    requires vecs != [] && ws != [] && xs != [] && Size(ws) + front == q.maxSize && Size(xs) + back == q.maxSize
    requires !Bounded(q, vecs, nr, front, back)
    ensures Count(Split(q, false, ws + vecs + xs)) > nr
  {
    hide Segmented, Segment, Size, Split, Drop, Take;
    var all := ws + vecs + xs;
    var parts := Split(q, false, all);
    SplitIsSegmented(q, false, all);
    assert all == ws + (vecs + xs);
    StripFront(q, parts, ws, vecs + xs, front);
    var less := Drop(parts, |ws|);
    StripBack(q, less, xs, vecs, back);
    assert !Counted(q, Take(less, |vecs|), vecs, nr, front, back);
  }

  /** Behind such a neighbour, a list whose first part is to blame. */
  lemma FrontCost(q: Limits, vecs: seq<Vec>, nr: int, front: nat, ws: seq<Vec>)
    requires vecs != [] && ws != [] && Size(ws) + front == q.maxSize && !Bounded(q, vecs, nr, front, Size(vecs))
    ensures Count(Split(q, false, ws + vecs)) > nr
  {
    hide Segmented, Segment, Size, Split, Drop;
    var parts := Split(q, false, ws + vecs);
    SplitIsSegmented(q, false, ws + vecs);
    StripFront(q, parts, ws, vecs, front);
    LastIsSmaller(q, Drop(parts, |ws|));
    assert !Counted(q, Drop(parts, |ws|), vecs, nr, front, Size(vecs));
  }

  lemma BackCost(q: Limits, vecs: seq<Vec>, nr: int, back: nat, xs: seq<Vec>)
    requires vecs != [] && xs != [] && Size(xs) + back == q.maxSize && !Bounded(q, vecs, nr, Size(vecs), back)
    ensures Count(Split(q, false, vecs + xs)) > nr
  {
    hide Segmented, Segment, Size, Split, Take;
    var parts := Split(q, false, vecs + xs);
    SplitIsSegmented(q, false, vecs + xs);
    StripBack(q, parts, xs, vecs, back);
    LastIsSmaller(q, Take(parts, |vecs|));
    assert !Counted(q, Take(parts, |vecs|), vecs, nr, Size(vecs), back);
  }

  lemma LastIsSmaller(q: Limits, parts: Parts)
    requires Segmented(q, parts) && parts.Snoc?
    ensures Size(parts.last) <= Size(Flatten(parts)) && Size(First(parts)) <= Size(Flatten(parts))
  {
    hide Segmented, Segment, Size;
    SizeConcat(Flatten(parts.init), parts.last);
    FirstIsPrefix(q, parts);
    PrefixSize(Flatten(parts), |First(parts)|);
  }

  lemma OnlyPart(q: Limits, p: seq<Vec>)
    ensures var one := Snoc(Nil, p);
      Flatten(one) == p && Count(one) == 1 && First(one) == p && (Segment(q, p) <==> Segmented(q, one))
  {
    hide Segment;
    assert Flatten(Nil) == [] && Count(Nil) == 0;
  }

  /** One segment is right exactly when it is the whole list and neither size is less. */
  lemma OneWhole(q: Limits, vecs: seq<Vec>, front: nat, back: nat)
    ensures Bounded(q, vecs, 1, front, back) <==> Segment(q, vecs) && Size(vecs) <= front && Size(vecs) <= back
  {
    hide Segment, Size;
    var one := Snoc(Nil, vecs);
    OnlyPart(q, vecs);
    if Bounded(q, vecs, 1, front, back) {
      var parts :| Counted(q, parts, vecs, 1, front, back);
      OneIsBoth(parts);
      OnlyPart(q, parts.last);
      assert parts == one;
    }
    if Segment(q, vecs) && Size(vecs) <= front && Size(vecs) <= back {
      assert Counted(q, one, vecs, 1, front, back);
    }
  }

  /** No part of pieces that each fit is larger than a segment may be. */
  lemma PartsFit(q: Limits, parts: Parts)
    requires Segmented(q, parts) && parts.Snoc?
    requires forall i :: 0 <= i < |Flatten(parts)| ==> Flatten(parts)[i].len <= q.maxSize
    ensures Size(First(parts)) <= q.maxSize && Size(parts.last) <= q.maxSize
  {
    hide Segmented, Size;
    Edges(q, parts);
    OnePieceSize(First(parts));
    OnePieceSize(parts.last);
  }

  /** When neither side alone is to blame, both are: each size leaves room, and there is more
      than one segment. */
  lemma BothSides(q: Limits, vecs: seq<Vec>, nr: int, front: nat, back: nat)
    requires vecs != [] && !Bounded(q, vecs, nr, front, back)
    requires forall i :: 0 <= i < |vecs| ==> vecs[i].len <= q.maxSize
    requires Bounded(q, vecs, nr, front, Size(vecs)) && Bounded(q, vecs, nr, Size(vecs), back)
    ensures front < q.maxSize && back < q.maxSize && nr != 1
  {
    hide Segmented, Segment, Size;
    OneWhole(q, vecs, front, back);
    OneWhole(q, vecs, front, Size(vecs));
    OneWhole(q, vecs, Size(vecs), back);
    var a :| Counted(q, a, vecs, nr, front, Size(vecs));
    var b :| Counted(q, b, vecs, nr, Size(vecs), back);
    PartsFit(q, a);
    PartsFit(q, b);
    assert !Counted(q, a, vecs, nr, front, back) && !Counted(q, b, vecs, nr, front, back);
  }

  /** A side that leaves no room is not to blame if the count is enough for the pieces. */
  lemma FrontToBlame(q: Limits, vecs: seq<Vec>, nr: int, front: nat)
    requires vecs != [] && Count(Split(q, false, vecs)) <= nr && !Bounded(q, vecs, nr, front, Size(vecs))
    requires forall i :: 0 <= i < |vecs| ==> vecs[i].len <= q.maxSize
    ensures front < q.maxSize
  {
    hide Segmented, Segment, Size;
    var parts := Split(q, false, vecs);
    SplitIsSegmented(q, false, vecs);
    LastIsSmaller(q, parts);
    PartsFit(q, parts);
    assert !Counted(q, parts, vecs, nr, front, Size(vecs));
  }

  lemma BackToBlame(q: Limits, vecs: seq<Vec>, nr: int, back: nat)
    requires vecs != [] && Count(Split(q, false, vecs)) <= nr && !Bounded(q, vecs, nr, Size(vecs), back)
    requires forall i :: 0 <= i < |vecs| ==> vecs[i].len <= q.maxSize
    ensures back < q.maxSize
  {
    hide Segmented, Segment, Size;
    var parts := Split(q, false, vecs);
    SplitIsSegmented(q, false, vecs);
    LastIsSmaller(q, parts);
    PartsFit(q, parts);
    assert !Counted(q, parts, vecs, nr, Size(vecs), back);
  }

  // ----- The runs --------------------------------------------------------------------

  /** Every submitted bio is right, but for this one. */
  ghost predicate OnlyThis(q: Limits, steps: seq<Step>, bio: Bio) {
    forall i :: 0 <= i < |steps| ==> Right(q, steps[i]) || (steps[i].New? && steps[i].bio == bio)
  }

  lemma {:induction false} Begins(q: Limits, s: seq<Req>, step: Step, rest: seq<Step>)
    requires Enabled(s, step) && IsRun(q, Next(q, s, step), rest)
    ensures IsRun(q, s, [step] + rest) && RunTo(q, s, [step] + rest) == RunTo(q, Next(q, s, step), rest)
  {
    hide Enabled, Next;
    assert ([step] + rest)[1..] == rest;
  }

  lemma Two(q: Limits, s: seq<Req>, a: Step, b: Step)
    requires Enabled(s, a) && Enabled(Next(q, s, a), b)
    ensures IsRun(q, s, [a, b]) && RunTo(q, s, [a, b]) == Next(q, Next(q, s, a), b)
  {
    hide Enabled, Next;
    Begins(q, Next(q, s, a), b, []);
    Begins(q, s, a, [b]);
    assert [b] + [] == [b] && [a] + [b] == [a, b];
  }

  lemma {:induction false} RunsChain(q: Limits, s: seq<Req>, a: seq<Step>, b: seq<Step>)
    requires IsRun(q, s, a) && IsRun(q, RunTo(q, s, a), b)
    ensures IsRun(q, s, a + b) && RunTo(q, s, a + b) == RunTo(q, RunTo(q, s, a), b)
    decreases |a|
  {
    hide Enabled, Next;
    if a == [] {
      assert a + b == b;
    } else {
      RunsChain(q, Next(q, s, a[0]), a[1..], b);
      assert (a + b)[1..] == a[1..] + b;
    }
  }

  /** A bio of one segment, rightly counted. */
  function Single(sector: nat, p: seq<Vec>): Bio { Bio(sector, p, true, 1, Size(p), Size(p)) }

  lemma SingleIsRight(q: Limits, sector: nat, p: seq<Vec>)
    requires Segment(q, p)
    ensures BioOk(q, Single(sector, p)) && p != []
  {
    hide Bounded, Size;
    OneWhole(q, p, Size(p), Size(p));
  }

  /** The bio's request, as submitted. */
  function Plain(bio: Bio): Req { Req([bio], bio.segs, Size(bio.vecs), bio.sector, true, false, false, false) }

  lemma FloorSum(a: nat, b: nat)
    ensures Sectors(a) + Sectors(b) <= Sectors(a + b)
  {
  }

  /** Merged with the pieces in front, the bio still counts as many segments. */
  lemma FrontPair(q: Limits, bio: Bio, ws: seq<Vec>, xs: seq<Vec>)
    requires Room(q, bio, ws, xs) && bio.front < q.maxSize && bio.segs >= 1
    ensures Sectors(Size(ws)) <= bio.sector
    ensures var req := Plain(Single(bio.sector - Sectors(Size(ws)), ws));
      && HasData(req.bios) && HasData(Plain(bio).bios)
      && var (r, _, ok) := MergeRequests(q, req, Plain(bio));
      && ok && r.segs == bio.segs && |r.bios| == 2 && r.bios[0].vecs == ws && r.bios[1].vecs == bio.vecs
      && r.len == Size(ws) + Size(bio.vecs) && r.write && Mergeable(r) && !r.special
      && (bio.segs > 1 ==> r.bios[1].back == bio.back)
  {
    hide Joins, Sectors, Size, BackRoom;
    FloorSum(Size(ws), Size(bio.vecs));
    FloorSum(Size(ws) + Size(bio.vecs), Size(xs));
    var req := Plain(Single(bio.sector - Sectors(Size(ws)), ws));
    assert Neighbours(req, Plain(bio));
    assert Contiguous(q, req.bios[0], bio);
  }

  lemma BackPair(q: Limits, bio: Bio, ws: seq<Vec>, xs: seq<Vec>)
    requires Room(q, bio, ws, xs) && bio.back < q.maxSize && bio.segs >= 1
    ensures var next := Plain(Single(bio.sector + Sectors(Size(bio.vecs)), xs));
      && HasData(next.bios) && HasData(Plain(bio).bios)
      && var (r, _, ok) := MergeRequests(q, Plain(bio), next);
      && ok && r.segs == bio.segs && |r.bios| == 2 && r.bios[0].vecs == bio.vecs && r.bios[1].vecs == xs
  {
    hide Joins, Sectors, Size, FrontRoom;
    FloorSum(Size(bio.vecs), Size(xs));
    FloorSum(Size(ws), Size(bio.vecs) + Size(xs));
    var next := Plain(Single(bio.sector + Sectors(Size(bio.vecs)), xs));
    assert Neighbours(Plain(bio), next);
    assert Contiguous(q, bio, next.bios[0]);
  }

  /** And with the pieces behind as well. */
  lemma ThirdPair(q: Limits, bio: Bio, ws: seq<Vec>, xs: seq<Vec>, req: Req)
    requires Room(q, bio, ws, xs) && bio.back < q.maxSize && bio.segs > 1 && ws != []
    requires req.segs == bio.segs && |req.bios| == 2 && req.bios[0].vecs == ws && req.bios[1].vecs == bio.vecs
    requires req.len == Size(ws) + Size(bio.vecs) && req.bios[1].back == bio.back
    requires req.write && Mergeable(req) && !req.special
    ensures var next := Plain(Single(req.pos + Sectors(req.len), xs));
      && HasData(next.bios) && HasData(req.bios)
      && var (r, _, ok) := MergeRequests(q, req, next);
      && ok && r.segs == bio.segs && |r.bios| == 3
      && r.bios[0].vecs == ws && r.bios[1].vecs == bio.vecs && r.bios[2].vecs == xs
  {
    hide Joins, Sectors, Size, FrontRoom;
    FloorSum(Size(ws) + Size(bio.vecs), Size(xs));
    var next := Plain(Single(req.pos + Sectors(req.len), xs));
    assert Neighbours(req, next);
    assert Contiguous(q, req.bios[1], next.bios[0]);
  }

  function Then(bio: Bio): seq<Step> { [New(bio, true), Pair(0, 1)] }

  /** A bio submitted after a request, and the two merged. */
  lemma MergeRun(q: Limits, req: Req, bio: Bio)
    requires HasData(req.bios) && bio.vecs != [] && HasData(Prepared(q, bio, true).bios)
    requires MergeRequests(q, req, Prepared(q, bio, true)).2
    ensures IsRun(q, [req], Then(bio))
    ensures RunTo(q, [req], Then(bio)) == [MergeRequests(q, req, Prepared(q, bio, true)).0]
  {
    hide HasData, MergeRequests, Prepared;
    DataEnds(req.bios);
    DataEnds(Prepared(q, bio, true).bios);
    var s := [req] + [Prepared(q, bio, true)];
    assert Next(q, [req], New(bio, true)) == s;
    Two(q, [req], New(bio, true), Pair(0, 1));
    var r := MergeRequests(q, req, Prepared(q, bio, true)).0;
    assert Next(q, s, Pair(0, 1)) == Without(s[0 := r], 1) == [r];
  }

  lemma Submitted(q: Limits, bio: Bio)
    requires bio.vecs != []
    ensures IsRun(q, [], [New(bio, true)]) && RunTo(q, [], [New(bio, true)]) == [Prepared(q, bio, true)]
  {
    hide Prepared;
    Begins(q, [], New(bio, true), []);
    assert [New(bio, true)] + [] == [New(bio, true)];
    assert Next(q, [], New(bio, true)) == [Prepared(q, bio, true)];
  }

  ghost predicate Fails(q: Limits, bio: Bio, steps: seq<Step>) {
    IsRun(q, [], steps) && OnlyThis(q, steps, bio) && !AllMap(q, RunTo(q, [], steps))
  }

  /** A request that needs more entries than it counts does not map. */
  lemma TooMany(q: Limits, req: Req, vecs: seq<Vec>)
    requires AllVecs(req.bios) == vecs && Count(Split(q, false, vecs)) > req.segs
    ensures !AllMap(q, [req])
  {
    hide Split;
    assert !Maps(q, [req][0]);
  }

  lemma TwoBios(a: Bio, b: Bio)
    ensures AllVecs([a, b]) == a.vecs + b.vecs
  {
    AllVecsOne(a);
    AllVecsOne(b);
    AllVecsConcat([a], [b]);
    assert [a] + [b] == [a, b];
  }

  lemma ThreeBios(a: Bio, b: Bio, c: Bio)
    ensures AllVecs([a, b, c]) == a.vecs + b.vecs + c.vecs
  {
    TwoBios(a, b);
    AllVecsOne(c);
    AllVecsConcat([a, b], [c]);
    assert [a, b] + [c] == [a, b, c];
  }

  /** The count alone is too low. */
  lemma FailsAlone(q: Limits, bio: Bio)
    requires bio.vecs != [] && bio.valid && Count(Split(q, false, bio.vecs)) > bio.segs
    ensures Fails(q, bio, [New(bio, true)])
  {
    hide Split, Size, AllVecs, AllMap;
    Submitted(q, bio);
    AllVecsOne(bio);
    TooMany(q, Plain(bio), bio.vecs);
  }

  lemma AsSubmitted(q: Limits, bio: Bio)
    requires bio.valid
    ensures Prepared(q, bio, true) == Plain(bio)
  {
  }

  lemma FailsInFront(q: Limits, bio: Bio, ws: seq<Vec>, xs: seq<Vec>)
    requires Room(q, bio, ws, xs) && bio.front < q.maxSize && bio.valid && bio.segs >= 1
    requires !Bounded(q, bio.vecs, bio.segs, bio.front, Size(bio.vecs))
    ensures Sectors(Size(ws)) <= bio.sector
    ensures Fails(q, bio, [New(Single(bio.sector - Sectors(Size(ws)), ws), true)] + Then(bio))
  {
    hide Split, Size, AllVecs, AllMap, MergeRequests, Bounded, Prepared, Joins, BioOk, Segment, BackRoom;
    FrontPair(q, bio, ws, xs);
    var l := Single(bio.sector - Sectors(Size(ws)), ws);
    SingleIsRight(q, l.sector, ws);
    AsSubmitted(q, l);
    AsSubmitted(q, bio);
    Submitted(q, l);
    MergeRun(q, Plain(l), bio);
    RunsChain(q, [], [New(l, true)], Then(bio));
    var r := MergeRequests(q, Plain(l), Plain(bio)).0;
    TwoBios(r.bios[0], r.bios[1]);
    assert r.bios == [r.bios[0], r.bios[1]];
    FrontCost(q, bio.vecs, bio.segs, bio.front, ws);
    TooMany(q, r, ws + bio.vecs);
  }

  lemma FailsBehind(q: Limits, bio: Bio, ws: seq<Vec>, xs: seq<Vec>)
    requires Room(q, bio, ws, xs) && bio.back < q.maxSize && bio.valid && bio.segs >= 1
    requires !Bounded(q, bio.vecs, bio.segs, Size(bio.vecs), bio.back)
    ensures Fails(q, bio, [New(bio, true)] + Then(Single(bio.sector + Sectors(Size(bio.vecs)), xs)))
  {
    hide Split, Size, AllVecs, AllMap, MergeRequests, Bounded, Prepared, Joins, BioOk, Segment, FrontRoom;
    var n := Single(bio.sector + Sectors(Size(bio.vecs)), xs);
    BackPair(q, bio, ws, xs);
    SingleIsRight(q, n.sector, xs);
    AsSubmitted(q, n);
    AsSubmitted(q, bio);
    Submitted(q, bio);
    MergeRun(q, Plain(bio), n);
    RunsChain(q, [], [New(bio, true)], Then(n));
    var r := MergeRequests(q, Plain(bio), Plain(n)).0;
    TwoBios(r.bios[0], r.bios[1]);
    assert r.bios == [r.bios[0], r.bios[1]];
    BackCost(q, bio.vecs, bio.segs, bio.back, xs);
    TooMany(q, r, bio.vecs + xs);
  }

  lemma FailsBetween(q: Limits, bio: Bio, ws: seq<Vec>, xs: seq<Vec>) returns (steps: seq<Step>)
    requires Room(q, bio, ws, xs) && bio.front < q.maxSize && bio.back < q.maxSize
    requires bio.valid && bio.segs > 1 && !Bounded(q, bio.vecs, bio.segs, bio.front, bio.back)
    ensures Fails(q, bio, steps)
  {
    hide Split, Size, AllVecs, AllMap, MergeRequests, Bounded, Prepared, Joins, IsRun, RunTo, BioOk, Segment;
    FrontPair(q, bio, ws, xs);
    var l := Single(bio.sector - Sectors(Size(ws)), ws);
    SingleIsRight(q, l.sector, ws);
    AsSubmitted(q, l);
    AsSubmitted(q, bio);
    Submitted(q, l);
    MergeRun(q, Plain(l), bio);
    RunsChain(q, [], [New(l, true)], Then(bio));
    var r := MergeRequests(q, Plain(l), Plain(bio)).0;
    ThirdPair(q, bio, ws, xs, r);
    var n := Single(r.pos + Sectors(r.len), xs);
    SingleIsRight(q, n.sector, xs);
    AsSubmitted(q, n);
    MergeRun(q, r, n);
    RunsChain(q, [], [New(l, true)] + Then(bio), Then(n));
    steps := [New(l, true)] + Then(bio) + Then(n);
    var r' := MergeRequests(q, r, Plain(n)).0;
    ThreeBios(r'.bios[0], r'.bios[1], r'.bios[2]);
    assert r'.bios == [r'.bios[0], r'.bios[1], r'.bios[2]];
    FlankedCost(q, bio.vecs, bio.segs, bio.front, bio.back, ws, xs);
    TooMany(q, r', ws + bio.vecs + xs);
  }

  /** A trusted bio that is not right, with room at its sides, makes some run fail. */
  lemma WrongBioFails(q: Limits, bio: Bio, ws: seq<Vec>, xs: seq<Vec>) returns (steps: seq<Step>)
    requires Room(q, bio, ws, xs) && !BioOk(q, bio)
    ensures Fails(q, bio, steps)
  {
    hide Split, Size, Bounded, Fails, FrontRoom, BackRoom;
    NeedsOne(q, bio.vecs);
    if Count(Split(q, false, bio.vecs)) > bio.segs {
      steps := [New(bio, true)];
      FailsAlone(q, bio);
    } else if !Bounded(q, bio.vecs, bio.segs, bio.front, Size(bio.vecs)) {
      FrontToBlame(q, bio.vecs, bio.segs, bio.front);
      FailsInFront(q, bio, ws, xs);
      steps := [New(Single(bio.sector - Sectors(Size(ws)), ws), true)] + Then(bio);
    } else if !Bounded(q, bio.vecs, bio.segs, Size(bio.vecs), bio.back) {
      BackToBlame(q, bio.vecs, bio.segs, bio.back);
      FailsBehind(q, bio, ws, xs);
      steps := [New(bio, true)] + Then(Single(bio.sector + Sectors(Size(bio.vecs)), xs));
    } else {
      BothSides(q, bio.vecs, bio.segs, bio.front, bio.back);
      steps := FailsBetween(q, bio, ws, xs);
    }
  }

  lemma NeedsOne(q: Limits, vecs: seq<Vec>)
    requires vecs != []
    ensures Count(Split(q, false, vecs)) >= 1
  {
  }

  /** A check that whoever submits a bio can make: its count is not trusted, or it is at least
      what the pieces cost with the sizes recorded. */
  predicate Checks(q: Limits, bio: Bio)
    requires bio.vecs != []
  {
    bio.valid ==> Cost(q, bio.vecs, bio.front, bio.back) <= bio.segs
  }

  lemma ChecksIsRight(q: Limits, bio: Bio)
    requires bio.vecs != []
    ensures BioOk(q, bio) <==> Checks(q, bio)
  {
    hide Bounded, Cost;
    BoundedIff(q, bio.vecs, bio.segs, bio.front, bio.back);
  }

  /** That check is exactly what is needed: a bio passes it if and only if every run that
      submits it along with right bios maps every request within its count. */
  lemma CheckIsExact(q: Limits, bio: Bio, ws: seq<Vec>, xs: seq<Vec>)
    requires Room(q, bio, ws, xs)
    ensures bio.vecs != []
    ensures Checks(q, bio) <==>
      forall steps | IsRun(q, [], steps) && OnlyThis(q, steps, bio) :: AllMap(q, RunTo(q, [], steps))
  {
    hide BioOk, IsRun, RunTo, AllMap, Checks;
    assert bio.vecs != [];
    hide Room;
    ChecksIsRight(q, bio);
    if BioOk(q, bio) {
      forall steps | IsRun(q, [], steps) && OnlyThis(q, steps, bio)
        ensures AllMap(q, RunTo(q, [], steps))
      {
        SegmentsSuffice(q, steps);
      }
    } else {
      var steps := WrongBioFails(q, bio, ws, xs);
    }
  }
}
