/** Growing a bio page by page: when its recorded sizes stay good for merging, and what
    happens when they do not. */
module BioPages {
  import opened Segments
  import opened SegmentCosts
  import opened RequestMerge
  import opened MergeRuns
  import opened MergeNeeds
  import opened SegmentLoops

  const PAGE := 4096

  /** No gap between two pieces. */
  predicate Adjacent(a: Vec, b: Vec) { a.phys + a.len == b.phys }

  /** A piece that goes on in the page where the last one ends. */
  predicate Continues(vecs: seq<Vec>, v: Vec) {
    vecs != [] && Adjacent(vecs[|vecs| - 1], v) && vecs[|vecs| - 1].phys / PAGE == v.phys / PAGE
  }

  /** The last piece made longer. */
  function Longer(vecs: seq<Vec>, len: nat): seq<Vec>
    requires vecs != []
  {
    var last := vecs[|vecs| - 1];
    vecs[|vecs| - 1 := last.(len := last.len + len)]
  }

  /** Counted once more if it has reached the limit. */
  function Recheck(q: Limits, bio: Bio): Bio {
    if bio.segs >= q.maxSegs then Recounted(q, [bio])[0].(segs := SegmentCount(q, [bio]), valid := true) else bio
  }

  /** More data for a bio of at most `limit` sectors and `slots` pieces; `allowed` is what the
      driver's own check says.  Data that goes on in the last page makes the last piece longer
      and changes nothing else.  Other data is a piece of its own, refused if the segments are
      used up; next to the last piece it makes the count untrusted. */
  function AddPage(q: Limits, bio: Bio, v: Vec, limit: nat, slots: nat, allowed: bool): (Bio, bool) {
    if Sectors(Size(bio.vecs) + v.len) > limit then (bio, false)
    else if Continues(bio.vecs, v) then
      if allowed then (bio.(vecs := Longer(bio.vecs, v.len)), true) else (bio, false)
    else if |bio.vecs| >= slots then (bio, false)
    else
      var b := Recheck(q, bio);
      if b.segs >= q.maxSegs || !allowed then (b, false)
      else
        (b.(vecs := b.vecs + [v], segs := b.segs + 1,
            valid := b.valid && !(b.vecs != [] && Adjacent(b.vecs[|b.vecs| - 1], v))), true)
  }

  lemma RecheckKeeps(q: Limits, bio: Bio)
    requires BioOk(q, bio)
    ensures BioOk(q, Recheck(q, bio)) && Recheck(q, bio).vecs == bio.vecs
  {
    hide Bounded, Size, Split;
    RecountEstablishes(q, [bio]);
    AllVecsOne(bio);
  }

  /** Whatever way the data is added, a bio that is still trusted is right exactly when the
      pieces it now has cost no more than it counts, given the sizes recorded for its outer
      segments, which nothing updates. */
  lemma AddPageKeepsIff(q: Limits, bio: Bio, v: Vec, limit: nat, slots: nat, allowed: bool)
    requires bio.vecs == [] || BioOk(q, bio)
    ensures var (b, ok) := AddPage(q, bio, v, limit, slots, allowed);
      && (ok ==> b.vecs != [])
      && (b.vecs != [] ==> (BioOk(q, b) <==> !ok || !b.valid || Cost(q, b.vecs, b.front, b.back) <= b.segs))
  {
    hide Bounded, Size, Split, Cost, Recheck;
    var (b, ok) := AddPage(q, bio, v, limit, slots, allowed);
    if bio.vecs != [] {
      RecheckKeeps(q, bio);
    }
    if b.vecs != [] {
      BoundedIff(q, b.vecs, b.segs, b.front, b.back);
    }
    EmptyRecheck(q, bio);
  }

  lemma EmptyRecheck(q: Limits, bio: Bio)
    ensures bio.vecs == [] ==> Recheck(q, bio).vecs == []
  {
    AllVecsOne(bio);
  }

  // ----- A last piece that stands alone ----------------------------------------------

  lemma LongPartJoins(q: Limits, parts: Parts)
    requires Segmented(q, parts) && parts.Snoc? && |parts.last| > 1
    ensures var all := Flatten(parts); |all| >= 2 && Adjacent(all[|all| - 2], all[|all| - 1])
  {
    var p, all := parts.last, Flatten(parts);
    assert Joins(q, p[|p| - 2], p[|p| - 1]);
    assert p[|p| - 2] == all[|all| - 2] && p[|p| - 1] == all[|all| - 1];
  }

  /** A piece that is not next to the last one is a part by itself in every segmentation. */
  lemma LastPartAlone(q: Limits, parts: Parts, vecs: seq<Vec>, v: Vec)
    requires Segmented(q, parts) && Flatten(parts) == vecs + [v] && vecs != [] && !Adjacent(vecs[|vecs| - 1], v)
    ensures parts.Snoc? && parts.last == [v]
  {
    hide Segmented;
    assert parts.Snoc?;
    Edges(q, parts);
    assert |parts.last| == 1 by {
      if |parts.last| > 1 {
        LongPartJoins(q, parts);
      }
    }
  }

  lemma OneMore(q: Limits, parts: Parts, v: Vec)
    requires Segmented(q, parts) && parts.Snoc?
    ensures var more := Snoc(parts, [v]);
            && Segmented(q, more) && Flatten(more) == Flatten(parts) + [v] && Count(more) == Count(parts) + 1
            && First(more) == First(parts) && Size(more.last) == v.len
  {
    PieceIsSegment(q, v);
    SizeOne(v);
  }

  /** Such a piece costs a segment, and another one if it is larger than recorded. */
  lemma LoneCost(q: Limits, vecs: seq<Vec>, v: Vec, front: nat, back: nat)
    requires vecs != [] && !Adjacent(vecs[|vecs| - 1], v)
    ensures Cost(q, vecs + [v], front, back) == Cost(q, vecs, front, Size(vecs)) + 1 + if v.len > back then 1 else 0
  {
    hide Segmented, Segment, Size, Split, FrontSplit;
    var parts := FrontSplit(q, vecs, front);
    FrontSplitIsSplit(q, vecs, front);
    LastWithin(q, parts);
    OneMore(q, parts, v);
    CostIsLeast(q, Snoc(parts, [v]), front, back);
    var all := FrontSplit(q, vecs + [v], front);
    FrontSplitIsSplit(q, vecs + [v], front);
    LastPartAlone(q, all, vecs, v);
    InitFacts(q, all, vecs, v);
    LastWithin(q, all.init);
    CostIsLeast(q, all.init, front, Size(vecs));
    SizeOne(v);
  }

  lemma LastWithin(q: Limits, parts: Parts)
    requires Segmented(q, parts) && parts.Snoc?
    ensures Size(parts.last) <= Size(Flatten(parts))
  {
    SizeConcat(Flatten(parts.init), parts.last);
  }

  lemma InitFacts(q: Limits, parts: Parts, vecs: seq<Vec>, v: Vec)
    requires Segmented(q, parts) && Flatten(parts) == vecs + [v] && vecs != []
    requires parts.Snoc? && parts.last == [v]
    ensures Segmented(q, parts.init) && Flatten(parts.init) == vecs && parts.init.Snoc?
    ensures First(parts) == First(parts.init) && Count(parts) == Count(parts.init) + 1
  {
    hide Segment;
    assert Flatten(parts.init) == (vecs + [v])[..|vecs|];
  }

  lemma OneCost(q: Limits, v: Vec, front: nat, back: nat)
    ensures Cost(q, [v], front, back) == 1 + (if v.len > front then 1 else 0) + if v.len > back then 1 else 0
  {
    hide Segment, Size;
    var one := Snoc(Nil, [v]);
    SizeOne(v);
    assert Split(q, false, []) == Nil;
    assert [v][..0] == [] && [v][..1] == [v] && [v][1..] == [];
    assert FrontSplit(q, [v], front) == one;
    assert Count(one) == 1 && First(one) == [v];
  }

  lemma OpenCost(q: Limits, vecs: seq<Vec>, front: nat, back: nat)
    requires vecs != []
    ensures Cost(q, vecs, front, Size(vecs)) <= Cost(q, vecs, front, back)
  {
    hide Segmented, Size, FrontSplit;
    FrontSplitIsSplit(q, vecs, front);
    LastWithin(q, FrontSplit(q, vecs, front));
  }

  /** The pieces before the last one leave a counted segment over. */
  predicate Spare(q: Limits, bio: Bio)
    requires |bio.vecs| > 1
  {
    var rest := bio.vecs[..|bio.vecs| - 1];
    Cost(q, rest, bio.front, Size(rest)) + 1 < bio.segs
  }

  /** The pieces before the last one were right already. */
  lemma RestIsCounted(q: Limits, bio: Bio, v: Vec, limit: nat, slots: nat, allowed: bool)
    requires bio.vecs == [] || BioOk(q, bio)
    requires AddPage(q, bio, v, limit, slots, allowed).1
    requires var b := AddPage(q, bio, v, limit, slots, allowed).0;
      b.valid && |b.vecs| > 1 && !Adjacent(b.vecs[|b.vecs| - 2], b.vecs[|b.vecs| - 1])
    ensures var b := AddPage(q, bio, v, limit, slots, allowed).0;
      var rest := b.vecs[..|b.vecs| - 1]; Cost(q, rest, b.front, Size(rest)) + 1 <= b.segs
  {
    hide Bounded, Size, Split, Cost, Recheck;
    EmptyRecheck(q, bio);
    var b := AddPage(q, bio, v, limit, slots, allowed).0;
    var rest := b.vecs[..|b.vecs| - 1];
    if Continues(bio.vecs, v) {
      var last := bio.vecs[|bio.vecs| - 1];
      assert bio.vecs == rest + [last];
      BoundedIff(q, bio.vecs, bio.segs, bio.front, bio.back);
      LoneCost(q, rest, last, bio.front, bio.back);
    } else {
      RecheckKeeps(q, bio);
      var was := Recheck(q, bio);
      assert rest == was.vecs;
      BoundedIff(q, rest, was.segs, was.front, was.back);
      OpenCost(q, rest, was.front, was.back);
    }
  }

  /** Added by itself or grown in its page, a last piece that has a gap before it leaves a
      trusted bio right exactly when the size recorded for the last segment covers it or there
      is a segment to spare; the only piece, when both sizes cover it or there are as many
      segments to spare as do not. */
  lemma LonePieceKeepsIff(q: Limits, bio: Bio, v: Vec, limit: nat, slots: nat, allowed: bool)
    requires bio.vecs == [] || BioOk(q, bio)
    requires AddPage(q, bio, v, limit, slots, allowed).1
    ensures var b := AddPage(q, bio, v, limit, slots, allowed).0;
      && b.vecs != []
      && var n, last := |b.vecs|, b.vecs[|b.vecs| - 1];
      && (b.valid && n > 1 && !Adjacent(b.vecs[n - 2], last) ==>
            (BioOk(q, b) <==> last.len <= b.back || Spare(q, b)))
      && (b.valid && n == 1 ==>
            (BioOk(q, b) <==> 1 + (if last.len > b.front then 1 else 0) + (if last.len > b.back then 1 else 0) <= b.segs))
  {
    hide Bounded, Size, Split, Cost, Recheck;
    AddPageKeepsIff(q, bio, v, limit, slots, allowed);
    var b := AddPage(q, bio, v, limit, slots, allowed).0;
    var n, last := |b.vecs|, b.vecs[|b.vecs| - 1];
    if n == 1 {
      assert b.vecs == [last];
      OneCost(q, last, b.front, b.back);
    } else if b.valid && !Adjacent(b.vecs[n - 2], last) {
      assert b.vecs == b.vecs[..n - 1] + [last];
      LoneCost(q, b.vecs[..n - 1], last, b.front, b.back);
      RestIsCounted(q, bio, v, limit, slots, allowed);
    }
  }

  /** Any last piece, added by itself or grown in its page, joined to the one before or not:
      what counts is the last segment of the pieces before it and the recorded sizes. */
  lemma LastPieceKeepsIff(q: Limits, bio: Bio, v: Vec, limit: nat, slots: nat, allowed: bool)
    requires bio.vecs == [] || BioOk(q, bio)
    requires var (b, ok) := AddPage(q, bio, v, limit, slots, allowed); ok && b.valid && |b.vecs| > 1
    ensures var b := AddPage(q, bio, v, limit, slots, allowed).0;
      var rest, last := b.vecs[..|b.vecs| - 1], b.vecs[|b.vecs| - 1];
      var parts := FrontSplit(q, rest, b.front);
      var size := if GoesOn(q, rest, b.front, last) then Size(parts.last) + last.len else last.len;
      BioOk(q, b) <==>
        Count(parts) + (if GoesOn(q, rest, b.front, last) then 0 else 1)
        + (if rest[0].len > b.front then 1 else 0) + (if size > b.back then 1 else 0) <= b.segs
  {
    hide Bounded, Size, Split, Cost, Recheck, FrontSplit, GoesOn;
    AddPageKeepsIff(q, bio, v, limit, slots, allowed);
    var b := AddPage(q, bio, v, limit, slots, allowed).0;
    var rest, last := b.vecs[..|b.vecs| - 1], b.vecs[|b.vecs| - 1];
    assert b.vecs == rest + [last];
    LastPieceCost(q, rest, b.front, b.back, last);
  }

  // ----- What a size left behind can do ----------------------------------------------

  const SMALL := Limits(true, 8192, 3, 0x1_0000_0000, 1024, 1024)

  const A := Vec(0, 4096, false)
  const B := Vec(4096, 4096, false)
  const C := Vec(102400, 512, false)
  const D := Vec(204800, 4096, false)
  const X := Vec(208896, 4096, false)
  const Y := Vec(212992, 3584, false)

  /** Three pieces in two segments, the second of 512 bytes, and a fourth just added. */
  function Grown(): Bio { Bio(0, [A, B, C, D], true, 3, 8192, 512) }

  function Neighbour(): Bio { Bio(25, [X, Y], true, 1, 7680, 7680) }

  function ReqOf(b: Bio, len: nat): Req { Req([b], b.segs, len, b.sector, true, false, false, false) }

  lemma SplitTwo(q: Limits, counting: bool, a: Vec, b: Vec)
    ensures Split(q, counting, [a, b]) ==
            if Fits(q, counting, [a], b) then Snoc(Nil, [a, b]) else Snoc(Snoc(Nil, [a]), [b])
  {
    assert [a] == [] + [a] && [a, b] == [a] + [b];
    SplitStep(q, counting, [], a);
    SplitStep(q, counting, [a], b);
  }

  lemma Sizes()
    ensures Size([A]) == 4096 && Size([A, B]) == 8192 && Size([C]) == 512 && Size([D]) == 4096 && Size([D, X]) == 8192
  {
    SizeOne(A);
    SizeOne(C);
    SizeOne(D);
    SizeConcat([A], [B]);
    SizeConcat([D], [X]);
    SizeOne(B);
    SizeOne(X);
    assert [A] + [B] == [A, B] && [D] + [X] == [D, X];
  }

  lemma SplitThree(counting: bool)
    ensures Split(SMALL, counting, [A, B, C]) == Snoc(Snoc(Nil, [A, B]), [C])
  {
    Sizes();
    SplitTwo(SMALL, counting, A, B);
    hide Split, Size;
    SplitStep(SMALL, counting, [A, B], C);
    assert [A, B] + [C] == [A, B, C];
  }

  lemma SplitAll()
    ensures Split(SMALL, false, [A, B, C, D, X, Y]) == Snoc(Snoc(Snoc(Snoc(Nil, [A, B]), [C]), [D, X]), [Y])
  {
    hide Split, Size;
    Sizes();
    SplitThree(false);
    var abcd := [A, B, C] + [D];
    var abcdx := abcd + [X];
    SplitStep(SMALL, false, [A, B, C], D);
    SplitStep(SMALL, false, abcd, X);
    assert [D] + [X] == [D, X];
    SplitStep(SMALL, false, abcdx, Y);
    assert abcdx + [Y] == [A, B, C, D, X, Y];
  }

  /** The first three pieces, not counted yet, and what counting makes of them. */
  function Before(): Bio { Bio(0, [A, B, C], false, 3, 0, 0) }

  lemma BeforeCounted()
    ensures BioOk(SMALL, Before()) && Recheck(SMALL, Before()) == Bio(0, [A, B, C], true, 2, 8192, 512)
  {
    hide Split, Size, AllVecs;
    var parts := Snoc(Snoc(Nil, [A, B]), [C]);
    AllVecsOne(Before());
    SplitThree(true);
    Sizes();
    TwoParts([A, B], [C]);
    assert First(parts) == [A, B];
  }

  lemma BeforeSize()
    ensures Size([A, B, C]) == 8704 && Size([A, B, C, Vec(204800, 512, false)]) == 9216
  {
    Sizes();
    SizeConcat([A, B], [C]);
    SizeConcat([A, B, C], [Vec(204800, 512, false)]);
    SizeOne(Vec(204800, 512, false));
    assert [A, B] + [C] == [A, B, C];
    assert [A, B, C] + [Vec(204800, 512, false)] == [A, B, C, Vec(204800, 512, false)];
  }

  /** The bio is what adding the fourth piece makes of the first three: in one go, or half a
      kilobyte first, which keeps it right, and the rest of the page after that. */
  lemma GrownByAddPage()
    ensures BioOk(SMALL, Before()) && AddPage(SMALL, Before(), D, 1024, 16, true) == (Grown(), true)
    ensures var (half, ok) := AddPage(SMALL, Before(), Vec(204800, 512, false), 1024, 16, true);
      && ok && BioOk(SMALL, half) && half.valid
      && AddPage(SMALL, half, Vec(205312, 3584, false), 1024, 16, true) == (Grown(), true)
    ensures !BioOk(SMALL, Grown())
  {
    hide Split, Size, AllVecs, Recheck, BioOk;
    BeforeCounted();
    BeforeSize();
    var first := Vec(204800, 512, false);
    var half := Bio(0, [A, B, C, first], true, 3, 8192, 512);
    assert [A, B, C] + [first] == [A, B, C, first] && [A, B, C] + [D] == [A, B, C, D];
    assert AddPage(SMALL, Before(), first, 1024, 16, true) == (half, true);
    LonePieceKeepsIff(SMALL, Before(), first, 1024, 16, true);
    assert Longer(half.vecs, 3584) == [A, B, C, D];
    assert AddPage(SMALL, half, Vec(205312, 3584, false), 1024, 16, true) == (Grown(), true);
    LonePieceKeepsIff(SMALL, half, Vec(205312, 3584, false), 1024, 16, true);
    NothingSpare();
  }

  lemma NothingSpare()
    ensures !Spare(SMALL, Grown())
  {
    hide Segmented, Size, Split, FrontSplit;
    assert Grown().vecs[..3] == [A, B, C];
    var parts := FrontSplit(SMALL, [A, B, C], 8192);
    FrontSplitIsSplit(SMALL, [A, B, C], 8192);
    GreedyIsMinimal(SMALL, parts);
    SplitThree(false);
    TwoParts([A, B], [C]);
  }

  lemma TwoParts(p: seq<Vec>, r: seq<Vec>)
    ensures Count(Snoc(Snoc(Nil, p), r)) == 2
  {
    assert Count(Snoc(Nil, p)) == 1;
  }

  lemma MergedPair()
    ensures var (r, _, ok) := MergeRequests(SMALL, ReqOf(Grown(), 12800), ReqOf(Neighbour(), 7680));
            ok && r.segs == 3 && |r.bios| == 2 && r.bios[0].vecs == [A, B, C, D] && r.bios[1].vecs == [X, Y]
  {
    assert Contiguous(SMALL, Grown(), Neighbour());
  }

  /** Its last segment is taken for 512 bytes: merged with a request whose first segment then
      seems to fit, it counts three segments but maps to four. */
  lemma TooFewCounted()
    ensures var (r, _, ok) := MergeRequests(SMALL, ReqOf(Grown(), 12800), ReqOf(Neighbour(), 7680));
            ok && r.segs == 3 && |Entries(Split(SMALL, false, AllVecs(r.bios)))| == 4
  {
    hide Split, Size, AllVecs, MergeRequests;
    MergedPair();
    var (r, n, ok) := MergeRequests(SMALL, ReqOf(Grown(), 12800), ReqOf(Neighbour(), 7680));
    AllVecsOne(r.bios[0]);
    AllVecsOne(r.bios[1]);
    AllVecsConcat([r.bios[0]], [r.bios[1]]);
    assert [r.bios[0]] + [r.bios[1]] == r.bios;
    assert [A, B, C, D] + [X, Y] == [A, B, C, D, X, Y];
    SplitAll();
    var two := Snoc(Snoc(Nil, [A, B]), [C]);
    TwoParts([A, B], [C]);
    assert Count(Snoc(Snoc(two, [D, X]), [Y])) == 4;
  }

  /** The general result applies to it: some run with this bio and right ones maps a request
      to more entries than it counts. */
  lemma GrownFails() returns (steps: seq<Step>)
    ensures Fails(SMALL, Grown(), steps)
  {
    hide Split, Size, Fails, BioOk;
    GrownByAddPage();
    GrownRoom();
    steps := WrongBioFails(SMALL, Grown(), [], [X, Y]);
  }

  lemma GrownRoom()
    ensures Room(SMALL, Grown(), [], [X, Y])
  {
    hide Size;
    Sizes();
    SizeConcat([A, B, C], [D]);
    SizeConcat([X], [Y]);
    SizeOne(X);
    SizeOne(Y);
    BeforeSize();
    assert [A, B, C] + [D] == [A, B, C, D] && [X] + [Y] == [X, Y];
    assert Size([]) == 0 by { NoSize(); }
  }

  lemma NoSize()
    ensures Size([]) == 0
  {
  }
}
