/** Requests grown by merging: segment counts kept step by step, and the bound they keep. */
module RequestMerge {
  import opened Segments

  /** A unit of submitted work.  `vecs` are the pieces still to transfer; `segs`, `front`
      and `back` are its segment count, trusted when `valid`, and the sizes of its outer
      segments. */
  datatype Bio = Bio(sector: nat, vecs: seq<Vec>, valid: bool, segs: int, front: nat, back: nat)

  datatype Req = Req(bios: seq<Bio>, segs: int, len: nat, pos: nat, write: bool,
                     special: bool, nomerge: bool, pc: bool)

  function Max(a: nat, b: nat): nat { if a < b then b else a }

  function Sectors(len: nat): nat { len / 512 }

  function AllVecs(bios: seq<Bio>): seq<Vec> {
    if bios == [] then [] else AllVecs(bios[..|bios| - 1]) + bios[|bios| - 1].vecs
  }

  // ----- Counting --------------------------------------------------------------------

  /** The first bio's front size and the last one's back size, raised to those of a split. */
  function Raised(bios: seq<Bio>, parts: Parts): seq<Bio>
    requires bios != [] && parts.Snoc?
  {
    var one := bios[0 := bios[0].(front := Max(bios[0].front, Size(First(parts))))];
    one[|one| - 1 := one[|one| - 1].(back := Max(one[|one| - 1].back, Size(parts.last)))]
  }

  /** The bios of a list after their segments have been counted. */
  function Recounted(q: Limits, bios: seq<Bio>): seq<Bio>
    requires bios != []
  {
    var parts := Split(q, true, AllVecs(bios));
    if parts.Nil? then bios else Raised(bios, parts)
  }

  function SegmentCount(q: Limits, bios: seq<Bio>): nat { Count(Split(q, true, AllVecs(bios))) }

  /** A bio whose count can be trusted: counted now unless it was before. */
  function Valid(q: Limits, bio: Bio): Bio {
    if bio.valid then bio
    else Recounted(q, [bio])[0].(segs := SegmentCount(q, [bio]), valid := true)
  }

  // ----- Merging ---------------------------------------------------------------------

  function SectorLimit(q: Limits, req: Req): nat { if req.pc then q.maxHwSectors else q.maxSectors }

  /** Whether two bios in a row can share a segment, by their recorded sizes. */
  predicate Contiguous(q: Limits, bio: Bio, next: Bio)
    requires bio.vecs != [] && next.vecs != []
  {
    q.cluster && bio.back + next.front <= q.maxSize && Joins(q, bio.vecs[|bio.vecs| - 1], next.vecs[0])
  }

  /** Room for one more bio's segments, which are then counted in; if there is none the
      request takes no more merges. */
  function AddSegments(q: Limits, req: Req, bio: Bio): (Req, bool) {
    if req.segs + bio.segs > q.maxSegs then (req.(nomerge := true), false)
    else (req.(segs := req.segs + bio.segs), true)
  }

  function BackMerge(q: Limits, req: Req, bio: Bio): (Req, bool)
    requires req.bios != []
  {
    if Sectors(req.len) + Sectors(Size(bio.vecs)) > SectorLimit(q, req) then (req.(nomerge := true), false)
    else
      var n := |req.bios| - 1;
      var counted := req.(bios := req.bios[n := Valid(q, req.bios[n])]);
      var more := Valid(q, bio);
      var (r, ok) := AddSegments(q, counted, more);
      if ok then (r.(bios := r.bios + [more], len := r.len + Size(bio.vecs)), true) else (r, false)
  }

  function FrontMerge(q: Limits, req: Req, bio: Bio): (Req, bool)
    requires req.bios != []
  {
    if Sectors(req.len) + Sectors(Size(bio.vecs)) > SectorLimit(q, req) then (req.(nomerge := true), false)
    else
      var more := Valid(q, bio);
      var counted := req.(bios := req.bios[0 := Valid(q, req.bios[0])]);
      var (r, ok) := AddSegments(q, counted, more);
      if ok then (r.(bios := [more] + r.bios, len := r.len + Size(bio.vecs), pos := bio.sector), true) else (r, false)
  }

  predicate Mergeable(req: Req) { !req.nomerge && !req.pc }

  /** Whether two requests may be considered for a merge at all. */
  predicate Neighbours(req: Req, next: Req) {
    && Mergeable(req) && Mergeable(next)
    && req.pos + Sectors(req.len) == next.pos
    && req.write == next.write && !next.special && !req.special
  }

  /** The first request's first front size and the second's last back size, set to the
      size of the segment they would share. */
  function Shared(req: Req, next: Req, size: nat): (Req, Req)
    requires req.bios != [] && next.bios != []
  {
    (if req.segs == 1 then req.(bios := req.bios[0 := req.bios[0].(front := size)]) else req,
     if next.segs == 1 then next.(bios := next.bios[|next.bios| - 1 := next.bios[|next.bios| - 1].(back := size)]) else next)
  }

  /** Appends the second request to the first; the sizes of the shared segment are recorded
      even when the merge is then refused. */
  function MergeRequests(q: Limits, req: Req, next: Req): (Req, Req, bool)
    requires req.bios != [] && next.bios != []
    requires req.bios[|req.bios| - 1].vecs != [] && next.bios[0].vecs != []
  {
    var tail, head := req.bios[|req.bios| - 1], next.bios[0];
    if !Neighbours(req, next) || Sectors(req.len) + Sectors(next.len) > q.maxSectors then (req, next, false)
    else
      var contig := Contiguous(q, tail, head);
      var (r, n) := if contig then Shared(req, next, tail.back + head.front) else (req, next);
      var total := req.segs + next.segs - (if contig then 1 else 0);
      if total > q.maxSegs then (r, n, false)
      else (r.(bios := r.bios + n.bios, segs := total, len := r.len + n.len), n, true)
  }

  /** A request made of one bio. */
  function Prepared(q: Limits, bio: Bio, write: bool): Req {
    var b := Valid(q, bio);
    Req([b], b.segs, Size(b.vecs), b.sector, write, false, false, false)
  }

  // ----- What the counts mean --------------------------------------------------------

  ghost predicate HasData(bios: seq<Bio>) {
    bios != [] && forall i :: 0 <= i < |bios| ==> bios[i].vecs != []
  }

  /** A count that is trusted is borne out by some split. */
  ghost predicate BioOk(q: Limits, bio: Bio) {
    bio.vecs != [] && (bio.valid ==> Bounded(q, bio.vecs, bio.segs, bio.front, bio.back))
  }

  ghost predicate ReqOk(q: Limits, req: Req) {
    && HasData(req.bios)
    && req.len == Size(AllVecs(req.bios))
    && Bounded(q, AllVecs(req.bios), req.segs, req.bios[0].front, req.bios[|req.bios| - 1].back)
  }

  // ----- Lemmas ----------------------------------------------------------------------

  lemma {:induction false} AllVecsConcat(a: seq<Bio>, b: seq<Bio>)
    ensures AllVecs(a + b) == AllVecs(a) + AllVecs(b)
  {
    if b == [] {
      assert a + b == a;
    } else {
      var less, last := b[..|b| - 1], b[|b| - 1];
      assert a + b == (a + less) + [last] && b == less + [last];
      hide AllVecs;
      AllVecsConcat(a, less);
      AllVecsLast(a + less, last);
      AllVecsLast(less, last);
    }
  }

  lemma AllVecsLast(a: seq<Bio>, last: Bio)
    ensures AllVecs(a + [last]) == AllVecs(a) + last.vecs
  {
    assert (a + [last])[..|a|] == a;
  }

  lemma AllVecsOne(bio: Bio)
    ensures AllVecs([bio]) == bio.vecs
  {
    assert AllVecs([bio][..0]) == [];
  }

  ghost predicate SamePieces(a: seq<Bio>, b: seq<Bio>) {
    |a| == |b| && forall i :: 0 <= i < |a| ==> a[i].vecs == b[i].vecs
  }

  lemma {:induction false} AllVecsSame(a: seq<Bio>, b: seq<Bio>)
    requires SamePieces(a, b)
    ensures AllVecs(a) == AllVecs(b)
  {
    if a != [] {
      AllVecsSame(a[..|a| - 1], b[..|b| - 1]);
    }
  }

  /** Counting afresh establishes the bound, whatever was recorded before. */
  lemma RecountEstablishes(q: Limits, bios: seq<Bio>)
    requires HasData(bios)
    ensures SamePieces(Recounted(q, bios), bios)
    ensures Recounted(q, bios)[0].front >= bios[0].front
    ensures Recounted(q, bios)[|bios| - 1].back >= bios[|bios| - 1].back
    ensures Bounded(q, AllVecs(bios), SegmentCount(q, bios), Recounted(q, bios)[0].front,
                    Recounted(q, bios)[|bios| - 1].back)
  {
    hide Segmented, Size, Split, AllVecs, Raised;
    var vecs := AllVecs(bios);
    var parts := Split(q, true, vecs);
    SplitIsSegmented(q, true, vecs);
    DataPieces(bios);
    RaisedFacts(bios, parts);
    var to := Recounted(q, bios);
    assert Counted(q, parts, vecs, Count(parts), to[0].front, to[|bios| - 1].back);
  }

  lemma DataPieces(bios: seq<Bio>)
    requires HasData(bios)
    ensures AllVecs(bios) != []
  {
  }

  lemma RaisedFacts(bios: seq<Bio>, parts: Parts)
    requires bios != [] && parts.Snoc?
    ensures var to := Raised(bios, parts);
            && SamePieces(to, bios)
            && to[0].front >= bios[0].front && to[0].front >= Size(First(parts))
            && to[|to| - 1].back >= bios[|bios| - 1].back && to[|to| - 1].back >= Size(parts.last)
  {
    hide Size;
  }

  lemma ValidIsBounded(q: Limits, bio: Bio)
    requires BioOk(q, bio)
    ensures var b := Valid(q, bio);
            b.valid && b.vecs == bio.vecs && Bounded(q, b.vecs, b.segs, b.front, b.back)
  {
    hide Bounded, Size, Split;
    if !bio.valid {
      RecountEstablishes(q, [bio]);
      AllVecsOne(bio);
    }
  }

  /** Counting one bio of a request only raises its sizes. */
  lemma ValidOnlyRaises(q: Limits, bio: Bio)
    requires bio.vecs != []
    ensures var b := Valid(q, bio); b.vecs == bio.vecs && b.front >= bio.front && b.back >= bio.back
  {
    hide Size, Split, Bounded;
    if !bio.valid {
      RecountEstablishes(q, [bio]);
    }
  }

  lemma ReplaceKeeps(q: Limits, req: Req, i: nat)
    requires ReqOk(q, req) && i < |req.bios|
    ensures ReqOk(q, req.(bios := req.bios[i := Valid(q, req.bios[i])]))
  {
    hide Size, Split, Bounded, Valid;
    var to := req.bios[i := Valid(q, req.bios[i])];
    ValidOnlyRaises(q, req.bios[i]);
    AllVecsSame(req.bios, to);
    BoundedGrows(q, AllVecs(req.bios), req.segs, req.bios[0].front, req.bios[|req.bios| - 1].back,
                 to[0].front, to[|to| - 1].back);
  }

  lemma DataEnds(bios: seq<Bio>)
    requires HasData(bios)
    ensures bios != [] && bios[0].vecs != [] && bios[|bios| - 1].vecs != []
  {
  }

  lemma OneHasData(bio: Bio)
    requires bio.vecs != []
    ensures HasData([bio])
  {
  }

  lemma SameCounted(q: Limits, bios: seq<Bio>, i: nat)
    requires HasData(bios) && i < |bios|
    ensures AllVecs(bios[i := Valid(q, bios[i])]) == AllVecs(bios)
  {
    hide Valid, AllVecs;
    ValidOnlyRaises(q, bios[i]);
    AllVecsSame(bios, bios[i := Valid(q, bios[i])]);
  }

  lemma BackMergeKeeps(q: Limits, req: Req, bio: Bio)
    requires ReqOk(q, req) && BioOk(q, bio)
    ensures ReqOk(q, BackMerge(q, req, bio).0)
    ensures AllVecs(BackMerge(q, req, bio).0.bios) == AllVecs(req.bios) + if BackMerge(q, req, bio).1 then bio.vecs else []
  {
    hide Size, Split, Bounded, Valid, AllVecs, HasData;
    DataEnds(req.bios);
    var (r, ok) := BackMerge(q, req, bio);
    if Sectors(req.len) + Sectors(Size(bio.vecs)) <= SectorLimit(q, req) {
      var n := |req.bios| - 1;
      var counted := req.bios[n := Valid(q, req.bios[n])];
      ReplaceKeeps(q, req, n);
      SameCounted(q, req.bios, n);
      if ok {
        ValidIsBounded(q, bio);
        AllVecsOne(Valid(q, bio));
        OneHasData(Valid(q, bio));
        AppendBios(q, counted, req.segs, [Valid(q, bio)], Valid(q, bio).segs);
      }
    }
  }

  lemma AppendBios(q: Limits, a: seq<Bio>, na: int, b: seq<Bio>, nb: int)
    requires HasData(a) && HasData(b)
    requires Bounded(q, AllVecs(a), na, a[0].front, a[|a| - 1].back)
    requires Bounded(q, AllVecs(b), nb, b[0].front, b[|b| - 1].back)
    ensures AllVecs(a + b) == AllVecs(a) + AllVecs(b) && Size(AllVecs(a + b)) == Size(AllVecs(a)) + Size(AllVecs(b))
    ensures HasData(a + b) && Bounded(q, AllVecs(a + b), na + nb, (a + b)[0].front, (a + b)[|a + b| - 1].back)
  {
    hide Bounded, AllVecs;
    AllVecsConcat(a, b);
    SizeConcat(AllVecs(a), AllVecs(b));
    BoundedAppend(q, AllVecs(a), na, a[0].front, a[|a| - 1].back, AllVecs(b), nb, b[0].front, b[|b| - 1].back);
  }

  lemma FrontMergeKeeps(q: Limits, req: Req, bio: Bio)
    requires ReqOk(q, req) && BioOk(q, bio)
    ensures ReqOk(q, FrontMerge(q, req, bio).0)
    ensures AllVecs(FrontMerge(q, req, bio).0.bios) == (if FrontMerge(q, req, bio).1 then bio.vecs else []) + AllVecs(req.bios)
  {
    hide Size, Split, Bounded, Valid, AllVecs, HasData;
    DataEnds(req.bios);
    var (r, ok) := FrontMerge(q, req, bio);
    if Sectors(req.len) + Sectors(Size(bio.vecs)) <= SectorLimit(q, req) {
      var counted := req.bios[0 := Valid(q, req.bios[0])];
      ReplaceKeeps(q, req, 0);
      SameCounted(q, req.bios, 0);
      if ok {
        ValidIsBounded(q, bio);
        AllVecsOne(Valid(q, bio));
        OneHasData(Valid(q, bio));
        AppendBios(q, [Valid(q, bio)], Valid(q, bio).segs, counted, req.segs);
      }
    }
  }

  lemma PreparedIsOk(q: Limits, bio: Bio, write: bool)
    requires BioOk(q, bio)
    ensures ReqOk(q, Prepared(q, bio, write)) && AllVecs(Prepared(q, bio, write).bios) == bio.vecs
  {
    hide Size, Split, Bounded, Valid;
    ValidIsBounded(q, bio);
    AllVecsOne(Valid(q, bio));
  }

  lemma HasDataSame(a: seq<Bio>, b: seq<Bio>)
    requires HasData(a) && SamePieces(a, b)
    ensures HasData(b) && AllVecs(b) == AllVecs(a)
  {
    AllVecsSame(a, b);
  }

  lemma HasDataConcat(a: seq<Bio>, b: seq<Bio>)
    requires HasData(a) && HasData(b)
    ensures HasData(a + b)
  {
  }

  /** With a single segment, its size as either outer segment is a bound for both. */
  lemma NewFrontKeeps(q: Limits, req: Req, size: nat)
    requires ReqOk(q, req) && req.segs == 1 && size >= req.bios[|req.bios| - 1].back
    ensures var r := req.(bios := req.bios[0 := req.bios[0].(front := size)]);
            ReqOk(q, r) && SamePieces(r.bios, req.bios)
  {
    hide Size, Split, Bounded, AllVecs;
    var r := req.(bios := req.bios[0 := req.bios[0].(front := size)]);
    HasDataSame(req.bios, r.bios);
    OnePart(q, AllVecs(req.bios), req.bios[0].front, req.bios[|req.bios| - 1].back, size, req.bios[|req.bios| - 1].back);
  }

  lemma NewBackKeeps(q: Limits, req: Req, size: nat)
    requires ReqOk(q, req) && req.segs == 1 && size >= req.bios[0].front
    ensures var r := req.(bios := req.bios[|req.bios| - 1 := req.bios[|req.bios| - 1].(back := size)]);
            ReqOk(q, r) && SamePieces(r.bios, req.bios)
  {
    hide Size, Split, Bounded, AllVecs;
    var r := req.(bios := req.bios[|req.bios| - 1 := req.bios[|req.bios| - 1].(back := size)]);
    HasDataSame(req.bios, r.bios);
    OnePart(q, AllVecs(req.bios), req.bios[0].front, req.bios[|req.bios| - 1].back, req.bios[0].front, size);
  }

  /** Recording the size of a shared segment keeps both bounds. */
  lemma SharedKeeps(q: Limits, req: Req, next: Req)
    requires ReqOk(q, req) && ReqOk(q, next)
    ensures var (r, n) := Shared(req, next, req.bios[|req.bios| - 1].back + next.bios[0].front);
            ReqOk(q, r) && ReqOk(q, n) && SamePieces(r.bios, req.bios) && SamePieces(n.bios, next.bios)
            && r.len == req.len && n.len == next.len
  {
    hide ReqOk;
    assert HasData(req.bios) && HasData(next.bios) by { OkHasData(q, req); OkHasData(q, next); }
    if req.segs == 1 {
      NewFrontKeeps(q, req, req.bios[|req.bios| - 1].back + next.bios[0].front);
    }
    if next.segs == 1 {
      NewBackKeeps(q, next, req.bios[|req.bios| - 1].back + next.bios[0].front);
    }
  }

  lemma OkHasData(q: Limits, req: Req)
    requires ReqOk(q, req)
    ensures HasData(req.bios)
  {
  }

  lemma OuterPieces(bios: seq<Bio>)
    requires HasData(bios)
    ensures AllVecs(bios) != [] && AllVecs(bios)[0] == bios[0].vecs[0]
    ensures AllVecs(bios)[|AllVecs(bios)| - 1] == bios[|bios| - 1].vecs[|bios[|bios| - 1].vecs| - 1]
  {
    AllVecsOne(bios[0]);
    AllVecsConcat([bios[0]], bios[1..]);
    assert [bios[0]] + bios[1..] == bios;
  }

  /** The merged list of a contiguous pair: one segment less, with the recorded sizes. */
  lemma ContiguousJoin(q: Limits, req: Req, next: Req)
    requires ReqOk(q, req) && ReqOk(q, next)
    requires Contiguous(q, req.bios[|req.bios| - 1], next.bios[0])
    ensures var (r, n) := Shared(req, next, req.bios[|req.bios| - 1].back + next.bios[0].front);
            Bounded(q, AllVecs(req.bios) + AllVecs(next.bios), req.segs + next.segs - 1,
                    r.bios[0].front, n.bios[|n.bios| - 1].back)
  {
    hide Size, Split, Bounded;
    var tail, head := req.bios[|req.bios| - 1], next.bios[0];
    OuterPieces(req.bios);
    OuterPieces(next.bios);
    BoundedJoin(q, AllVecs(req.bios), req.segs, req.bios[0].front, tail.back,
                AllVecs(next.bios), next.segs, head.front, next.bios[|next.bios| - 1].back);
  }

  lemma MergeRequestsKeeps(q: Limits, req: Req, next: Req)
    requires ReqOk(q, req) && ReqOk(q, next)
    ensures var (r, n, ok) := MergeRequests(q, req, next);
            ReqOk(q, r) && ReqOk(q, n) && AllVecs(n.bios) == AllVecs(next.bios)
            && AllVecs(r.bios) == AllVecs(req.bios) + if ok then AllVecs(next.bios) else []
  {
    hide Size, Split, Bounded, Contiguous, Shared, Neighbours, AllVecs, HasData;
    DataEnds(req.bios);
    DataEnds(next.bios);
    var (r, n, ok) := MergeRequests(q, req, next);
    var tail, head := req.bios[|req.bios| - 1], next.bios[0];
    if Contiguous(q, tail, head) {
      SharedKeeps(q, req, next);
      ContiguousJoin(q, req, next);
      var (r', n') := Shared(req, next, tail.back + head.front);
      AllVecsSame(r'.bios, req.bios);
      AllVecsSame(n'.bios, next.bios);
      HasDataConcat(r'.bios, n'.bios);
      AllVecsConcat(r'.bios, n'.bios);
      SizeConcat(AllVecs(r'.bios), AllVecs(n'.bios));
    } else if ok {
      AppendBios(q, req.bios, req.segs, next.bios, next.segs);
    }
  }

  /** A merge is made exactly when the sectors and the segments of both together are within
      the limits, and changes neither count nor length when it is refused. */
  lemma MergesWithinLimits(q: Limits, req: Req, bio: Bio)
    requires req.bios != []
    ensures var fits := && Sectors(req.len) + Sectors(Size(bio.vecs)) <= SectorLimit(q, req)
                        && req.segs + Valid(q, bio).segs <= q.maxSegs;
            forall m | m in [BackMerge(q, req, bio), FrontMerge(q, req, bio)] ::
              && m.1 == fits && (m.0.nomerge == (req.nomerge || !fits))
              && m.0.segs == req.segs + (if fits then Valid(q, bio).segs else 0)
              && m.0.len == req.len + (if fits then Size(bio.vecs) else 0)
  {
    hide Size, Valid;
  }

  /** The same for two requests: merged exactly when they follow one another, may merge, and
      together are within both limits, a segment that they share counted once. */
  lemma PairsWithinLimits(q: Limits, req: Req, next: Req)
    requires HasData(req.bios) && HasData(next.bios)
    ensures var (r, _, ok) := MergeRequests(q, req, next);
            var total := req.segs + next.segs - if Contiguous(q, req.bios[|req.bios| - 1], next.bios[0]) then 1 else 0;
            && (ok <==> Neighbours(req, next) && Sectors(req.len) + Sectors(next.len) <= q.maxSectors && total <= q.maxSegs)
            && r.segs == (if ok then total else req.segs)
            && r.len == (if ok then req.len + next.len else req.len)
            && r.pos == req.pos
  {
    hide Contiguous;
  }
}
