/** The loops that count and map segments, and the request they keep up to date in place. */
module SegmentLoops {
  import opened Segments
  import opened RequestMerge
  import opened MergeRuns

  lemma PiecesStep(bios: seq<Bio>, i: nat, j: nat)
    requires i < |bios| && j < |bios[i].vecs|
    ensures AllVecs(bios[..i]) + bios[i].vecs[..j + 1] == (AllVecs(bios[..i]) + bios[i].vecs[..j]) + [bios[i].vecs[j]]
  {
  }

  lemma BioStep(bios: seq<Bio>, i: nat)
    requires i < |bios|
    ensures AllVecs(bios[..i + 1]) == AllVecs(bios[..i]) + bios[i].vecs[..|bios[i].vecs|]
  {
    assert bios[..i + 1] == bios[..i] + [bios[i]];
    AllVecsLast(bios[..i], bios[i]);
  }

  /** Where the counting loop stands: the split of the pieces seen so far, summed up. */
  ghost predicate Tracks(parts: Parts, nr: int, segSize: nat, prev: Vec, highPrev: bool, front0: nat, front: nat) {
    && nr == Count(parts)
    && (parts.Nil? ==> highPrev && segSize == 0)
    && (parts.Snoc? ==> parts.last != [] && prev == parts.last[|parts.last| - 1] && highPrev == prev.high
                        && segSize == Size(parts.last))
    && front == (if nr > 1 then Max(front0, Size(First(parts))) else front0)
  }

  lemma TracksJoin(q: Limits, parts: Parts, nr: int, segSize: nat, prev: Vec, highPrev: bool, front0: nat, front: nat, v: Vec)
    requires Tracks(parts, nr, segSize, prev, highPrev, front0, front)
    requires !v.high && !highPrev && q.cluster && segSize + v.len <= q.maxSize && Joins(q, prev, v)
    ensures Tracks(AddPiece(q, true, parts, v), nr, segSize + v.len, v, highPrev, front0, front)
  {
    hide Joins;
    assert (parts.last + [v])[..|parts.last|] == parts.last;
    OneIsBoth(parts);
  }

  lemma TracksNew(q: Limits, parts: Parts, nr: int, segSize: nat, prev: Vec, highPrev: bool, front0: nat, front: nat, v: Vec)
    requires Tracks(parts, nr, segSize, prev, highPrev, front0, front)
    requires v.high || highPrev || !q.cluster || segSize + v.len > q.maxSize || !Joins(q, prev, v)
    ensures Tracks(AddPiece(q, true, parts, v), nr + 1, v.len, v, v.high, front0,
                   if nr == 1 && segSize > front then segSize else front)
  {
    hide Joins;
    SizeOne(v);
    if parts.Snoc? {
      OneIsBoth(parts);
    }
  }

  /** Counts the segments of a list of bios and raises the recorded sizes of its ends. */
  method CountSegments(q: Limits, bios: seq<Bio>) returns (nr: int, out: seq<Bio>)
    requires bios != []
    ensures nr == SegmentCount(q, bios) && out == Recounted(q, bios)
  {
    hide Joins, Size, Split, Tracks, AllVecs;
    var segSize: nat, highPrev, prev := 0, true, Vec(0, 0, false);
    var front: nat := bios[0].front;
    nr := 0;
    var i := 0;
    Nothing(q, bios, front);
    while i < |bios|
      invariant 0 <= i <= |bios|
      invariant Tracks(Split(q, true, AllVecs(bios[..i])), nr, segSize, prev, highPrev, bios[0].front, front)
    {
      var j := 0;
      assert AllVecs(bios[..i]) + bios[i].vecs[..0] == AllVecs(bios[..i]);
      while j < |bios[i].vecs|
        invariant 0 <= j <= |bios[i].vecs|
        invariant Tracks(Split(q, true, AllVecs(bios[..i]) + bios[i].vecs[..j]), nr, segSize, prev, highPrev, bios[0].front, front)
      {
        var v := bios[i].vecs[j];
        ghost var seen := AllVecs(bios[..i]) + bios[i].vecs[..j];
        ghost var parts := Split(q, true, seen);
        PiecesStep(bios, i, j);
        SplitStep(q, true, seen, v);
        if !v.high && !highPrev && q.cluster && segSize + v.len <= q.maxSize && Joins(q, prev, v) {
          TracksJoin(q, parts, nr, segSize, prev, highPrev, bios[0].front, front, v);
          segSize := segSize + v.len;
          prev := v;
        } else {
          TracksNew(q, parts, nr, segSize, prev, highPrev, bios[0].front, front, v);
          if nr == 1 && segSize > front {
            front := segSize;
          }
          nr := nr + 1;
          prev := v;
          segSize := v.len;
          highPrev := v.high;
        }
        j := j + 1;
      }
      BioStep(bios, i);
      i := i + 1;
    }
    assert bios[..|bios|] == bios;
    CountEnds(q, bios, nr, segSize, prev, highPrev, front);
    if nr == 1 && segSize > front {
      front := segSize;
    }
    out := bios[0 := bios[0].(front := front)];
    if segSize > out[|out| - 1].back {
      out := out[|out| - 1 := out[|out| - 1].(back := segSize)];
    }
  }

  lemma Nothing(q: Limits, bios: seq<Bio>, front: nat)
    ensures Tracks(Split(q, true, AllVecs(bios[..0])), 0, 0, Vec(0, 0, false), true, front, front)
  {
  }

  lemma CountEnds(q: Limits, bios: seq<Bio>, nr: int, segSize: nat, prev: Vec, highPrev: bool, front: nat)
    requires bios != []
    requires Tracks(Split(q, true, AllVecs(bios)), nr, segSize, prev, highPrev, bios[0].front, front)
    ensures nr == SegmentCount(q, bios)
    ensures var f := if nr == 1 && segSize > front then segSize else front;
            var one := bios[0 := bios[0].(front := f)];
            Recounted(q, bios) == (if segSize > one[|one| - 1].back then one[|one| - 1 := one[|one| - 1].(back := segSize)] else one)
  {
    hide Size, Split, AllVecs;
    var parts := Split(q, true, AllVecs(bios));
    if parts.Snoc? {
      OneIsBoth(parts);
    }
  }

  // ----- The scatter-gather list -----------------------------------------------------

  lemma AddEntryIsPiece(q: Limits, parts: Parts, v: Vec)
    requires parts.Snoc? ==> parts.last != []
    ensures var sg := Entries(parts);
            Entries(AddPiece(q, false, parts, v)) ==
              if parts.Snoc? && q.cluster && sg[|sg| - 1].len + v.len <= q.maxSize && Joins(q, parts.last[|parts.last| - 1], v)
              then sg[|sg| - 1 := sg[|sg| - 1].(len := sg[|sg| - 1].len + v.len)]
              else sg + [Entry(v.phys, v.len)]
  {
    hide Joins;
    SizeOne(v);
    if parts.Snoc? {
      assert (parts.last + [v])[..|parts.last|] == parts.last;
    }
  }

  /** The last piece of a split is the last part's last. */
  ghost predicate EndsWith(parts: Parts, started: bool, prev: Vec) {
    && started == parts.Snoc?
    && (parts.Snoc? ==> parts.last != [] && prev == parts.last[|parts.last| - 1])
  }

  lemma AddPieceEnds(q: Limits, parts: Parts, v: Vec)
    ensures EndsWith(AddPiece(q, false, parts, v), true, v)
  {
  }

  /** Maps the data of a list of bios: the greedy split, as entries. */
  method MapBios(q: Limits, bios: seq<Bio>) returns (sg: seq<Entry>)
    ensures sg == Entries(Split(q, false, AllVecs(bios)))
  {
    hide Joins, Size, Split, AllVecs, Entries, AddPiece;
    var started, prev := false, Vec(0, 0, false);
    sg := [];
    var i := 0;
    NothingMapped(q, bios);
    while i < |bios|
      invariant 0 <= i <= |bios|
      invariant sg == Entries(Split(q, false, AllVecs(bios[..i])))
      invariant EndsWith(Split(q, false, AllVecs(bios[..i])), started, prev)
    {
      var j := 0;
      assert AllVecs(bios[..i]) + bios[i].vecs[..0] == AllVecs(bios[..i]);
      while j < |bios[i].vecs|
        invariant 0 <= j <= |bios[i].vecs|
        invariant sg == Entries(Split(q, false, AllVecs(bios[..i]) + bios[i].vecs[..j]))
        invariant EndsWith(Split(q, false, AllVecs(bios[..i]) + bios[i].vecs[..j]), started, prev)
      {
        var v := bios[i].vecs[j];
        ghost var seen := AllVecs(bios[..i]) + bios[i].vecs[..j];
        PiecesStep(bios, i, j);
        SplitStep(q, false, seen, v);
        AddEntryIsPiece(q, Split(q, false, seen), v);
        AddPieceEnds(q, Split(q, false, seen), v);
        EntryCount(Split(q, false, seen));
        if started && q.cluster && sg[|sg| - 1].len + v.len <= q.maxSize && Joins(q, prev, v) {
          sg := sg[|sg| - 1 := sg[|sg| - 1].(len := sg[|sg| - 1].len + v.len)];
        } else {
          sg := sg + [Entry(v.phys, v.len)];
        }
        started := true;
        prev := v;
        j := j + 1;
      }
      BioStep(bios, i);
      i := i + 1;
    }
    assert bios[..|bios|] == bios;
  }

  lemma NothingMapped(q: Limits, bios: seq<Bio>)
    ensures Entries(Split(q, false, AllVecs(bios[..0]))) == [] && Split(q, false, AllVecs(bios[..0])).Nil?
  {
  }

  lemma EntryCount(parts: Parts)
    ensures parts.Snoc? ==> Entries(parts) != []
  {
  }

  // ----- The request -----------------------------------------------------------------

  class Request {
    var bios: seq<Bio>
    var segs: int
    var len: nat
    var pos: nat
    const write: bool
    var special: bool
    var nomerge: bool
    const pc: bool

    ghost function View(): Req
      reads this
    {
      Req(bios, segs, len, pos, write, special, nomerge, pc)
    }

    /** A request for one bio. */
    constructor (q: Limits, bio: Bio, write: bool)
      requires bio.vecs != []
      ensures View() == Prepared(q, bio, write)
    {
      var b := Trusted(q, bio);
      this.bios, this.segs, this.len, this.pos := [b], b.segs, Size(b.vecs), b.sector;
      this.write, this.special, this.nomerge, this.pc := write, false, false, false;
    }

    /** Counts the request's segments afresh. */
    method Recalculate(q: Limits)
      requires bios != []
      modifies this`bios, this`segs
      ensures bios == Recounted(q, old(bios)) && segs == SegmentCount(q, old(bios))
    {
      segs, bios := CountSegments(q, bios);
    }

    /** Fills the list given to the hardware.  A request whose count is borne out needs no
        more entries than it counts, and they hold its bytes in order. */
    method MapSg(q: Limits) returns (sg: seq<Entry>)
      ensures sg == Entries(Split(q, false, AllVecs(bios)))
      ensures ReqOk(q, View()) ==> |sg| <= segs && EntryBytes(sg) == Bytes(AllVecs(bios))
    {
      hide Split, AllVecs, Entries, ReqOk, Bytes, EntryBytes;
      sg := MapBios(q, bios);
      if ReqOk(q, View()) {
        OkMaps(q, View());
      }
    }

    /** Appends a bio if the request has room for it. */
    method BackMerge(q: Limits, bio: Bio) returns (ok: bool)
      requires HasData(bios) && bio.vecs != []
      modifies this
      ensures (View(), ok) == RequestMerge.BackMerge(q, old(View()), bio)
    {
      hide Size, Valid;
      if Sectors(len) + Sectors(Size(bio.vecs)) > (if pc then q.maxHwSectors else q.maxSectors) {
        nomerge := true;
        return false;
      }
      var tail := Trusted(q, bios[|bios| - 1]);
      bios := bios[|bios| - 1 := tail];
      var more := Trusted(q, bio);
      if segs + more.segs > q.maxSegs {
        nomerge := true;
        return false;
      }
      segs := segs + more.segs;
      bios := bios + [more];
      len := len + Size(bio.vecs);
      return true;
    }

    /** Puts a bio before the request's data if there is room for it. */
    method FrontMerge(q: Limits, bio: Bio) returns (ok: bool)
      requires HasData(bios) && bio.vecs != []
      modifies this
      ensures (View(), ok) == RequestMerge.FrontMerge(q, old(View()), bio)
    {
      hide Size, Valid;
      if Sectors(len) + Sectors(Size(bio.vecs)) > (if pc then q.maxHwSectors else q.maxSectors) {
        nomerge := true;
        return false;
      }
      var more := Trusted(q, bio);
      var head := Trusted(q, bios[0]);
      bios := bios[0 := head];
      if segs + more.segs > q.maxSegs {
        nomerge := true;
        return false;
      }
      segs := segs + more.segs;
      bios := [more] + bios;
      pos := bio.sector;
      len := len + Size(bio.vecs);
      return true;
    }

    /** Appends the data of a neighbouring request. */
    method Absorb(q: Limits, next: Request) returns (ok: bool)
      requires next != this && HasData(bios) && HasData(next.bios)
      modifies this, next`bios
      ensures (View(), next.View(), ok) == MergeRequests(q, old(View()), old(next.View()))
    {
      hide Joins;
      if nomerge || pc || next.nomerge || next.pc || pos + Sectors(len) != next.pos
         || write != next.write || next.special {
        return false;
      }
      var size := bios[|bios| - 1].back + next.bios[0].front;
      if special || next.special || Sectors(len) + Sectors(next.len) > q.maxSectors {
        return false;
      }
      var total := segs + next.segs;
      if Contiguous(q, bios[|bios| - 1], next.bios[0]) {
        if segs == 1 {
          bios := bios[0 := bios[0].(front := size)];
        }
        if next.segs == 1 {
          next.bios := next.bios[|next.bios| - 1 := next.bios[|next.bios| - 1].(back := size)];
        }
        total := total - 1;
      }
      if total > q.maxSegs {
        return false;
      }
      segs := total;
      bios := bios + next.bios;
      len := len + next.len;
      return true;
    }
  }

  /** A bio whose count can be trusted. */
  method Trusted(q: Limits, bio: Bio) returns (b: Bio)
    requires bio.vecs != []
    ensures b == Valid(q, bio) && b.vecs == bio.vecs && b.sector == bio.sector
  {
    hide Size, Split, AllVecs;
    b := bio;
    if !bio.valid {
      var nr, out := CountSegments(q, [bio]);
      b := out[0].(segs := nr, valid := true);
    }
  }
}
