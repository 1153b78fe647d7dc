/** Scatter-gather segments of a list of memory pieces: which pieces may share a segment, the
    greedy split, and why no split has fewer parts. */
module Segments {

  /** A piece of memory: where it starts, its bytes, and whether it may have to be bounced. */
  datatype Vec = Vec(phys: nat, len: nat, high: bool)

  /** What the hardware takes.  `span` is the segment boundary mask plus one. */
  datatype Limits = Limits(cluster: bool, maxSize: nat, maxSegs: nat, span: nat, maxSectors: nat, maxHwSectors: nat)

  function Size(p: seq<Vec>): nat {
    if p == [] then 0 else Size(p[..|p| - 1]) + p[|p| - 1].len
  }

  /** Two pieces in a row that one segment may hold: no gap, no boundary crossed. */
  predicate Joins(q: Limits, a: Vec, b: Vec) {
    && q.span > 0
    && a.phys + a.len == b.phys
    && a.phys / q.span == (b.phys + b.len - 1) / q.span
  }

  /** A piece that can go on with a segment.  When counting, pieces that may be bounced
      stay alone. */
  predicate Fits(q: Limits, counting: bool, p: seq<Vec>, v: Vec) {
    && q.cluster && p != []
    && (counting ==> !v.high && !p[|p| - 1].high)
    && Size(p) + v.len <= q.maxSize
    && Joins(q, p[|p| - 1], v)
  }

  /** A list cut into parts, built from the left. */
  datatype Parts = Nil | Snoc(init: Parts, last: seq<Vec>)

  /** The greedy split, piece by piece. */
  function Split(q: Limits, counting: bool, vecs: seq<Vec>): Parts {
    if vecs == [] then Nil
    else AddPiece(q, counting, Split(q, counting, vecs[..|vecs| - 1]), vecs[|vecs| - 1])
  }

  function AddPiece(q: Limits, counting: bool, parts: Parts, v: Vec): Parts {
    if parts.Snoc? && Fits(q, counting, parts.last, v) then Snoc(parts.init, parts.last + [v])
    else Snoc(parts, [v])
  }

  function Flatten(parts: Parts): seq<Vec> {
    match parts
    case Nil => []
    case Snoc(init, last) => Flatten(init) + last
  }

  function Count(parts: Parts): nat {
    match parts
    case Nil => 0
    case Snoc(init, _) => Count(init) + 1
  }

  /** A part the hardware can take as one segment. */
  ghost predicate Segment(q: Limits, p: seq<Vec>) {
    && p != []
    && (|p| > 1 ==> q.cluster && Size(p) <= q.maxSize)
    && forall i :: 0 < i < |p| ==> Joins(q, p[i - 1], p[i])
  }

  ghost predicate Segmented(q: Limits, parts: Parts) {
    parts.Snoc? ==> Segmented(q, parts.init) && Segment(q, parts.last)
  }

  // ----- Sizes -----------------------------------------------------------------------

  lemma {:induction false} SizeConcat(a: seq<Vec>, b: seq<Vec>)
    ensures Size(a + b) == Size(a) + Size(b)
  {
    if b == [] {
      assert a + b == a;
    } else {
      SizeConcat(a, b[..|b| - 1]);
      assert (a + b)[..|a + b| - 1] == a + b[..|b| - 1];
    }
  }

  lemma SizeOne(v: Vec)
    ensures Size([v]) == v.len
  {
    assert Size([v][..0]) == 0;
  }

  /** The tail of a list is no larger than the list. */
  lemma SuffixSize(s: seq<Vec>, k: nat)
    requires k <= |s|
    ensures Size(s[k..]) <= Size(s)
  {
    SizeConcat(s[..k], s[k..]);
    assert s[..k] + s[k..] == s;
  }

  // ----- The greedy split is a split -------------------------------------------------

  lemma SplitStep(q: Limits, counting: bool, vecs: seq<Vec>, v: Vec)
    ensures Split(q, counting, vecs + [v]) == AddPiece(q, counting, Split(q, counting, vecs), v)
  {
    assert (vecs + [v])[..|vecs|] == vecs;
  }

  lemma {:induction false} SplitIsSegmented(q: Limits, counting: bool, vecs: seq<Vec>)
    ensures Segmented(q, Split(q, counting, vecs)) && Flatten(Split(q, counting, vecs)) == vecs
  {
    hide Segment, Fits, Size;
    if vecs != [] {
      var parts, v := Split(q, counting, vecs[..|vecs| - 1]), vecs[|vecs| - 1];
      SplitIsSegmented(q, counting, vecs[..|vecs| - 1]);
      PieceIsSegment(q, v);
      if parts.Snoc? && Fits(q, counting, parts.last, v) {
        LongerSegment(q, counting, parts.last, v);
      }
      assert vecs == vecs[..|vecs| - 1] + [v];
    }
  }

  lemma PieceIsSegment(q: Limits, v: Vec)
    ensures Segment(q, [v])
  {
  }

  lemma LongerSegment(q: Limits, counting: bool, p: seq<Vec>, v: Vec)
    requires Segment(q, p) && Fits(q, counting, p, v)
    ensures Segment(q, p + [v])
  {
    hide Joins;
    assert (p + [v])[..|p|] == p;
  }

  // ----- No split has fewer parts ----------------------------------------------------

  /** A split without its last piece. */
  function Shorter(parts: Parts): Parts
    requires parts.Snoc? && parts.last != []
  {
    if |parts.last| == 1 then parts.init else Snoc(parts.init, parts.last[..|parts.last| - 1])
  }

  lemma ShorterSegmented(q: Limits, parts: Parts)
    requires parts.Snoc? && Segmented(q, parts)
    ensures Segmented(q, Shorter(parts)) && Flatten(parts) != []
    ensures Flatten(parts)[|Flatten(parts)| - 1] == parts.last[|parts.last| - 1]
    ensures Flatten(Shorter(parts)) == Flatten(parts)[..|Flatten(parts)| - 1]
  {
    hide Size, Joins;
    if |parts.last| > 1 {
      LessIsSegment(q, parts.last);
    }
  }

  lemma LessIsSegment(q: Limits, p: seq<Vec>)
    requires Segment(q, p) && |p| > 1
    ensures Segment(q, p[..|p| - 1])
  {
    hide Joins;
  }

  /** The greedy split of what a segmentation covers has no more parts than it; and when it
      has as many, its last part is no longer. */
  lemma {:induction false} GreedyIsMinimal(q: Limits, parts: Parts)
    requires Segmented(q, parts)
    ensures Count(Split(q, false, Flatten(parts))) <= Count(parts)
    ensures Count(Split(q, false, Flatten(parts))) == Count(parts) && parts.Snoc?
            ==> |Split(q, false, Flatten(parts)).last| <= |parts.last|
    decreases |Flatten(parts)|
  {
    hide Size, Joins, Fits, Segment;
    if parts.Snoc? {
      var vecs := Flatten(parts);
      PartIsNonEmpty(q, parts.last);
      ShorterSegmented(q, parts);
      GreedyIsMinimal(q, Shorter(parts));
      var greedy := Split(q, false, vecs[..|vecs| - 1]);
      if |parts.last| > 1 && Count(greedy) == Count(parts) {
        SplitIsSegmented(q, false, vecs[..|vecs| - 1]);
        GreedyGoesOn(q, parts, greedy);
      }
    }
  }

  lemma PartIsNonEmpty(q: Limits, p: seq<Vec>)
    requires Segment(q, p)
    ensures p != []
  {
  }

  /** When the greedy split keeps up with a segmentation, it can take the next piece too. */
  lemma GreedyGoesOn(q: Limits, parts: Parts, greedy: Parts)
    requires parts.Snoc? && Segmented(q, parts) && |parts.last| > 1
    requires Segmented(q, greedy) && greedy.Snoc? && Flatten(greedy) == Flatten(Shorter(parts))
    requires |greedy.last| < |parts.last|
    ensures Fits(q, false, greedy.last, parts.last[|parts.last| - 1])
  {
    hide Joins;
    var less, mine := parts.last[..|parts.last| - 1], greedy.last;
    var before := Flatten(greedy);
    assert mine == before[|before| - |mine|..] && less == before[|before| - |less|..];
    assert mine == less[|less| - |mine|..];
    SuffixSize(less, |less| - |mine|);
    assert mine[|mine| - 1] == parts.last[|parts.last| - 2];
  }

  // ----- Putting splits together -----------------------------------------------------

  function First(parts: Parts): seq<Vec>
    requires parts.Snoc?
  {
    if parts.init.Nil? then parts.last else First(parts.init)
  }

  function Append(a: Parts, b: Parts): Parts {
    match b
    case Nil => a
    case Snoc(init, last) => Snoc(Append(a, init), last)
  }

  /** Two splits in a row with the last part of one and the first of the other made one. */
  function Joined(a: Parts, b: Parts): Parts
    requires a.Snoc? && b.Snoc?
  {
    if b.init.Nil? then Snoc(a.init, a.last + b.last) else Snoc(Joined(a, b.init), b.last)
  }

  lemma {:induction false} AppendFacts(q: Limits, a: Parts, b: Parts)
    requires Segmented(q, a) && Segmented(q, b) && a.Snoc? && b.Snoc?
    ensures Segmented(q, Append(a, b)) && Count(Append(a, b)) == Count(a) + Count(b)
    ensures Flatten(Append(a, b)) == Flatten(a) + Flatten(b)
    ensures First(Append(a, b)) == First(a) && Append(a, b).last == b.last
  {
    hide Segment;
    if b.init.Snoc? {
      AppendFacts(q, a, b.init);
    }
  }

  lemma {:induction false} JoinedFacts(q: Limits, a: Parts, b: Parts)
    requires Segmented(q, a) && Segmented(q, b) && a.Snoc? && b.Snoc? && Segment(q, a.last + First(b))
    ensures Segmented(q, Joined(a, b)) && Count(Joined(a, b)) == Count(a) + Count(b) - 1
    ensures Flatten(Joined(a, b)) == Flatten(a) + Flatten(b)
    ensures First(Joined(a, b)) == (if a.init.Nil? then a.last + First(b) else First(a))
    ensures Joined(a, b).last == (if b.init.Nil? then a.last + b.last else b.last)
  {
    hide Segment;
    if b.init.Snoc? {
      JoinedFacts(q, a, b.init);
    }
  }

  /** Two segments whose edges join make one segment if they are not too large together. */
  lemma JoinedSegment(q: Limits, a: seq<Vec>, b: seq<Vec>)
    requires Segment(q, a) && Segment(q, b) && q.cluster && Size(a) + Size(b) <= q.maxSize
    requires Joins(q, a[|a| - 1], b[0])
    ensures Segment(q, a + b)
  {
    hide Joins;
    SizeConcat(a, b);
    var c := a + b;
    forall i | 0 < i < |c| ensures Joins(q, c[i - 1], c[i]) {
      if i > |a| {
        assert c[i - 1] == b[i - 1 - |a|] && c[i] == b[i - |a|];
      }
    }
  }

  // ----- Counts ----------------------------------------------------------------------

  /** How many of the outer parts are larger than the sizes recorded for them. */
  function Over(parts: Parts, front: nat, back: nat): nat
    requires parts.Snoc?
  {
    (if Size(First(parts)) > front then 1 else 0) + (if Size(parts.last) > back then 1 else 0)
  }

  /** A split that bears out a count and the sizes of its two outer parts.  A part larger than
      recorded may be taken for one that others can share, so it needs a segment to spare. */
  ghost predicate Counted(q: Limits, parts: Parts, vecs: seq<Vec>, nr: int, front: nat, back: nat) {
    && Segmented(q, parts) && Flatten(parts) == vecs && parts.Snoc?
    && Count(parts) + Over(parts, front, back) <= nr
  }

  ghost predicate Bounded(q: Limits, vecs: seq<Vec>, nr: int, front: nat, back: nat) {
    exists parts :: Counted(q, parts, vecs, nr, front, back)
  }

  /** A count that some split bears out is enough for the greedy one. */
  lemma BoundedIsEnough(q: Limits, vecs: seq<Vec>, nr: int, front: nat, back: nat)
    requires Bounded(q, vecs, nr, front, back)
    ensures Count(Split(q, false, vecs)) <= nr
  {
    hide Segmented, Size, Split;
    var parts :| Counted(q, parts, vecs, nr, front, back);
    GreedyIsMinimal(q, parts);
  }

  lemma BoundedGrows(q: Limits, vecs: seq<Vec>, nr: int, front: nat, back: nat, front': nat, back': nat)
    requires Bounded(q, vecs, nr, front, back) && front <= front' && back <= back'
    ensures Bounded(q, vecs, nr, front', back')
  {
    hide Segmented, Size, Split;
    var parts :| Counted(q, parts, vecs, nr, front, back);
    assert Counted(q, parts, vecs, nr, front', back');
  }

  /** With one part, either size bounds both. */
  lemma OnePart(q: Limits, vecs: seq<Vec>, front: nat, back: nat, front': nat, back': nat)
    requires Bounded(q, vecs, 1, front, back)
    requires front' >= front || front' >= back
    requires back' >= front || back' >= back
    ensures Bounded(q, vecs, 1, front', back')
  {
    hide Segmented, Size, Split;
    var parts :| Counted(q, parts, vecs, 1, front, back);
    OneIsBoth(parts);
    assert Counted(q, parts, vecs, 1, front', back');
  }

  lemma BoundedAppend(q: Limits, a: seq<Vec>, na: int, fa: nat, ba: nat, b: seq<Vec>, nb: int, fb: nat, bb: nat)
    requires Bounded(q, a, na, fa, ba) && Bounded(q, b, nb, fb, bb)
    ensures Bounded(q, a + b, na + nb, fa, bb)
  {
    hide Segmented, Size, Split;
    var pa :| Counted(q, pa, a, na, fa, ba);
    var pb :| Counted(q, pb, b, nb, fb, bb);
    AppendFacts(q, pa, pb);
    assert Counted(q, Append(pa, pb), a + b, na + nb, fa, bb);
  }

  /** Joining the outer parts of two counted lists: one segment less. */
  lemma BoundedJoin(q: Limits, a: seq<Vec>, na: int, fa: nat, ba: nat, b: seq<Vec>, nb: int, fb: nat, bb: nat)
    requires Bounded(q, a, na, fa, ba) && Bounded(q, b, nb, fb, bb)
    requires a != [] && b != [] && q.cluster && ba + fb <= q.maxSize && Joins(q, a[|a| - 1], b[0])
    ensures Bounded(q, a + b, na + nb - 1, if na == 1 then ba + fb else fa, if nb == 1 then ba + fb else bb)
  {
    hide Segment, Size, Joins;
    var pa :| Counted(q, pa, a, na, fa, ba);
    var pb :| Counted(q, pb, b, nb, fb, bb);
    var front, back := if na == 1 then ba + fb else fa, if nb == 1 then ba + fb else bb;
    OneIsBoth(pa);
    OneIsBoth(pb);
    if Size(pa.last) <= ba && Size(First(pb)) <= fb {
      Edges(q, pa);
      Edges(q, pb);
      JoinedSegment(q, pa.last, First(pb));
      JoinedFacts(q, pa, pb);
      SizeConcat(pa.last, First(pb));
      assert Counted(q, Joined(pa, pb), a + b, na + nb - 1, front, back);
    } else {
      AppendFacts(q, pa, pb);
      assert Counted(q, Append(pa, pb), a + b, na + nb - 1, front, back);
    }
  }

  lemma OneIsBoth(parts: Parts)
    requires parts.Snoc?
    ensures (Count(parts) == 1) == parts.init.Nil?
    ensures parts.init.Nil? ==> First(parts) == parts.last
  {
  }

  /** The outer parts hold the outer pieces. */
  lemma {:induction false} Edges(q: Limits, parts: Parts)
    requires parts.Snoc? && Segmented(q, parts)
    ensures Segment(q, First(parts)) && Segment(q, parts.last)
    ensures First(parts) != [] && parts.last != [] && Flatten(parts) != []
    ensures Flatten(parts)[0] == First(parts)[0]
    ensures Flatten(parts)[|Flatten(parts)| - 1] == parts.last[|parts.last| - 1]
  {
    hide Size, Joins;
    if parts.init.Snoc? {
      Edges(q, parts.init);
    }
  }

  // ----- Scatter-gather entries ------------------------------------------------------

  /** One entry of the list given to the hardware. */
  datatype Entry = Entry(phys: nat, len: nat)

  function Entries(parts: Parts): seq<Entry>
    ensures |Entries(parts)| == Count(parts)
  {
    match parts
    case Nil => []
    case Snoc(init, last) =>
      Entries(init) + [Entry(if last == [] then 0 else last[0].phys, Size(last))]
  }

  /** The addresses of a run of bytes. */
  function Run(phys: nat, len: nat): seq<nat> {
    seq(len, i requires 0 <= i < len => phys + i)
  }

  /** The addresses of the bytes of a list of pieces, in order. */
  function Bytes(vecs: seq<Vec>): seq<nat> {
    if vecs == [] then [] else Bytes(vecs[..|vecs| - 1]) + Run(vecs[|vecs| - 1].phys, vecs[|vecs| - 1].len)
  }

  /** The addresses of the bytes a list of entries covers, in order. */
  function EntryBytes(sg: seq<Entry>): seq<nat> {
    if sg == [] then [] else EntryBytes(sg[..|sg| - 1]) + Run(sg[|sg| - 1].phys, sg[|sg| - 1].len)
  }

  lemma RunConcat(phys: nat, a: nat, b: nat)
    ensures Run(phys, a) + Run(phys + a, b) == Run(phys, a + b)
  {
  }

  lemma {:induction false} BytesConcat(a: seq<Vec>, b: seq<Vec>)
    ensures Bytes(a + b) == Bytes(a) + Bytes(b)
  {
    hide Run;
    if b == [] {
      assert a + b == a;
    } else {
      BytesConcat(a, b[..|b| - 1]);
      assert (a + b)[..|a + b| - 1] == a + b[..|b| - 1];
    }
  }

  /** The bytes of a segment are one run. */
  lemma {:induction false} SegmentBytes(q: Limits, p: seq<Vec>)
    requires Segment(q, p)
    ensures Bytes(p) == Run(p[0].phys, Size(p)) && p[|p| - 1].phys + p[|p| - 1].len == p[0].phys + Size(p)
  {
    hide Run;
    var less, v := p[..|p| - 1], p[|p| - 1];
    if less == [] {
      assert Bytes(less) == [] && Size(less) == 0;
    } else {
      assert Segment(q, less) by { LessIsSegment(q, p); }
      SegmentBytes(q, less);
      assert Joins(q, p[|p| - 2], p[|p| - 1]);
      RunConcat(p[0].phys, Size(less), v.len);
    }
  }

  /** The entries of a split cover exactly the bytes of its pieces, in order. */
  lemma {:induction false} EntriesCover(q: Limits, parts: Parts)
    requires Segmented(q, parts)
    ensures EntryBytes(Entries(parts)) == Bytes(Flatten(parts))
  {
    hide Run, Segment, Size;
    if parts.Snoc? {
      EntriesCover(q, parts.init);
      PartIsNonEmpty(q, parts.last);
      SegmentBytes(q, parts.last);
      BytesConcat(Flatten(parts.init), parts.last);
      assert Entries(parts)[..Count(parts) - 1] == Entries(parts.init);
    }
  }
}
