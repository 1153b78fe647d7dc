/** Every run of submissions and merges keeps every request's segment count a bound. */
module MergeRuns {
  import opened Segments
  import opened RequestMerge

  /** One operation on the requests of a queue.  `Trim` stands for a partial completion: the
      data left over is counted afresh. */
  datatype Step =
    | New(bio: Bio, write: bool)
    | Back(i: nat, bio: Bio)
    | Front(i: nat, bio: Bio)
    | Pair(i: nat, j: nat)
    | Trim(i: nat, left: seq<Bio>)

  /** What the callers promise: queued requests and bios with data. */
  ghost predicate Enabled(s: seq<Req>, step: Step) {
    match step
    case New(bio, _) => bio.vecs != []
    case Back(i, bio) => i < |s| && HasData(s[i].bios) && bio.vecs != []
    case Front(i, bio) => i < |s| && HasData(s[i].bios) && bio.vecs != []
    case Pair(i, j) => i < |s| && j < |s| && i != j && HasData(s[i].bios) && HasData(s[j].bios)
    case Trim(i, left) => i < |s| && HasData(left)
  }

  /** A bio submitted by the step, if any, is right: its count is not trusted or borne out. */
  ghost predicate Right(q: Limits, step: Step) {
    match step
    case New(bio, _) => BioOk(q, bio)
    case Back(_, bio) => BioOk(q, bio)
    case Front(_, bio) => BioOk(q, bio)
    case Pair(_, _) => true
    case Trim(_, _) => true
  }

  ghost predicate AllRight(q: Limits, steps: seq<Step>) {
    forall i :: 0 <= i < |steps| ==> Right(q, steps[i])
  }

  /** A request whose remaining data has been counted again. */
  function Trimmed(q: Limits, req: Req, left: seq<Bio>): Req
    requires left != []
  {
    req.(bios := Recounted(q, left), segs := SegmentCount(q, left), len := Size(AllVecs(left)))
  }

  ghost predicate AllOk(q: Limits, s: seq<Req>) {
    forall i :: 0 <= i < |s| ==> ReqOk(q, s[i])
  }

  function Without(s: seq<Req>, j: nat): seq<Req>
    requires j < |s|
  {
    s[..j] + s[j + 1..]
  }

  /** The queue after an operation; a bio that finds no room gets a request of its own. */
  ghost function Next(q: Limits, s: seq<Req>, step: Step): seq<Req>
    requires Enabled(s, step)
  {
    match step
    case New(bio, write) => s + [Prepared(q, bio, write)]
    case Back(i, bio) =>
      var (r, ok) := BackMerge(q, s[i], bio);
      if ok then s[i := r] else s[i := r] + [Prepared(q, bio, s[i].write)]
    case Front(i, bio) =>
      var (r, ok) := FrontMerge(q, s[i], bio);
      if ok then s[i := r] else s[i := r] + [Prepared(q, bio, s[i].write)]
    case Pair(i, j) =>
      var (r, n, ok) := MergeRequests(q, s[i], s[j]);
      if ok then Without(s[i := r], j) else s[i := r][j := n]
    case Trim(i, left) => s[i := Trimmed(q, s[i], left)]
  }

  lemma TrimmedIsOk(q: Limits, req: Req, left: seq<Bio>)
    requires HasData(left)
    ensures ReqOk(q, Trimmed(q, req, left))
  {
    hide Size, Split, Bounded, AllVecs, Recounted;
    RecountEstablishes(q, left);
    HasDataSame(left, Recounted(q, left));
  }

  /** Every operation keeps every request's count borne out, if the bio it brings is right. */
  lemma StepKeeps(q: Limits, s: seq<Req>, step: Step)
    requires AllOk(q, s) && Enabled(s, step) && Right(q, step)
    ensures AllOk(q, Next(q, s, step))
  {
    hide ReqOk, BioOk, BackMerge, FrontMerge, MergeRequests, Prepared, Trimmed;
    match step {
      case New(bio, write) => PreparedIsOk(q, bio, write);
      case Back(i, bio) =>
        OkHasData(q, s[i]);
        BackMergeKeeps(q, s[i], bio);
        PreparedIsOk(q, bio, s[i].write);
      case Front(i, bio) =>
        OkHasData(q, s[i]);
        FrontMergeKeeps(q, s[i], bio);
        PreparedIsOk(q, bio, s[i].write);
      case Pair(i, j) =>
        OkHasData(q, s[i]);
        OkHasData(q, s[j]);
        MergeRequestsKeeps(q, s[i], s[j]);
      case Trim(i, left) => TrimmedIsOk(q, s[i], left);
    }
  }

  ghost predicate IsRun(q: Limits, s: seq<Req>, steps: seq<Step>)
    decreases |steps|
  {
    steps == [] || (Enabled(s, steps[0]) && IsRun(q, Next(q, s, steps[0]), steps[1..]))
  }

  ghost function RunTo(q: Limits, s: seq<Req>, steps: seq<Step>): seq<Req>
    requires IsRun(q, s, steps)
    decreases |steps|
  {
    if steps == [] then s else RunTo(q, Next(q, s, steps[0]), steps[1..])
  }

  lemma {:induction false} RunsKeep(q: Limits, s: seq<Req>, steps: seq<Step>)
    requires AllOk(q, s) && IsRun(q, s, steps) && AllRight(q, steps)
    ensures AllOk(q, RunTo(q, s, steps))
    decreases |steps|
  {
    hide AllOk, Enabled, Next, Right;
    if steps != [] {
      StepKeeps(q, s, steps[0]);
      RunsKeep(q, Next(q, s, steps[0]), steps[1..]);
    }
  }

  /** The scatter-gather list of a request: no more entries than its count, and exactly its
      bytes in order. */
  ghost predicate Maps(q: Limits, req: Req) {
    var sg := Entries(Split(q, false, AllVecs(req.bios)));
    |sg| <= req.segs && EntryBytes(sg) == Bytes(AllVecs(req.bios))
  }

  lemma OkMaps(q: Limits, req: Req)
    requires ReqOk(q, req)
    ensures Maps(q, req)
  {
    hide Split, Bounded, Size, Segmented, AllVecs;
    var vecs := AllVecs(req.bios);
    BoundedIsEnough(q, vecs, req.segs, req.bios[0].front, req.bios[|req.bios| - 1].back);
    SplitIsSegmented(q, false, vecs);
    EntriesCover(q, Split(q, false, vecs));
  }

  ghost predicate AllMap(q: Limits, s: seq<Req>) {
    forall i :: 0 <= i < |s| ==> Maps(q, s[i])
  }

  /** However a queue's requests came about, by any number of submissions, merges of either
      kind, refused merges and partial completions, each one maps into the number of entries
      it counts, as long as the submitted bios are right. */
  lemma SegmentsSuffice(q: Limits, steps: seq<Step>)
    requires IsRun(q, [], steps) && AllRight(q, steps)
    ensures AllMap(q, RunTo(q, [], steps))
  {
    hide Maps, ReqOk, IsRun, RunTo, AllRight;
    RunsKeep(q, [], steps);
    forall i | 0 <= i < |RunTo(q, [], steps)| ensures Maps(q, RunTo(q, [], steps)[i]) {
      OkMaps(q, RunTo(q, [], steps)[i]);
    }
  }
}
