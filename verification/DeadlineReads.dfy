/** Reads that leave the deadline scheduler past a waiting write, those that make way for
    another request at their sector included. */
module DeadlineReads {
  import opened Requests
  import opened IdLists
  import opened DeadlineModel
  import opened DeadlineInvariant
  import opened DeadlineRuns

  /** Another queued request of the direction starts at the sector. */
  ghost predicate Occupied(s: State, d: Dir, pos: nat, x: nat) {
    exists y :: y in LaneOf(s, d).sort && y != x && PosOf(s.info, y) == pos
  }

  /** A step that puts a read where another one is. */
  ghost predicate DisplacesRead(s: State, st: Step) {
    match st
    case New(x, i) => i.dir == Read && Occupied(s, Read, i.pos, x)
    case Front(x, pos, _) => x in s.info && s.info[x].dir == Read && Occupied(s, Read, pos, x)
    case _ => false
  }

  /** The reads of a list. */
  function ReadsIn(info: map<nat, Info>, xs: seq<nat>): nat {
    if xs == [] then 0
    else ReadsIn(info, xs[..|xs| - 1]) + if xs[|xs| - 1] in info && info[xs[|xs| - 1]].dir == Read then 1 else 0
  }

  /** What left the scheduler between two states. */
  function Gone(s: State, t: State): seq<nat> {
    if |s.issued| <= |t.issued| then t.issued[|s.issued|..] else []
  }

  // ----- Making way ------------------------------------------------------------------

  lemma MovedLane(s: State, x: nat)
    requires x in s.info
    ensures var t, d := MoveRequest(s, x), s.info[x].dir;
      t.info == s.info && t.issued == s.issued + [x] && LaneOf(t, d).sort == Removed(LaneOf(s, d).sort, x)
  {
    hide Removed, Latter;
  }

  lemma AliasFacts(s: State, out: Option<nat>, entering: Option<nat>, d: Dir, pos: nat)
    requires Inv(s, out, entering)
    ensures var l := LaneOf(s, d); var a := AliasOf(s.info, l.sort, pos);
      a.Some? ==>
        && a.value in s.info && s.info[a.value].dir == d
        && forall y :: y in Removed(l.sort, a.value) ==> PosOf(s.info, y) != pos
  {
    var l := LaneOf(s, d);
    var a := AliasOf(s.info, l.sort, pos);
    if a.Some? {
      RemovedMembers(l.sort, a.value);
      OnlyThere(s.info, l.sort, a.value);
    }
  }

  /** At most one request is at a sector, so at most one makes way. */
  lemma ClearedOne(s: State, out: Option<nat>, entering: Option<nat>, d: Dir, pos: nat)
    requires Inv(s, out, entering)
    ensures var c := Cleared(s, d, pos); var a := AliasOf(s.info, LaneOf(s, d).sort, pos);
      && c.info == s.info && c.issued == s.issued + (if a.Some? then [a.value] else [])
      && (a.Some? ==> a.value in s.info && s.info[a.value].dir == d)
  {
    hide Inv, MoveRequest, Removed;
    AliasFacts(s, out, entering, d, pos);
    var a := AliasOf(s.info, LaneOf(s, d).sort, pos);
    if a.Some? {
      MovedLane(s, a.value);
    }
  }

  lemma OnlyThere(info: map<nat, Info>, s: seq<nat>, x: nat)
    requires BySector(info, s) && x in s
    ensures forall y :: y in s && y != x ==> PosOf(info, y) != PosOf(info, x)
  {
    var k :| 0 <= k < |s| && s[k] == x;
    forall y | y in s && y != x ensures PosOf(info, y) != PosOf(info, x) {
      var j :| 0 <= j < |s| && s[j] == y;
    }
  }

  lemma OneGone(info: map<nat, Info>, a: Option<nat>)
    ensures ReadsIn(info, if a.Some? then [a.value] else []) ==
            if a.Some? && a.value in info && info[a.value].dir == Read then 1 else 0
  {
    if a.Some? {
      assert ReadsIn(info, [a.value][..0]) == 0;
    }
  }

  /** A new request displaces at most one, of its own direction. */
  lemma NewGone(s: State, x: nat, i: Info)
    requires Inv(s, None, None) && x !in s.info
    ensures var t := Add(s, x, i);
      ReadsIn(t.info, Gone(s, t)) == if DisplacesRead(s, New(x, i)) then 1 else 0
  {
    hide Inv, Cleared, PutAt, Removed;
    var known := s.(info := s.info[x := i]);
    Started(s, x, i);
    NotQueued(s, x, i.dir);
    ClearedOne(known, Some(x), Some(x), i.dir, i.pos);
    var a := AliasOf(known.info, LaneOf(s, i.dir).sort, i.pos);
    SameAlias(s, known.info, x, i.dir, i.pos, LaneOf(s, i.dir).sort);
    var t := Add(s, x, i);
    assert Gone(s, t) == if a.Some? then [a.value] else [];
    OneGone(t.info, a);
  }

  /** Whether a sector is taken does not depend on what is known of the request itself. */
  lemma SameAlias(s: State, info: map<nat, Info>, x: nat, d: Dir, pos: nat, others: seq<nat>)
    requires forall y :: y in others <==> y in LaneOf(s, d).sort && y != x
    requires forall y :: y != x ==> PosOf(info, y) == PosOf(s.info, y)
    ensures AliasOf(info, others, pos).Some? <==> Occupied(s, d, pos, x)
    ensures AliasOf(info, others, pos).Some? ==> AliasOf(info, others, pos).value != x
  {
    hide PosOf;
    var a := AliasOf(info, others, pos);
    if a.Some? {
      assert a.value in LaneOf(s, d).sort && a.value != x && PosOf(s.info, a.value) == pos;
    }
  }

  lemma NotQueued(s: State, x: nat, d: Dir)
    requires Inv(s, None, None) && x !in s.info
    ensures x !in LaneOf(s, d).sort
  {
  }

  lemma FrontGone(s: State, x: nat, pos: nat, sectors: nat)
    requires Inv(s, None, None) && Queued(s, x)
    ensures var t := FrontMerged(s, x, pos, sectors);
      ReadsIn(t.info, Gone(s, t)) == if DisplacesRead(s, Front(x, pos, sectors)) then 1 else 0
  {
    hide Inv, Cleared, PutAt, Removed;
    var d := s.info[x].dir;
    var l := LaneOf(s, d);
    var off := WithLane(s, d, l.(sort := Removed(l.sort, x))).(info := s.info[x := s.info[x].(pos := pos, sectors := sectors)]);
    FrontOff(s, x, pos, sectors);
    RemovedFrom(s, x, d);
    ClearedOne(off, Some(x), None, d, pos);
    var a := AliasOf(off.info, LaneOf(off, d).sort, pos);
    SameAlias(s, off.info, x, d, pos, LaneOf(off, d).sort);
    var t := FrontMerged(s, x, pos, sectors);
    assert Gone(s, t) == if a.Some? then [a.value] else [];
    OneGone(t.info, a);
  }

  lemma RemovedFrom(s: State, x: nat, d: Dir)
    requires Inv(s, None, None)
    ensures forall y :: y in Removed(LaneOf(s, d).sort, x) <==> y in LaneOf(s, d).sort && y != x
  {
    RemovedMembers(LaneOf(s, d).sort, x);
  }

  // ----- Runs ------------------------------------------------------------------------

  /** The reads that leave in a step are the one issued and the one that makes way. */
  lemma StepGone(s: State, st: Step)
    requires Inv(s, None, None) && Enabled(s, st) && Starves(s, st)
    ensures var t := Next(s, st);
      ReadsIn(t.info, Gone(s, t)) == (if st.Issue? then 1 else 0) + (if DisplacesRead(s, st) then 1 else 0)
  {
    hide Inv, Add, FrontMerged, MergedRequests, MoveRequest, Select, DisplacesRead;
    match st {
      case New(x, i) => NewGone(s, x, i);
      case Front(x, pos, sectors) => FrontGone(s, x, pos, sectors);
      case Merge(x, gone) => MergeGone(s, x, gone);
      case Issue =>
        var p := Select(s);
        MovedLane(s.(batching := p.batching, starved := p.starved), p.rq.value);
        OneGone(s.info, p.rq);
      case Tick(_) => NoneGone(s, st);
    }
    NoneDisplaced(s, st);
  }

  lemma MergeGone(s: State, x: nat, gone: nat)
    requires x in s.info && gone in s.info
    ensures var t := MergedRequests(s, x, gone); ReadsIn(t.info, Gone(s, t)) == 0
  {
    hide Removing, PutAt, Removed;
    assert Gone(s, MergedRequests(s, x, gone)) == [];
  }

  lemma NoneGone(s: State, st: Step)
    requires Enabled(s, st) && st.Tick?
    ensures ReadsIn(Next(s, st).info, Gone(s, Next(s, st))) == 0
  {
    assert Gone(s, Next(s, st)) == [];
  }

  lemma NoneDisplaced(s: State, st: Step)
    ensures !st.New? && !st.Front? ==> !DisplacesRead(s, st)
  {
  }

  /** The reads that leave the scheduler in a run. */
  ghost function ReadsGone(s: State, steps: seq<Step>): nat
    requires StarvingRun(s, steps)
    decreases |steps|
  {
    if steps == [] then 0
    else var t := Next(s, steps[0]); ReadsIn(t.info, Gone(s, t)) + ReadsGone(t, steps[1..])
  }

  /** The steps of a run that put a read where another one is. */
  ghost function Displacements(s: State, steps: seq<Step>): nat
    requires StarvingRun(s, steps)
    decreases |steps|
  {
    if steps == [] then 0
    else (if DisplacesRead(s, steps[0]) then 1 else 0) + Displacements(Next(s, steps[0]), steps[1..])
  }

  lemma {:induction false} ReadsGoneAre(s: State, steps: seq<Step>)
    requires Inv(s, None, None) && StarvingRun(s, steps)
    ensures ReadsGone(s, steps) == ReadsIssued(s, steps) + Displacements(s, steps)
    decreases |steps|
  {
    hide Inv, Enabled, Next, Starves, DisplacesRead, Gone;
    if steps != [] {
      StepKeepsInv(s, steps[0]);
      StepGone(s, steps[0]);
      ReadsGoneAre(Next(s, steps[0]), steps[1..]);
    }
  }

  /** All reads that leave the scheduler while a write waits: at most (writesStarved + 1) *
      fifoBatch, and one for every read that is put where another one is and pushes it out. */
  lemma ReadsPastAWrite(s0: State, before: seq<Step>, steps: seq<Step>)
    requires Initial(s0) && s0.fifoBatch >= 1 && IsRun(s0, before) && StarvingRun(RunTo(s0, before), steps)
    ensures ReadsGone(RunTo(s0, before), steps) <=
            (s0.writesStarved + 1) * s0.fifoBatch + Displacements(RunTo(s0, before), steps)
  {
    hide IsRun, RunTo, StarvingRun, ReadsIssued, ReadsGone, Displacements, Inv;
    InitialInv(s0);
    RunsKeepInv(s0, before);
    WritesAreNotStarved(s0, before, steps);
    ReadsGoneAre(RunTo(s0, before), steps);
  }
}
