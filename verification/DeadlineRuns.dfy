/** Runs of the deadline scheduler: agreement of its indexes, and how long reads can keep a
    write waiting. */
module DeadlineRuns {
  import opened Requests
  import opened IdLists
  import opened DeadlineModel
  import opened DeadlineInvariant

  datatype Step =
    | New(x: nat, i: Info)
    | Front(x: nat, pos: nat, sectors: nat)
    | Merge(x: nat, gone: nat)
    | Issue
    | Tick(now: int)

  predicate Queued(s: State, x: nat) { x in s.info && x in LaneOf(s, s.info[x].dir).sort }

  predicate Enabled(s: State, st: Step) {
    match st
    case New(x, _) => x !in s.info
    case Front(x, _, _) => Queued(s, x)
    case Merge(x, gone) => Queued(s, x) && Queued(s, gone) && x != gone && s.info[x].dir == s.info[gone].dir
    case Issue => true
    case Tick(now) => s.now <= now
  }

  function Next(s: State, st: Step): State
    requires Enabled(s, st)
  {
    match st
    case New(x, i) => Add(s, x, i)
    case Front(x, pos, sectors) => FrontMerged(s, x, pos, sectors)
    case Merge(x, gone) => MergedRequests(s, x, gone)
    case Issue => Dispatch(s).0
    case Tick(now) => s.(now := now)
  }

  /** Nothing queued, nothing known. */
  ghost predicate Initial(s: State) {
    && s.info == map[] && s.readLane == Lane([], [], None) && s.writeLane == Lane([], [], None)
    && s.issued == [] && s.merged == []
  }

  ghost predicate IsRun(s: State, steps: seq<Step>)
    decreases |steps|
  {
    steps == [] || (Enabled(s, steps[0]) && IsRun(Next(s, steps[0]), steps[1..]))
  }

  ghost function RunTo(s: State, steps: seq<Step>): State
    requires IsRun(s, steps)
    decreases |steps|
  {
    if steps == [] then s else RunTo(Next(s, steps[0]), steps[1..])
  }

  lemma LaterLimit(info: map<nat, Info>, d: Dir, l: Lane, limit: int, limit': int)
    requires LaneOk(info, d, l, limit, None) && limit <= limit'
    ensures LaneOk(info, d, l, limit', None)
  {
    hide BySector, ByTime, Unique;
  }

  lemma TickKeeps(s: State, now: int)
    requires Inv(s, None, None) && s.now <= now
    ensures Inv(s.(now := now), None, None)
  {
    hide LaneOk, PlacesOk;
    LaterLimit(s.info, Read, s.readLane, s.now + s.readExpire, now + s.readExpire);
    LaterLimit(s.info, Write, s.writeLane, s.now + s.writeExpire, now + s.writeExpire);
  }

  lemma StepKeepsInv(s: State, st: Step)
    requires Inv(s, None, None) && Enabled(s, st)
    ensures Inv(Next(s, st), None, None)
  {
    hide Inv, Add, FrontMerged, MergedRequests, Dispatch;
    match st {
      case New(x, i) => AddKeeps(s, x, i);
      case Front(x, pos, sectors) => FrontMergedKeeps(s, x, pos, sectors);
      case Merge(x, gone) => MergedRequestsKeeps(s, x, gone);
      case Issue => DispatchKeeps(s);
      case Tick(now) => TickKeeps(s, now);
    }
  }

  lemma {:induction false} RunsKeepInv(s: State, steps: seq<Step>)
    requires Inv(s, None, None) && IsRun(s, steps)
    ensures Inv(RunTo(s, steps), None, None)
    decreases |steps|
  {
    hide Inv, Next, Enabled;
    if steps != [] {
      StepKeepsInv(s, steps[0]);
      RunsKeepInv(Next(s, steps[0]), steps[1..]);
    }
  }

  /** One direction as a whole: both indexes hold the same requests, each once, by sector and
      by age; the oldest has the earliest deadline of them all. */
  ghost predicate Agrees(s: State, d: Dir) {
    var l := LaneOf(s, d);
    && Unique(l.sort) && Unique(l.fifo) && (forall x :: x in l.sort <==> x in l.fifo)
    && BySector(s.info, l.sort) && ByTime(s.info, l.fifo)
    && (forall x :: x in l.sort ==> TimeOf(s.info, l.fifo[0]) <= TimeOf(s.info, x))
    && (l.next.Some? ==> l.next.value in l.sort)
  }

  lemma OldestIsEarliest(info: map<nat, Info>, s: seq<nat>, x: nat)
    requires ByTime(info, s) && x in s
    ensures TimeOf(info, s[0]) <= TimeOf(info, x)
  {
    var i :| 0 <= i < |s| && s[i] == x;
  }

  lemma LaneAgrees(s: State, d: Dir)
    requires Inv(s, None, None)
    ensures Agrees(s, d)
  {
    var l := LaneOf(s, d);
    assert LaneOk(s.info, d, l, s.now + Expire(s, d), None);
    hide BySector, ByTime, Unique, PlacesOk, Inv;
    forall x | x in l.sort ensures TimeOf(s.info, l.fifo[0]) <= TimeOf(s.info, x) {
      OldestIsEarliest(s.info, l.fifo, x);
    }
  }

  /** In every run from an empty scheduler: the indexes agree, at most one direction has a
      request to go on with, and every request ever added is in exactly one place. */
  lemma IndexesAgree(s: State, steps: seq<Step>)
    requires Initial(s) && IsRun(s, steps)
    ensures var t := RunTo(s, steps);
            && Agrees(t, Read) && Agrees(t, Write) && !(t.readLane.next.Some? && t.writeLane.next.Some?)
            && PlacesOk(t.info, t.readLane.fifo, t.writeLane.fifo, t.issued, t.merged, None)
  {
    hide IsRun, RunTo, LaneOk, Agrees, PlacesOk;
    InitialInv(s);
    RunsKeepInv(s, steps);
    LaneAgrees(RunTo(s, steps), Read);
    LaneAgrees(RunTo(s, steps), Write);
  }

  lemma InitialInv(s: State)
    requires Initial(s)
    ensures Inv(s, None, None)
  {
  }

  // ----- What is dispatched ----------------------------------------------------------

  /** A batch in a direction whose oldest request has expired starts with that request, and
      no other of the direction has an earlier deadline. */
  lemma ExpiredGoesFirst(s: State, d: Dir)
    requires Inv(s, None, None) && Expired(s, d) && Choose(s).0 == Some(d)
    requires Going(s).None? || s.batching >= s.fifoBatch
    ensures Dispatch(s).1.Some?
    ensures forall y :: y in LaneOf(s, d).sort ==> TimeOf(s.info, Dispatch(s).1.value) <= TimeOf(s.info, y)
  {
    DispatchKeeps(s);
    LaneAgrees(s, d);
    hide Inv, BySector, ByTime, Unique, Dispatch;
  }

  /** After a request has been dispatched, the one to go on with is the next of its direction
      by sector: none lies between, and there is none only if none lies beyond. */
  lemma NextIsNearest(s: State, x: nat)
    requires Inv(s, None, None) && Queued(s, x)
    ensures var l := LaneOf(s, s.info[x].dir); var next := Latter(l.sort, x);
            && (next.Some? ==> PosOf(s.info, x) < PosOf(s.info, next.value))
            && (forall y :: y in l.sort && PosOf(s.info, x) < PosOf(s.info, y) ==>
                  next.Some? && PosOf(s.info, next.value) <= PosOf(s.info, y))
    ensures LaneOf(MoveRequest(s, x), s.info[x].dir).next == Latter(LaneOf(s, s.info[x].dir).sort, x)
  {
    var d := s.info[x].dir;
    LaneAgrees(s, d);
    LatterIsNearest(s.info, LaneOf(s, d).sort, x);
    hide Inv, Agrees, Latter, IndexOf;
    assert Latter(LaneOf(s, d).sort, x) != Some(x) by { NotItself(s, x); }
  }

  lemma NotItself(s: State, x: nat)
    requires Inv(s, None, None) && Queued(s, x)
    ensures Latter(LaneOf(s, s.info[x].dir).sort, x) != Some(x)
  {
    var d := s.info[x].dir;
    hide LaneOk, PlacesOk;
    SortFacts(s.info, d, LaneOf(s, d), s.now + Expire(s, d), None, x);
  }

  lemma LatterIsNearest(info: map<nat, Info>, s: seq<nat>, x: nat)
    requires BySector(info, s) && x in s
    ensures var next := Latter(s, x);
            && (next.Some? ==> PosOf(info, x) < PosOf(info, next.value))
            && (forall y :: y in s && PosOf(info, x) < PosOf(info, y) ==> next.Some? && PosOf(info, next.value) <= PosOf(info, y))
  {
    var k := IndexOf(s, x);
    hide PosOf, IndexOf;
    assert forall j :: 0 <= j <= k ==> PosOf(info, s[j]) <= PosOf(info, s[k]);
    forall y | y in s && PosOf(info, x) < PosOf(info, y)
      ensures Latter(s, x).Some? && PosOf(info, Latter(s, x).value) <= PosOf(info, y)
    {
      var j :| 0 <= j < |s| && s[j] == y;
    }
  }

  // ----- Starvation ------------------------------------------------------------------

  function Least(a: nat, b: nat): nat { if a < b then a else b }

  /** Reads that may still be issued before a waiting write: what is left of this batch, and
      the batches that starvation still allows. */
  function Allowance(s: State): nat {
    (s.fifoBatch - Least(s.batching, s.fifoBatch)) + s.fifoBatch * (s.writesStarved - Least(s.starved, s.writesStarved))
  }

  lemma AllowanceBound(s: State)
    ensures Allowance(s) <= (s.writesStarved + 1) * s.fifoBatch
  {
    assert s.fifoBatch * (s.writesStarved - Least(s.starved, s.writesStarved)) <= s.fifoBatch * s.writesStarved;
    assert (s.writesStarved + 1) * s.fifoBatch == s.fifoBatch + s.fifoBatch * s.writesStarved;
  }

  /** A step that issues a read. */
  ghost predicate IssuesRead(s: State, st: Step) {
    st.Issue? && Select(s).rq.Some? && Select(s).rq.value in s.info && s.info[Select(s).rq.value].dir == Read
  }

  /** A step that leaves a waiting write waiting. */
  ghost predicate Starves(s: State, st: Step) {
    st.Issue? ==> s.writeLane.fifo != [] && IssuesRead(s, st)
  }

  ghost predicate StarvingRun(s: State, steps: seq<Step>)
    decreases |steps|
  {
    steps == [] || (Enabled(s, steps[0]) && Starves(s, steps[0]) && StarvingRun(Next(s, steps[0]), steps[1..]))
  }

  ghost function ReadsIssued(s: State, steps: seq<Step>): nat
    requires StarvingRun(s, steps)
    decreases |steps|
  {
    if steps == [] then 0 else (if steps[0].Issue? then 1 else 0) + ReadsIssued(Next(s, steps[0]), steps[1..])
  }

  lemma OneBatchLess(b: nat, n: nat)
    requires 0 < n
    ensures b * (n - 1) == b * n - b
  {
  }

  /** Choosing a read while a write waits uses up allowance. */
  lemma ReadChoiceCosts(s: State)
    requires Inv(s, None, None) && s.fifoBatch >= 1 && s.writeLane.fifo != [] && IssuesRead(s, Issue)
    ensures Allowance(s.(batching := Select(s).batching, starved := Select(s).starved)) < Allowance(s)
  {
    hide Inv;
    CandidatesQueued(s, Write);
    if !(Going(s).Some? && s.batching < s.fifoBatch) {
      assert s.starved < s.writesStarved && Select(s).starved == s.starved + 1;
      OneBatchLess(s.fifoBatch, s.writesStarved - s.starved);
    }
  }

  /** A read issued while a write waits uses up allowance. */
  lemma ReadCosts(s: State)
    requires Inv(s, None, None) && s.fifoBatch >= 1 && s.writeLane.fifo != [] && IssuesRead(s, Issue)
    ensures Allowance(Dispatch(s).0) < Allowance(s) && Tuned(Dispatch(s).0, s)
  {
    hide Inv, MoveRequest, Select;
    var x, p := Select(s).rq.value, Select(s);
    ReadChoiceCosts(s);
    SelectQueued(s);
    MoveFrame(s.(batching := p.batching, starved := p.starved), x);
  }

  ghost predicate Tuned(s: State, t: State) { s.fifoBatch == t.fifoBatch && s.writesStarved == t.writesStarved }

  lemma NewIsQuiet(s: State, x: nat, i: Info)
    requires Inv(s, None, None) && x !in s.info
    ensures Tunables(Add(s, x, i), s)
  {
    hide Inv, Cleared, PutAt;
    Started(s, x, i);
    ClearedKeeps(s.(info := s.info[x := i]), Some(x), Some(x), i.dir, i.pos);
  }

  lemma FrontIsQuiet(s: State, x: nat, pos: nat, sectors: nat)
    requires Inv(s, None, None) && Queued(s, x)
    ensures Tunables(FrontMerged(s, x, pos, sectors), s)
  {
    hide Inv, Cleared, PutAt, Removed;
    var d := s.info[x].dir;
    var l := LaneOf(s, d);
    FrontOff(s, x, pos, sectors);
    ClearedKeeps(WithLane(s, d, l.(sort := Removed(l.sort, x))).(info := s.info[x := s.info[x].(pos := pos, sectors := sectors)]),
                 Some(x), None, d, pos);
  }

  lemma MergeIsQuiet(s: State, x: nat, gone: nat)
    requires x in s.info && gone in s.info
    ensures Tunables(MergedRequests(s, x, gone), s)
  {
    hide Removing, PutAt, Removed;
  }

  lemma SameAllowance(s: State, t: State)
    requires Tunables(s, t)
    ensures Allowance(s) == Allowance(t) && Tuned(s, t)
  {
  }

  /** Everything but a dispatch leaves the counters alone. */
  lemma QuietSteps(s: State, st: Step)
    requires Inv(s, None, None) && Enabled(s, st) && !st.Issue?
    ensures Allowance(Next(s, st)) == Allowance(s) && Tuned(Next(s, st), s)
  {
    hide Inv, Add, FrontMerged, MergedRequests, Allowance;
    match st {
      case New(x, i) => NewIsQuiet(s, x, i);
      case Front(x, pos, sectors) => FrontIsQuiet(s, x, pos, sectors);
      case Merge(x, gone) => MergeIsQuiet(s, x, gone);
      case Tick(_) => {}
    }
    SameAllowance(Next(s, st), s);
  }

  lemma {:induction false} ReadsAreBounded(s: State, steps: seq<Step>)
    requires Inv(s, None, None) && s.fifoBatch >= 1 && StarvingRun(s, steps)
    ensures ReadsIssued(s, steps) <= Allowance(s)
    decreases |steps|
  {
    hide Inv, Allowance, Enabled, Next, Tuned;
    if steps != [] {
      StepKeepsInv(s, steps[0]);
      StepCosts(s, steps[0]);
      ReadsAreBounded(Next(s, steps[0]), steps[1..]);
    }
  }

  lemma StepCosts(s: State, st: Step)
    requires Inv(s, None, None) && s.fifoBatch >= 1 && Enabled(s, st) && Starves(s, st)
    ensures Allowance(Next(s, st)) + (if st.Issue? then 1 else 0) <= Allowance(s) && Next(s, st).fifoBatch == s.fifoBatch
  {
    hide Inv, Allowance, Dispatch, Add, FrontMerged, MergedRequests;
    if st.Issue? {
      ReadCosts(s);
    } else {
      QuietSteps(s, st);
    }
  }

  /** From any state of any run, whatever is added or merged meanwhile: a waiting write sees
      at most (writesStarved + 1) * fifoBatch reads dispatched before a write is.  Reads that
      make way for another at their sector are not among these; `DeadlineReads` adds them. */
  lemma WritesAreNotStarved(s0: State, before: seq<Step>, steps: seq<Step>)
    requires Initial(s0) && s0.fifoBatch >= 1 && IsRun(s0, before) && StarvingRun(RunTo(s0, before), steps)
    ensures ReadsIssued(RunTo(s0, before), steps) <= (s0.writesStarved + 1) * s0.fifoBatch
  {
    hide IsRun, RunTo, StarvingRun, ReadsIssued, Inv, Allowance;
    var s := RunTo(s0, before);
    InitialInv(s0);
    RunsKeepInv(s0, before);
    RunsKeepTunables(s0, before);
    ReadsAreBounded(s, steps);
    AllowanceBound(s);
  }

  lemma {:induction false} RunsKeepTunables(s: State, steps: seq<Step>)
    requires Inv(s, None, None) && IsRun(s, steps)
    ensures Tuned(RunTo(s, steps), s)
    decreases |steps|
  {
    hide Inv, Next, Enabled, Allowance;
    if steps != [] {
      StepKeepsInv(s, steps[0]);
      StepTuned(s, steps[0]);
      RunsKeepTunables(Next(s, steps[0]), steps[1..]);
    }
  }

  lemma StepTuned(s: State, st: Step)
    requires Inv(s, None, None) && Enabled(s, st)
    ensures Tuned(Next(s, st), s)
  {
    if st.Issue? {
      hide Inv, MoveRequest, Select;
      var p := Select(s);
      if p.rq.Some? {
        SelectQueued(s);
        MoveFrame(s.(batching := p.batching, starved := p.starved), p.rq.value);
      }
    } else {
      hide Inv, Next;
      QuietSteps(s, st);
    }
  }
}
